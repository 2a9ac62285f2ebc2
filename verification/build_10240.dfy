/**
 * Windows 10 build 10240: the first declaration of all seven interfaces
 * (src/interfaces_multi/build_10240.rs). The manager and the notification
 * interface take no monitor arguments here.
 */
module Build10240 {
  import opened Wrappers
  import opened Interfaces
  import Guid

  const APP_VIEW_IID: Guid.Guid := 0x9AC0B5C8_1484_4C5B_9533_4134A0F97CEA
  const COLLECTION_IID: Guid.Guid := 0x2C08ADF0_A386_4B35_9250_0FE183476FCC
  const DESKTOP_IID: Guid.Guid := 0xFF72FFDD_BE7E_43FC_9C03_AD81681E88E4
  const MANAGER_IID: Guid.Guid := 0xF31574D6_B682_4CDC_BD56_1827860ABEC6
  const NOTIFICATION_IID: Guid.Guid := 0xC179334C_4295_40D3_BEA1_C654D965605A
  const SERVICE_IID: Guid.Guid := 0x0CD45E71_D927_4F15_8B0A_8FEF525337BF
  const PINNED_IID: Guid.Guid := 0x4CE81583_1E4C_4632_A621_07A53543148F

  /** The seven declarations of this module. */
  function Build(): (t: Tables)
    ensures t.appView.iid == APP_VIEW_IID && t.collection.iid == COLLECTION_IID && t.desktop.iid == DESKTOP_IID
    ensures t.manager.iid == MANAGER_IID && t.notification.iid == NOTIFICATION_IID
    ensures t.service.iid == SERVICE_IID && t.pinned.iid == PINNED_IID
    ensures t.notification.items == WithAdaptor(SixCallbacks)
  {
    Tables(
      Table(APP_VIEW_IID, AppViewMethods(), TraitOnly),
      Table(COLLECTION_IID, CollectionMethods(), TraitOnly),
      Table(DESKTOP_IID, DesktopMethods(), TraitOnly),
      Table(MANAGER_IID, ManagerMethods(), TraitOnly),
      Table(NOTIFICATION_IID, NotificationMethods(), WithAdaptor(SixCallbacks)),
      Table(SERVICE_IID, ServiceMethods(), TraitOnly),
      Table(PINNED_IID, PinnedMethods(), TraitOnly))
  }

  /** IApplicationView: the 58 methods at build_10240.rs:15-139, in vtable order. */
  function AppViewAt(i: int): Method
  {
    match i
    case 0 => Method(GetIids, [MutPtr(Plain(ULONG)), MutPtr(MutPtr(Plain(GUID)))])
    case 1 => Method(GetRuntimeClassName, [MutPtr(Plain(HSTRING))])
    case 2 => Method(GetTrustLevel, [Plain(LPVOID)])
    case 3 => Method(SetFocus, [])
    case 4 => Method(SwitchTo, [])
    case 5 => Method(TryInvokeBack, [Plain(IAsyncCallback)])
    case 6 => Method(GetThumbnailWindow, [MutPtr(Plain(HWND))])
    case 7 => Method(GetMonitor, [MutPtr(MutPtr(Plain(IImmersiveMonitor)))])
    case 8 => Method(GetVisibility, [Plain(LPVOID)])
    case 9 => Method(SetCloak, [Plain(APPLICATION_VIEW_CLOAK_TYPE), Plain(INT)])
    case 10 => Method(GetPosition, [ConstPtr(Plain(GUID)), Plain(LPVOID)])
    case 11 => Method(SetPosition, [MutPtr(Plain(IApplicationViewPosition))])
    case 12 => Method(InsertAfterWindow, [Plain(HWND)])
    case 13 => Method(GetExtendedFramePosition, [MutPtr(Plain(RECT))])
    case 14 => Method(GetAppUserModelId, [MutPtr(Plain(PWSTR))])
    case 15 => Method(SetAppUserModelId, [Plain(PCWSTR)])
    case 16 => Method(IsEqualByAppUserModelId, [Plain(PCWSTR), MutPtr(Plain(INT))])
    case 17 => Method(GetViewState, [MutPtr(Plain(UINT))])
    case 18 => Method(SetViewState, [Plain(UINT)])
    case 19 => Method(GetNeediness, [MutPtr(Plain(INT))])
    case 20 => Method(GetLastActivationTimestamp, [MutPtr(Plain(ULONGLONG))])
    case 21 => Method(SetLastActivationTimestamp, [Plain(ULONGLONG)])
    case 22 => Method(GetVirtualDesktopId, [MutPtr(Plain(GUID))])
    case 23 => Method(SetVirtualDesktopId, [ConstPtr(Plain(GUID))])
    case 24 => Method(GetShowInSwitchers, [MutPtr(Plain(INT))])
    case 25 => Method(SetShowInSwitchers, [Plain(INT)])
    case 26 => Method(GetScaleFactor, [MutPtr(Plain(INT))])
    case 27 => Method(CanReceiveInput, [MutPtr(Plain(BOOL))])
    case 28 => Method(GetCompatibilityPolicyType, [MutPtr(Plain(APPLICATION_VIEW_COMPATIBILITY_POLICY))])
    case 29 => Method(SetCompatibilityPolicyType, [Plain(APPLICATION_VIEW_COMPATIBILITY_POLICY)])
    case 30 => Method(GetPositionPriority, [MutPtr(Plain(IShellPositionerPriority))])
    case 31 => Method(SetPositionPriority, [Plain(IShellPositionerPriority)])
    case 32 => Method(GetSizeConstraints, [MutPtr(Plain(IImmersiveMonitor)), MutPtr(Plain(SIZE)), MutPtr(Plain(SIZE))])
    case 33 => Method(GetSizeConstraintsForDpi, [Plain(UINT), MutPtr(Plain(SIZE)), MutPtr(Plain(SIZE))])
    case 34 => Method(SetSizeConstraintsForDpi, [ConstPtr(Plain(UINT)), ConstPtr(Plain(SIZE)), ConstPtr(Plain(SIZE))])
    case 35 => Method(QuerySizeConstraintsFromApp, [])
    case 36 => Method(OnMinSizePreferencesUpdated, [Plain(HWND)])
    case 37 => Method(ApplyOperation, [MutPtr(Plain(IApplicationViewOperation))])
    case 38 => Method(IsTray, [MutPtr(Plain(BOOL))])
    case 39 => Method(IsInHighZorderBand, [MutPtr(Plain(BOOL))])
    case 40 => Method(IsSplashScreenPresented, [MutPtr(Plain(BOOL))])
    case 41 => Method(Flash, [])
    case 42 => Method(GetRootSwitchableOwner, [MutPtr(Plain(IApplicationView))])
    case 43 => Method(EnumerateOwnershipTree, [MutPtr(Plain(IObjectArray))])
    case 44 => Method(GetEnterpriseId, [MutPtr(Plain(PWSTR))])
    case 45 => Method(IsMirrored, [MutPtr(Plain(BOOL))])
    case 46 => Method(Unknown1, [MutPtr(Plain(INT))])
    case 47 => Method(Unknown2, [MutPtr(Plain(INT))])
    case 48 => Method(Unknown3, [MutPtr(Plain(INT))])
    case 49 => Method(Unknown4, [Plain(INT)])
    case 50 => Method(Unknown5, [MutPtr(Plain(INT))])
    case 51 => Method(Unknown6, [Plain(INT)])
    case 52 => Method(Unknown7, [])
    case 53 => Method(Unknown8, [MutPtr(Plain(INT))])
    case 54 => Method(Unknown9, [Plain(INT)])
    case 55 => Method(Unknown10, [Plain(INT), Plain(INT)])
    case 56 => Method(Unknown11, [Plain(INT)])
    case _ => Method(Unknown12, [MutPtr(Plain(SIZE))])
  }

  function AppViewMethods(): (ms: seq<Method>)
    ensures |ms| == 58
  {
    seq(58, AppViewAt)
  }

  /** IApplicationViewCollection: the 11 methods at build_10240.rs:151-195, in vtable order. */
  function CollectionAt(i: int): Method
  {
    match i
    case 0 => Method(GetViews, [MutPtr(Plain(IObjectArray))])
    case 1 => Method(GetViewsByZorder, [MutPtr(Plain(IObjectArray))])
    case 2 => Method(GetViewsByAppUserModelId, [Plain(PCWSTR), MutPtr(Plain(IObjectArray))])
    case 3 => Method(GetViewForHwnd, [Plain(HWND), MutPtr(OptionOf(IApplicationView))])
    case 4 => Method(GetViewForApplication, [Plain(IImmersiveApplication), MutPtr(Plain(IApplicationView))])
    case 5 => Method(GetViewForAppUserModelId, [Plain(PCWSTR), MutPtr(Plain(IApplicationView))])
    case 6 => Method(GetViewInFocus, [MutPtr(Plain(IApplicationView))])
    case 7 => Method(RefreshCollection, [])
    case 8 => Method(RegisterForApplicationViewChanges, [Plain(IApplicationViewChangeListener), MutPtr(Plain(DWORD))])
    case 9 => Method(RegisterForApplicationViewPositionChanges, [Plain(IApplicationViewChangeListener), MutPtr(Plain(DWORD))])
    case _ => Method(UnregisterForApplicationViewChanges, [Plain(DWORD)])
  }

  function CollectionMethods(): (ms: seq<Method>)
    ensures |ms| == 11
  {
    seq(11, CollectionAt)
  }

  /** IVirtualDesktop: the 2 methods at build_10240.rs:207-212, in vtable order. */
  function DesktopAt(i: int): Method
  {
    match i
    case 0 => Method(IsViewVisible, [ComIn(IApplicationView), MutPtr(Plain(RustU32))])
    case _ => Method(GetId, [MutPtr(Plain(GUID))])
  }

  function DesktopMethods(): (ms: seq<Method>)
    ensures |ms| == 2
  {
    seq(2, DesktopAt)
  }

  /** IVirtualDesktopManagerInternal: the 10 methods at build_10240.rs:224-270, in vtable order. */
  function ManagerAt(i: int): Method
  {
    match i
    case 0 => Method(GetDesktopCount, [MutPtr(Plain(UINT))])
    case 1 => Method(MoveViewToDesktop, [ComIn(IApplicationView), ComIn(IVirtualDesktop)])
    case 2 => Method(CanMoveViewBetweenDesktops, [ComIn(IApplicationView), MutPtr(Plain(RustI32))])
    case 3 => Method(GetCurrentDesktop, [MutPtr(OptionOf(IVirtualDesktop))])
    case 4 => Method(GetDesktops, [MutPtr(OptionOf(IObjectArray))])
    case 5 => Method(GetAdjacentDesktop, [ComIn(IVirtualDesktop), Plain(UINT), MutPtr(OptionOf(IVirtualDesktop))])
    case 6 => Method(SwitchDesktop, [ComIn(IVirtualDesktop)])
    case 7 => Method(CreateDesktop, [MutPtr(OptionOf(IVirtualDesktop))])
    case 8 => Method(RemoveDesktop, [ComIn(IVirtualDesktop), ComIn(IVirtualDesktop)])
    case _ => Method(FindDesktop, [ConstPtr(Plain(GUID)), MutPtr(OptionOf(IVirtualDesktop))])
  }

  function ManagerMethods(): (ms: seq<Method>)
    ensures |ms| == 10
  {
    seq(10, ManagerAt)
  }

  /** IVirtualDesktopNotification: the 6 methods at build_10240.rs:286-314, in vtable order. */
  function NotificationAt(i: int): Method
  {
    match i
    case 0 => Method(VirtualDesktopCreated, [ComIn(IVirtualDesktop)])
    case 1 => Method(VirtualDesktopDestroyBegin, [ComIn(IVirtualDesktop), ComIn(IVirtualDesktop)])
    case 2 => Method(VirtualDesktopDestroyFailed, [ComIn(IVirtualDesktop), ComIn(IVirtualDesktop)])
    case 3 => Method(VirtualDesktopDestroyed, [ComIn(IVirtualDesktop), ComIn(IVirtualDesktop)])
    case 4 => Method(ViewVirtualDesktopChanged, [ComIn(IApplicationView)])
    case _ => Method(CurrentVirtualDesktopChanged, [ComIn(IVirtualDesktop), ComIn(IVirtualDesktop)])
  }

  function NotificationMethods(): (ms: seq<Method>)
    ensures |ms| == 6
  {
    seq(6, NotificationAt)
  }

  /** IVirtualDesktopNotificationService: the 2 methods at build_10240.rs:395-401, in vtable order. */
  function ServiceAt(i: int): Method
  {
    match i
    case 0 => Method(Register, [MutPtr(Plain(CVoid)), MutPtr(Plain(DWORD))])
    case _ => Method(Unregister, [Plain(RustU32)])
  }

  function ServiceMethods(): (ms: seq<Method>)
    ensures |ms| == 2
  {
    seq(2, ServiceAt)
  }

  /** IVirtualDesktopPinnedApps: the 6 methods at build_10240.rs:413-423, in vtable order. */
  function PinnedAt(i: int): Method
  {
    match i
    case 0 => Method(IsAppPinned, [Plain(PCWSTR), MutPtr(Plain(RustBool))])
    case 1 => Method(PinApp, [Plain(PCWSTR)])
    case 2 => Method(UnpinApp, [Plain(PCWSTR)])
    case 3 => Method(IsViewPinned, [ComIn(IApplicationView), MutPtr(Plain(RustBool))])
    case 4 => Method(PinView, [ComIn(IApplicationView)])
    case _ => Method(UnpinView, [ComIn(IApplicationView)])
  }

  function PinnedMethods(): (ms: seq<Method>)
    ensures |ms| == 6
  {
    seq(6, PinnedAt)
  }

  // ---------------------------------------------------------------------------
  // Facts about the tables

  /**
   * IApplicationView has 58 methods. The slot numbers the declaration notes in
   * its comments (`Proc17`, `Proc20` ... `proc47`) are the declaration positions
   * plus IUnknown's three, and the list ends with the twelve opaque methods.
   */
  lemma AppViewSlots()
    ensures |Build().appView.methods| == 58
    ensures Slot(Build().appView, GetAppUserModelId) == Some(17)
    ensures Slot(Build().appView, GetViewState) == Some(20)
    ensures Slot(Build().appView, SetViewState) == Some(21)
    ensures Slot(Build().appView, GetNeediness) == Some(22)
    ensures Slot(Build().appView, SetCompatibilityPolicyType) == Some(32)
    ensures Slot(Build().appView, GetSizeConstraints) == Some(35)
    ensures Slot(Build().appView, OnMinSizePreferencesUpdated) == Some(39)
    ensures Slot(Build().appView, GetRootSwitchableOwner) == Some(45)
    ensures Slot(Build().appView, EnumerateOwnershipTree) == Some(46)
    ensures Slot(Build().appView, GetEnterpriseId) == Some(47)
    ensures forall i :: 46 <= i < 58 ==> Build().appView.methods[i].name == Opaque(i - 45)
  {
    AppViewSlot17();
    AppViewSlot20();
    AppViewSlot21();
    AppViewSlot22();
    AppViewSlot32();
    AppViewSlot35();
    AppViewSlot39();
    AppViewSlot45();
    AppViewSlot46();
    AppViewSlot47();
    AppViewOpaqueTail();
  }

  // One lemma per slot comment: the solver cannot unfold the 58-entry literal at a
  // symbolic index within its budget, so `AppViewSlots` collects these one by one.

  lemma AppViewSlot17()
    ensures Slot(Build().appView, GetAppUserModelId) == Some(17)
  {
    FirstIndex(AppViewMethods(), GetAppUserModelId, 14);
  }

  lemma AppViewSlot20()
    ensures Slot(Build().appView, GetViewState) == Some(20)
  {
    FirstIndex(AppViewMethods(), GetViewState, 17);
  }

  lemma AppViewSlot21()
    ensures Slot(Build().appView, SetViewState) == Some(21)
  {
    FirstIndex(AppViewMethods(), SetViewState, 18);
  }

  lemma AppViewSlot22()
    ensures Slot(Build().appView, GetNeediness) == Some(22)
  {
    FirstIndex(AppViewMethods(), GetNeediness, 19);
  }

  lemma AppViewSlot32()
    ensures Slot(Build().appView, SetCompatibilityPolicyType) == Some(32)
  {
    FirstIndex(AppViewMethods(), SetCompatibilityPolicyType, 29);
  }

  lemma AppViewSlot35()
    ensures Slot(Build().appView, GetSizeConstraints) == Some(35)
  {
    FirstIndex(AppViewMethods(), GetSizeConstraints, 32);
  }

  lemma AppViewSlot39()
    ensures Slot(Build().appView, OnMinSizePreferencesUpdated) == Some(39)
  {
    FirstIndex(AppViewMethods(), OnMinSizePreferencesUpdated, 36);
  }

  lemma AppViewSlot45()
    ensures Slot(Build().appView, GetRootSwitchableOwner) == Some(45)
  {
    FirstIndex(AppViewMethods(), GetRootSwitchableOwner, 42);
  }

  lemma AppViewSlot46()
    ensures Slot(Build().appView, EnumerateOwnershipTree) == Some(46)
  {
    FirstIndex(AppViewMethods(), EnumerateOwnershipTree, 43);
  }

  lemma AppViewSlot47()
    ensures Slot(Build().appView, GetEnterpriseId) == Some(47)
  {
    FirstIndex(AppViewMethods(), GetEnterpriseId, 44);
  }

  lemma AppViewOpaqueTail()
    ensures forall i :: 46 <= i < 58 ==> Build().appView.methods[i].name == Opaque(i - 45)
  {
  }

  /**
   * IApplicationViewCollection has 11 methods; the position-changes registration
   * sits between the view-changes registration and the unregistration, and the
   * last four methods are at slots 10..13.
   */
  lemma CollectionShape()
    ensures |Build().collection.methods| == 11 && Names(Build().collection.methods)[8..] ==
      [RegisterForApplicationViewChanges, RegisterForApplicationViewPositionChanges,
       UnregisterForApplicationViewChanges]
    ensures Slot(Build().collection, RefreshCollection) == Some(10)
    ensures Slot(Build().collection, RegisterForApplicationViewChanges) == Some(11)
    ensures Slot(Build().collection, UnregisterForApplicationViewChanges) == Some(13)
    ensures !HasMethod(Build().collection, TryGetLastActiveVisibleView)
  {
    CollectionTail();
    CollectionRefreshSlot();
    CollectionRegisterSlot();
    CollectionUnregisterSlot();
    CollectionNoLastActive();
  }

  lemma CollectionTail()
    ensures |Build().collection.methods| == 11 && Names(Build().collection.methods)[8..] ==
      [RegisterForApplicationViewChanges, RegisterForApplicationViewPositionChanges,
       UnregisterForApplicationViewChanges]
  {
  }

  lemma CollectionRefreshSlot()
    ensures Slot(Build().collection, RefreshCollection) == Some(10)
  {
    FirstIndex(CollectionMethods(), RefreshCollection, 7);
  }

  lemma CollectionRegisterSlot()
    ensures Slot(Build().collection, RegisterForApplicationViewChanges) == Some(11)
  {
    FirstIndex(CollectionMethods(), RegisterForApplicationViewChanges, 8);
  }

  lemma CollectionUnregisterSlot()
    ensures Slot(Build().collection, UnregisterForApplicationViewChanges) == Some(13)
  {
    FirstIndex(CollectionMethods(), UnregisterForApplicationViewChanges, 10);
  }

  lemma CollectionNoLastActive()
    ensures !HasMethod(Build().collection, TryGetLastActiveVisibleView)
  {
  }

  /**
   * IVirtualDesktop is exactly `is_view_visible` then `get_id`: no monitor, name
   * or wallpaper method.
   */
  lemma DesktopShape()
    ensures Names(Build().desktop.methods) == [IsViewVisible, GetId]
    ensures !HasMethod(Build().desktop, GetMonitor) && !AnyTakesMonitor(Build().desktop)
    ensures !HasMethod(Build().desktop, GetName)
    ensures !HasMethod(Build().desktop, GetWallpaper)
  {
    DesktopNames();
    DesktopNoMonitor();
    DesktopNoName();
    DesktopNoWallpaper();
  }

  lemma DesktopNames()
    ensures Names(Build().desktop.methods) == [IsViewVisible, GetId]
  {
  }

  lemma DesktopNoMonitor()
    ensures !HasMethod(Build().desktop, GetMonitor) && !AnyTakesMonitor(Build().desktop)
  {
  }

  lemma DesktopNoName()
    ensures !HasMethod(Build().desktop, GetName)
  {
  }

  lemma DesktopNoWallpaper()
    ensures !HasMethod(Build().desktop, GetWallpaper)
  {
  }

  /**
   * IVirtualDesktopManagerInternal has 10 methods, none taking a monitor, and
   * none of the methods later builds add for moving, naming or wallpapers.
   */
  lemma ManagerShape()
    ensures |Build().manager.methods| == 10 && !AnyTakesMonitor(Build().manager)
    ensures !HasMethod(Build().manager, MoveDesktop)
    ensures !HasMethod(Build().manager, SetName)
    ensures !HasMethod(Build().manager, SetWallpaper)
    ensures !HasMethod(Build().manager, UpdateWallpaperForAll)
  {
    ManagerNoMonitor();
    ManagerNoMove();
    ManagerNoSetName();
    ManagerNoSetWallpaper();
    ManagerNoWallpaperForAll();
  }

  lemma ManagerNoMonitor()
    ensures |Build().manager.methods| == 10 && !AnyTakesMonitor(Build().manager)
  {
  }

  lemma ManagerNoMove()
    ensures !HasMethod(Build().manager, MoveDesktop)
  {
  }

  lemma ManagerNoSetName()
    ensures !HasMethod(Build().manager, SetName)
  {
  }

  lemma ManagerNoSetWallpaper()
    ensures !HasMethod(Build().manager, SetWallpaper)
  {
  }

  lemma ManagerNoWallpaperForAll()
    ensures !HasMethod(Build().manager, UpdateWallpaperForAll)
  {
  }

  /**
   * The notification interface declares six callbacks, none taking a monitor, and
   * carries the six-callback adaptor.
   */
  lemma NotificationShape()
    ensures Names(Build().notification.methods) ==
      [VirtualDesktopCreated, VirtualDesktopDestroyBegin, VirtualDesktopDestroyFailed,
       VirtualDesktopDestroyed, ViewVirtualDesktopChanged, CurrentVirtualDesktopChanged]
    ensures !AnyTakesMonitor(Build().notification) && Build().notification.items == WithAdaptor(SixCallbacks)
  {
    NotificationNames();
    NotificationNoMonitor();
  }

  lemma NotificationNames()
    ensures Names(Build().notification.methods) ==
      [VirtualDesktopCreated, VirtualDesktopDestroyBegin, VirtualDesktopDestroyFailed,
       VirtualDesktopDestroyed, ViewVirtualDesktopChanged, CurrentVirtualDesktopChanged]
  {
  }

  lemma NotificationNoMonitor()
    ensures !AnyTakesMonitor(Build().notification) && Build().notification.items == WithAdaptor(SixCallbacks)
  {
  }
}
