/**
 * Windows 11 22H2, build 22621.2215 (src/interfaces_multi/build_22621_2215.rs).
 * Four interfaces are build 10240's tables under build 22000's IIDs;
 * IVirtualDesktop, the manager and the notification interface are declared
 * afresh without any monitor argument, the notification interface with the same
 * callbacks as the stable trait and an identity adaptor.
 */
module Build22621_2215 {
  import opened Wrappers
  import opened Interfaces
  import Guid
  import Build10240
  import Build22000

  const APP_VIEW_IID: Guid.Guid := 0x372E1D3B_38D3_42E4_A15B_8AB2B178F513
  const COLLECTION_IID: Guid.Guid := 0x1841C6D7_4F9D_42C0_AF41_8747538F10E5
  const DESKTOP_IID: Guid.Guid := 0x3F07F4BE_B107_441A_AF0F_39D82529072C
  const MANAGER_IID: Guid.Guid := 0xA3175F2D_239C_4BD2_8AA0_EEBA8B0B138E
  const NOTIFICATION_IID: Guid.Guid := 0xB287FA1C_7771_471A_A2DF_9B6B21F0D675
  const SERVICE_IID: Guid.Guid := 0x0CD45E71_D927_4F15_8B0A_8FEF525337BF
  const PINNED_IID: Guid.Guid := 0x4CE81583_1E4C_4632_A621_07A53543148F

  /** The seven declarations of this module. */
  function Build(): (t: Tables)
    ensures t.appView.iid == APP_VIEW_IID && t.collection.iid == COLLECTION_IID && t.desktop.iid == DESKTOP_IID
    ensures t.manager.iid == MANAGER_IID && t.notification.iid == NOTIFICATION_IID
    ensures t.service.iid == SERVICE_IID && t.pinned.iid == PINNED_IID
    ensures forall k :: k in {AppView, ViewCollection, NotificationService, PinnedApps} ==> SameShape(t.Of(k), Build10240.Build().Of(k))
    ensures t.notification.items == WithAdaptor(IdentityCallbacks)
  {
    var prev := Build10240.Build();
    Tables(
      Redeclare(prev.appView, APP_VIEW_IID),
      Redeclare(prev.collection, COLLECTION_IID),
      Table(DESKTOP_IID, DesktopMethods(), TraitOnly),
      Table(MANAGER_IID, ManagerMethods(), TraitOnly),
      Table(NOTIFICATION_IID, NotificationMethods(), WithAdaptor(IdentityCallbacks)),
      Redeclare(prev.service, SERVICE_IID),
      Redeclare(prev.pinned, PINNED_IID))
  }

  /** IVirtualDesktop: the 5 methods at build_22621_2215.rs:26-36, in vtable order. */
  function DesktopAt(i: int): Method
  {
    match i
    case 0 => Method(IsViewVisible, [ComIn(IApplicationView), MutPtr(Plain(RustU32))])
    case 1 => Method(GetId, [MutPtr(Plain(GUID))])
    case 2 => Method(GetName, [MutPtr(Plain(HSTRING))])
    case 3 => Method(GetWallpaper, [MutPtr(Plain(HSTRING))])
    case _ => Method(IsRemote, [MutPtr(Plain(RustI32))])
  }

  function DesktopMethods(): (ms: seq<Method>)
    ensures |ms| == 5
  {
    seq(5, DesktopAt)
  }

  /** IVirtualDesktopManagerInternal: the 21 methods at build_22621_2215.rs:48-151, in vtable order. */
  function ManagerAt(i: int): Method
  {
    match i
    case 0 => Method(GetDesktopCount, [MutPtr(Plain(UINT))])
    case 1 => Method(MoveViewToDesktop, [ComIn(IApplicationView), ComIn(IVirtualDesktop)])
    case 2 => Method(CanMoveViewBetweenDesktops, [ComIn(IApplicationView), MutPtr(Plain(RustI32))])
    case 3 => Method(GetCurrentDesktop, [MutPtr(OptionOf(IVirtualDesktop))])
    case 4 => Method(GetDesktops, [MutPtr(OptionOf(IObjectArray))])
    case 5 => Method(GetAdjacentDesktop, [ComIn(IVirtualDesktop), Plain(UINT), MutPtr(OptionOf(IVirtualDesktop))])
    case 6 => Method(SwitchDesktop, [ComIn(IVirtualDesktop)])
    case 7 => Method(CreateDesktop, [MutPtr(OptionOf(IVirtualDesktop))])
    case 8 => Method(MoveDesktop, [ComIn(IVirtualDesktop), Plain(UINT)])
    case 9 => Method(RemoveDesktop, [ComIn(IVirtualDesktop), ComIn(IVirtualDesktop)])
    case 10 => Method(FindDesktop, [ConstPtr(Plain(GUID)), MutPtr(OptionOf(IVirtualDesktop))])
    case 11 => Method(GetDesktopSwitchIncludeExcludeViews, [ComIn(IVirtualDesktop), MutPtr(Plain(IObjectArray)), MutPtr(Plain(IObjectArray))])
    case 12 => Method(SetName, [ComIn(IVirtualDesktop), Plain(HSTRING)])
    case 13 => Method(SetWallpaper, [ComIn(IVirtualDesktop), Plain(HSTRING)])
    case 14 => Method(UpdateWallpaperForAll, [Plain(HSTRING)])
    case 15 => Method(CopyDesktopState, [ComIn(IApplicationView), ComIn(IApplicationView)])
    case 16 => Method(CreateRemoteDesktop, [Plain(HSTRING), MutPtr(OptionOf(IVirtualDesktop))])
    case 17 => Method(SwitchRemoteDesktop, [ComIn(IVirtualDesktop)])
    case 18 => Method(SwitchDesktopWithAnimation, [ComIn(IVirtualDesktop)])
    case 19 => Method(GetLastActiveDesktop, [MutPtr(OptionOf(IVirtualDesktop))])
    case _ => Method(WaitForAnimationToComplete, [])
  }

  function ManagerMethods(): (ms: seq<Method>)
    ensures |ms| == 21
  {
    seq(21, ManagerAt)
  }

  /** IVirtualDesktopNotification: the 11 methods at build_22621_2215.rs:163-221, in vtable order. */
  function NotificationAt(i: int): Method
  {
    match i
    case 0 => Method(VirtualDesktopCreated, [ComIn(IVirtualDesktop)])
    case 1 => Method(VirtualDesktopDestroyBegin, [ComIn(IVirtualDesktop), ComIn(IVirtualDesktop)])
    case 2 => Method(VirtualDesktopDestroyFailed, [ComIn(IVirtualDesktop), ComIn(IVirtualDesktop)])
    case 3 => Method(VirtualDesktopDestroyed, [ComIn(IVirtualDesktop), ComIn(IVirtualDesktop)])
    case 4 => Method(VirtualDesktopMoved, [ComIn(IVirtualDesktop), Plain(RustI64), Plain(RustI64)])
    case 5 => Method(VirtualDesktopNameChanged, [ComIn(IVirtualDesktop), Plain(HSTRING)])
    case 6 => Method(ViewVirtualDesktopChanged, [ComIn(IApplicationView)])
    case 7 => Method(CurrentVirtualDesktopChanged, [ComIn(IVirtualDesktop), ComIn(IVirtualDesktop)])
    case 8 => Method(VirtualDesktopWallpaperChanged, [ComIn(IVirtualDesktop), Plain(HSTRING)])
    case 9 => Method(VirtualDesktopSwitched, [ComIn(IVirtualDesktop)])
    case _ => Method(RemoteVirtualDesktopConnected, [ComIn(IVirtualDesktop)])
  }

  function NotificationMethods(): (ms: seq<Method>)
    ensures |ms| == 11
  {
    seq(11, NotificationAt)
  }

  // ---------------------------------------------------------------------------
  // Facts about the tables

  /** The four re-used interfaces are exactly build 22000's, IIDs included. */
  lemma ReusedAs22000()
    ensures forall k :: k in {AppView, ViewCollection, NotificationService, PinnedApps} ==>
      Build().Of(k) == Build22000.Build().Of(k)
  {
  }

  /** IVirtualDesktop is build 22000's without `get_monitor` and with `is_remote` appended. */
  lemma DesktopEdited()
    ensures DesktopMethods() == RemoveAt(Build22000.DesktopMethods(), 2) + [Method(IsRemote, [MutPtr(Plain(RustI32))])]
  {
    var a, b := DesktopMethods(), RemoveAt(Build22000.DesktopMethods(), 2) + [Method(IsRemote, [MutPtr(Plain(RustI32))])];
    assert forall i :: 0 <= i < 5 ==> a[i] == b[i];
  }

  /** `get_name`, `get_wallpaper` and `is_remote` sit at slots 5, 6 and 7, and there is no `get_monitor`. */
  lemma DesktopSlots()
    ensures Slot(Build().desktop, GetName) == Some(5)
    ensures Slot(Build().desktop, GetWallpaper) == Some(6)
    ensures Slot(Build().desktop, IsRemote) == Some(7)
    ensures !HasMethod(Build().desktop, GetMonitor)
  {
    DesktopNameSlot();
    DesktopWallpaperSlot();
    DesktopRemoteSlot();
    DesktopNoMonitor();
  }

  lemma DesktopNameSlot()
    ensures Slot(Build().desktop, GetName) == Some(5)
  {
    FirstIndex(DesktopMethods(), GetName, 2);
  }

  lemma DesktopWallpaperSlot()
    ensures Slot(Build().desktop, GetWallpaper) == Some(6)
  {
    FirstIndex(DesktopMethods(), GetWallpaper, 3);
  }

  lemma DesktopRemoteSlot()
    ensures Slot(Build().desktop, IsRemote) == Some(7)
  {
    FirstIndex(DesktopMethods(), IsRemote, 4);
  }

  lemma DesktopNoMonitor()
    ensures !HasMethod(Build().desktop, GetMonitor)
  {
  }

  /**
   * The manager has 21 methods and none takes a monitor; the five methods after
   * `copy_desktop_state` are new, and build 22000's per-monitor switch methods
   * are gone.
   */
  lemma ManagerShape()
    ensures |Build().manager.methods| == 21 && !AnyTakesMonitor(Build().manager)
    ensures Names(Build().manager.methods)[15..] ==
      [CopyDesktopState, CreateRemoteDesktop, SwitchRemoteDesktop, SwitchDesktopWithAnimation,
       GetLastActiveDesktop, WaitForAnimationToComplete]
    ensures !HasMethod(Build().manager, GetDesktopIsPerMonitor)
    ensures !HasMethod(Build().manager, SetDesktopIsPerMonitor)
  {
    ManagerNoMonitor();
    ManagerTail();
    ManagerNoGetPerMonitor();
    ManagerNoSetPerMonitor();
  }

  lemma ManagerNoMonitor()
    ensures |Build().manager.methods| == 21 && !AnyTakesMonitor(Build().manager)
  {
  }

  lemma ManagerTail()
    ensures Names(Build().manager.methods)[15..] ==
      [CopyDesktopState, CreateRemoteDesktop, SwitchRemoteDesktop, SwitchDesktopWithAnimation,
       GetLastActiveDesktop, WaitForAnimationToComplete]
  {
  }

  lemma ManagerNoGetPerMonitor()
    ensures !HasMethod(Build().manager, GetDesktopIsPerMonitor)
  {
  }

  lemma ManagerNoSetPerMonitor()
    ensures !HasMethod(Build().manager, SetDesktopIsPerMonitor)
  {
  }
}
