/**
 * The version-independent interface types: what the rest of the library calls.
 *
 * Each type wraps one raw COM pointer whose IID is only known at run time, and
 * declares the methods the library needs, with the parameter types it passes.
 * `&mut T` parameters are written as pointers, as they reach the vtable.
 * The abstract notification interface declares no methods of its own: an
 * implementation of the stable callback trait is turned into the adaptor of the
 * running version instead.
 */
module Abstract {
  import opened Interfaces

  /** IApplicationView: the 58 methods at build_dyn.rs:505-629, in declaration order. */
  function AppViewAt(i: int): Method
  {
    match i
    case 0 => Method(GetIids, [MutPtr(Plain(ULONG)), MutPtr(MutPtr(Plain(GUID)))])
    case 1 => Method(GetRuntimeClassName, [MutPtr(Plain(HSTRING))])
    case 2 => Method(GetTrustLevel, [Plain(LPVOID)])
    case 3 => Method(SetFocus, [])
    case 4 => Method(SwitchTo, [])
    case 5 => Method(TryInvokeBack, [Plain(IAsyncCallback)])
    case 6 => Method(GetThumbnailWindow, [MutPtr(Plain(HWND))])
    case 7 => Method(GetMonitor, [MutPtr(MutPtr(Plain(IImmersiveMonitor)))])
    case 8 => Method(GetVisibility, [Plain(LPVOID)])
    case 9 => Method(SetCloak, [Plain(APPLICATION_VIEW_CLOAK_TYPE), Plain(INT)])
    case 10 => Method(GetPosition, [ConstPtr(Plain(GUID)), Plain(LPVOID)])
    case 11 => Method(SetPosition, [MutPtr(Plain(IApplicationViewPosition))])
    case 12 => Method(InsertAfterWindow, [Plain(HWND)])
    case 13 => Method(GetExtendedFramePosition, [MutPtr(Plain(RECT))])
    case 14 => Method(GetAppUserModelId, [MutPtr(Plain(PWSTR))])
    case 15 => Method(SetAppUserModelId, [Plain(PCWSTR)])
    case 16 => Method(IsEqualByAppUserModelId, [Plain(PCWSTR), MutPtr(Plain(INT))])
    case 17 => Method(GetViewState, [MutPtr(Plain(UINT))])
    case 18 => Method(SetViewState, [Plain(UINT)])
    case 19 => Method(GetNeediness, [MutPtr(Plain(INT))])
    case 20 => Method(GetLastActivationTimestamp, [MutPtr(Plain(ULONGLONG))])
    case 21 => Method(SetLastActivationTimestamp, [Plain(ULONGLONG)])
    case 22 => Method(GetVirtualDesktopId, [MutPtr(Plain(GUID))])
    case 23 => Method(SetVirtualDesktopId, [ConstPtr(Plain(GUID))])
    case 24 => Method(GetShowInSwitchers, [MutPtr(Plain(INT))])
    case 25 => Method(SetShowInSwitchers, [Plain(INT)])
    case 26 => Method(GetScaleFactor, [MutPtr(Plain(INT))])
    case 27 => Method(CanReceiveInput, [MutPtr(Plain(BOOL))])
    case 28 => Method(GetCompatibilityPolicyType, [MutPtr(Plain(APPLICATION_VIEW_COMPATIBILITY_POLICY))])
    case 29 => Method(SetCompatibilityPolicyType, [Plain(APPLICATION_VIEW_COMPATIBILITY_POLICY)])
    case 30 => Method(GetPositionPriority, [MutPtr(Plain(IShellPositionerPriority))])
    case 31 => Method(SetPositionPriority, [Plain(IShellPositionerPriority)])
    case 32 => Method(GetSizeConstraints, [MutPtr(Plain(IImmersiveMonitor)), MutPtr(Plain(SIZE)), MutPtr(Plain(SIZE))])
    case 33 => Method(GetSizeConstraintsForDpi, [Plain(UINT), MutPtr(Plain(SIZE)), MutPtr(Plain(SIZE))])
    case 34 => Method(SetSizeConstraintsForDpi, [ConstPtr(Plain(UINT)), ConstPtr(Plain(SIZE)), ConstPtr(Plain(SIZE))])
    case 35 => Method(QuerySizeConstraintsFromApp, [])
    case 36 => Method(OnMinSizePreferencesUpdated, [Plain(HWND)])
    case 37 => Method(ApplyOperation, [MutPtr(Plain(IApplicationViewOperation))])
    case 38 => Method(IsTray, [MutPtr(Plain(BOOL))])
    case 39 => Method(IsInHighZorderBand, [MutPtr(Plain(BOOL))])
    case 40 => Method(IsSplashScreenPresented, [MutPtr(Plain(BOOL))])
    case 41 => Method(Flash, [])
    case 42 => Method(GetRootSwitchableOwner, [MutPtr(Plain(IApplicationView))])
    case 43 => Method(EnumerateOwnershipTree, [MutPtr(Plain(IObjectArray))])
    case 44 => Method(GetEnterpriseId, [MutPtr(Plain(PWSTR))])
    case 45 => Method(IsMirrored, [MutPtr(Plain(BOOL))])
    case 46 => Method(Unknown1, [MutPtr(Plain(INT))])
    case 47 => Method(Unknown2, [MutPtr(Plain(INT))])
    case 48 => Method(Unknown3, [MutPtr(Plain(INT))])
    case 49 => Method(Unknown4, [Plain(INT)])
    case 50 => Method(Unknown5, [MutPtr(Plain(INT))])
    case 51 => Method(Unknown6, [Plain(INT)])
    case 52 => Method(Unknown7, [])
    case 53 => Method(Unknown8, [MutPtr(Plain(INT))])
    case 54 => Method(Unknown9, [Plain(INT)])
    case 55 => Method(Unknown10, [Plain(INT), Plain(INT)])
    case 56 => Method(Unknown11, [Plain(INT)])
    case _ => Method(Unknown12, [MutPtr(Plain(SIZE))])
  }

  function AppViewMethods(): (ms: seq<Method>)
    ensures |ms| == 58
  {
    seq(58, AppViewAt)
  }

  /** IApplicationViewCollection: the 10 methods at build_dyn.rs:667-724, in declaration order. */
  function CollectionAt(i: int): Method
  {
    match i
    case 0 => Method(GetViews, [MutPtr(Plain(IObjectArray))])
    case 1 => Method(GetViewsByZorder, [MutPtr(Plain(IObjectArray))])
    case 2 => Method(GetViewsByAppUserModelId, [Plain(PCWSTR), MutPtr(Plain(IObjectArray))])
    case 3 => Method(GetViewForHwnd, [Plain(HWND), MutPtr(OptionOf(IApplicationView))])
    case 4 => Method(GetViewForApplication, [Plain(IImmersiveApplication), MutPtr(Plain(IApplicationView))])
    case 5 => Method(GetViewForAppUserModelId, [Plain(PCWSTR), MutPtr(Plain(IApplicationView))])
    case 6 => Method(GetViewInFocus, [MutPtr(OptionOf(IApplicationView))])
    case 7 => Method(RefreshCollection, [])
    case 8 => Method(RegisterForApplicationViewChanges, [Plain(IApplicationViewChangeListener), MutPtr(Plain(DWORD))])
    case _ => Method(UnregisterForApplicationViewChanges, [Plain(DWORD)])
  }

  function CollectionMethods(): (ms: seq<Method>)
    ensures |ms| == 10
  {
    seq(10, CollectionAt)
  }

  /** IVirtualDesktop: the 4 methods at build_dyn.rs:639-652, in declaration order. */
  function DesktopAt(i: int): Method
  {
    match i
    case 0 => Method(IsViewVisible, [ComIn(IApplicationView), MutPtr(Plain(RustU32))])
    case 1 => Method(GetId, [MutPtr(Plain(GUID))])
    case 2 => Method(GetName, [MutPtr(Plain(HSTRING))])
    case _ => Method(GetWallpaper, [MutPtr(Plain(HSTRING))])
  }

  function DesktopMethods(): (ms: seq<Method>)
    ensures |ms| == 4
  {
    seq(4, DesktopAt)
  }

  /** IVirtualDesktopManagerInternal: the 15 methods at build_dyn.rs:858-957, in declaration order. */
  function ManagerAt(i: int): Method
  {
    match i
    case 0 => Method(GetDesktopCount, [MutPtr(Plain(UINT))])
    case 1 => Method(MoveViewToDesktop, [ComIn(IApplicationView), ComIn(IVirtualDesktop)])
    case 2 => Method(CanMoveViewBetweenDesktops, [ComIn(IApplicationView), MutPtr(Plain(RustI32))])
    case 3 => Method(GetCurrentDesktop, [MutPtr(OptionOf(IVirtualDesktop))])
    case 4 => Method(GetDesktops, [MutPtr(OptionOf(IObjectArray))])
    case 5 => Method(GetAdjacentDesktop, [ComIn(IVirtualDesktop), Plain(UINT), MutPtr(OptionOf(IVirtualDesktop))])
    case 6 => Method(SwitchDesktop, [ComIn(IVirtualDesktop)])
    case 7 => Method(CreateDesktop, [MutPtr(OptionOf(IVirtualDesktop))])
    case 8 => Method(MoveDesktop, [ComIn(IVirtualDesktop), Plain(UINT)])
    case 9 => Method(RemoveDesktop, [ComIn(IVirtualDesktop), ComIn(IVirtualDesktop)])
    case 10 => Method(FindDesktop, [ConstPtr(Plain(GUID)), MutPtr(OptionOf(IVirtualDesktop))])
    case 11 => Method(GetDesktopSwitchIncludeExcludeViews, [ComIn(IVirtualDesktop), MutPtr(Plain(IObjectArray)), MutPtr(Plain(IObjectArray))])
    case 12 => Method(SetName, [ComIn(IVirtualDesktop), Plain(HSTRING)])
    case 13 => Method(SetWallpaper, [ComIn(IVirtualDesktop), Plain(HSTRING)])
    case _ => Method(UpdateWallpaperForAll, [Plain(HSTRING)])
  }

  function ManagerMethods(): (ms: seq<Method>)
    ensures |ms| == 15
  {
    seq(15, ManagerAt)
  }

  /** IVirtualDesktopNotificationService: the 2 methods at build_dyn.rs:827-832, in declaration order. */
  function ServiceAt(i: int): Method
  {
    match i
    case 0 => Method(Register, [MutPtr(Plain(CVoid)), MutPtr(Plain(DWORD))])
    case _ => Method(Unregister, [Plain(RustU32)])
  }

  function ServiceMethods(): (ms: seq<Method>)
    ensures |ms| == 2
  {
    seq(2, ServiceAt)
  }

  /** IVirtualDesktopPinnedApps: the 6 methods at build_dyn.rs:991-1005, in declaration order. */
  function PinnedAt(i: int): Method
  {
    match i
    case 0 => Method(IsAppPinned, [Plain(PCWSTR), MutPtr(Plain(RustBool))])
    case 1 => Method(PinApp, [Plain(PCWSTR)])
    case 2 => Method(UnpinApp, [Plain(PCWSTR)])
    case 3 => Method(IsViewPinned, [ComIn(IApplicationView), MutPtr(Plain(RustBool))])
    case 4 => Method(PinView, [ComIn(IApplicationView)])
    case _ => Method(UnpinView, [ComIn(IApplicationView)])
  }

  function PinnedMethods(): (ms: seq<Method>)
    ensures |ms| == 6
  {
    seq(6, PinnedAt)
  }

  /** The methods the abstract type of each interface declares. */
  function Methods(k: Kind): (ms: seq<Method>)
  {
    match k
    case AppView => AppViewMethods()
    case ViewCollection => CollectionMethods()
    case Desktop => DesktopMethods()
    case ManagerInternal => ManagerMethods()
    case Notification => []
    case NotificationService => ServiceMethods()
    case PinnedApps => PinnedMethods()
  }
}
