/**
 * Windows 11 build 22000 (src/interfaces_multi/build_22000.rs). Four interfaces
 * are build 10240's tables re-emitted; IVirtualDesktop, the manager and the
 * notification interface are declared afresh with monitor arguments. The manager
 * carries wrappers that call the monitor-taking methods with monitor 0, and the
 * notification interface an adaptor onto the stable callbacks.
 */
module Build22000 {
  import opened Wrappers
  import opened Interfaces
  import Guid
  import Build10240

  const APP_VIEW_IID: Guid.Guid := 0x372E1D3B_38D3_42E4_A15B_8AB2B178F513
  const COLLECTION_IID: Guid.Guid := 0x1841C6D7_4F9D_42C0_AF41_8747538F10E5
  const DESKTOP_IID: Guid.Guid := 0x536D3495_B208_4CC9_AE26_DE8111275BF8
  const MANAGER_IID: Guid.Guid := 0xB2F925B9_5A0F_4D2E_9F4D_2B1507593C10
  /** Written in lower case in the source; the value is the same as upper-case text would give. */
  const NOTIFICATION_IID: Guid.Guid := 0xCD403E52_DEED_4C13_B437_B98380F2B1E8
  /** Written in lower case in the source, the same value build 10240 writes in upper case. */
  const SERVICE_IID: Guid.Guid := 0x0CD45E71_D927_4F15_8B0A_8FEF525337BF
  const PINNED_IID: Guid.Guid := 0x4CE81583_1E4C_4632_A621_07A53543148F

  /** The seven declarations of this module. */
  function Build(): (t: Tables)
    ensures t.appView.iid == APP_VIEW_IID && t.collection.iid == COLLECTION_IID && t.desktop.iid == DESKTOP_IID
    ensures t.manager.iid == MANAGER_IID && t.notification.iid == NOTIFICATION_IID
    ensures t.service.iid == SERVICE_IID && t.pinned.iid == PINNED_IID
    ensures forall k :: k in {AppView, ViewCollection, NotificationService, PinnedApps} ==> SameShape(t.Of(k), Build10240.Build().Of(k))
    ensures t.manager.items == WithMonitorZeroWrappers && t.notification.items == WithAdaptor(PerMonitorCallbacks)
  {
    var prev := Build10240.Build();
    Tables(
      Redeclare(prev.appView, APP_VIEW_IID),
      Redeclare(prev.collection, COLLECTION_IID),
      Table(DESKTOP_IID, DesktopMethods(), TraitOnly),
      Table(MANAGER_IID, ManagerMethods(), WithMonitorZeroWrappers),
      Table(NOTIFICATION_IID, NotificationMethods(), WithAdaptor(PerMonitorCallbacks)),
      Redeclare(prev.service, SERVICE_IID),
      Redeclare(prev.pinned, PINNED_IID))
  }

  /** IVirtualDesktop: the 5 methods at build_22000.rs:23-32, in vtable order. */
  function DesktopAt(i: int): Method
  {
    match i
    case 0 => Method(IsViewVisible, [ComIn(IApplicationView), MutPtr(Plain(RustU32))])
    case 1 => Method(GetId, [MutPtr(Plain(GUID))])
    case 2 => Method(GetMonitor, [MutPtr(Plain(HMONITOR))])
    case 3 => Method(GetName, [MutPtr(Plain(HSTRING))])
    case _ => Method(GetWallpaper, [MutPtr(Plain(HSTRING))])
  }

  function DesktopMethods(): (ms: seq<Method>)
    ensures |ms| == 5
  {
    seq(5, DesktopAt)
  }

  /** IVirtualDesktopManagerInternal: the 19 methods at build_22000.rs:44-149, in vtable order. */
  function ManagerAt(i: int): Method
  {
    match i
    case 0 => Method(GetDesktopCountM, [Plain(HMONITOR), MutPtr(Plain(UINT))])
    case 1 => Method(MoveViewToDesktop, [ComIn(IApplicationView), ComIn(IVirtualDesktop)])
    case 2 => Method(CanMoveViewBetweenDesktops, [ComIn(IApplicationView), MutPtr(Plain(RustI32))])
    case 3 => Method(GetCurrentDesktopM, [Plain(HMONITOR), MutPtr(OptionOf(IVirtualDesktop))])
    case 4 => Method(GetAllCurrentDesktops, [MutPtr(OptionOf(IObjectArray))])
    case 5 => Method(GetDesktopsM, [Plain(HMONITOR), MutPtr(OptionOf(IObjectArray))])
    case 6 => Method(GetAdjacentDesktop, [ComIn(IVirtualDesktop), Plain(UINT), MutPtr(OptionOf(IVirtualDesktop))])
    case 7 => Method(SwitchDesktopM, [Plain(HMONITOR), ComIn(IVirtualDesktop)])
    case 8 => Method(CreateDesktopM, [Plain(HMONITOR), MutPtr(OptionOf(IVirtualDesktop))])
    case 9 => Method(MoveDesktopM, [ComIn(IVirtualDesktop), Plain(HMONITOR), Plain(UINT)])
    case 10 => Method(RemoveDesktop, [ComIn(IVirtualDesktop), ComIn(IVirtualDesktop)])
    case 11 => Method(FindDesktop, [ConstPtr(Plain(GUID)), MutPtr(OptionOf(IVirtualDesktop))])
    case 12 => Method(GetDesktopSwitchIncludeExcludeViews, [ComIn(IVirtualDesktop), MutPtr(Plain(IObjectArray)), MutPtr(Plain(IObjectArray))])
    case 13 => Method(SetName, [ComIn(IVirtualDesktop), Plain(HSTRING)])
    case 14 => Method(SetWallpaper, [ComIn(IVirtualDesktop), Plain(HSTRING)])
    case 15 => Method(UpdateWallpaperForAll, [Plain(HSTRING)])
    case 16 => Method(CopyDesktopState, [ComIn(IApplicationView), ComIn(IApplicationView)])
    case 17 => Method(GetDesktopIsPerMonitor, [MutPtr(Plain(RustI32))])
    case _ => Method(SetDesktopIsPerMonitor, [Plain(RustI32)])
  }

  function ManagerMethods(): (ms: seq<Method>)
    ensures |ms| == 19
  {
    seq(19, ManagerAt)
  }

  /** IVirtualDesktopNotification: the 12 methods at build_22000.rs:201-273, in vtable order. */
  function NotificationAt(i: int): Method
  {
    match i
    case 0 => Method(VirtualDesktopCreated, [ComIn(IObjectArray), ComIn(IVirtualDesktop)])
    case 1 => Method(VirtualDesktopDestroyBegin, [ComIn(IObjectArray), ComIn(IVirtualDesktop), ComIn(IVirtualDesktop)])
    case 2 => Method(VirtualDesktopDestroyFailed, [ComIn(IObjectArray), ComIn(IVirtualDesktop), ComIn(IVirtualDesktop)])
    case 3 => Method(VirtualDesktopDestroyed, [ComIn(IObjectArray), ComIn(IVirtualDesktop), ComIn(IVirtualDesktop)])
    case 4 => Method(VirtualDesktopIsPerMonitorChanged, [Plain(RustI32)])
    case 5 => Method(VirtualDesktopMoved, [ComIn(IObjectArray), ComIn(IVirtualDesktop), Plain(RustI64), Plain(RustI64)])
    case 6 => Method(VirtualDesktopNameChanged, [ComIn(IVirtualDesktop), Plain(HSTRING)])
    case 7 => Method(ViewVirtualDesktopChanged, [ComIn(IApplicationView)])
    case 8 => Method(CurrentVirtualDesktopChanged, [ComIn(IObjectArray), ComIn(IVirtualDesktop), ComIn(IVirtualDesktop)])
    case 9 => Method(VirtualDesktopWallpaperChanged, [ComIn(IVirtualDesktop), Plain(HSTRING)])
    case 10 => Method(VirtualDesktopSwitched, [ComIn(IVirtualDesktop)])
    case _ => Method(RemoteVirtualDesktopConnected, [ComIn(IVirtualDesktop)])
  }

  function NotificationMethods(): (ms: seq<Method>)
    ensures |ms| == 12
  {
    seq(12, NotificationAt)
  }

  // ---------------------------------------------------------------------------
  // The monitor-0 wrappers (build_22000.rs:151-190)

  /** The monitor-taking method each wrapper calls; `None` for a name that is not a wrapper. */
  function Wrapped(n: MethodName): (r: Option<MethodName>)
  {
    match n
    case GetDesktopCount => Some(GetDesktopCountM)
    case GetCurrentDesktop => Some(GetCurrentDesktopM)
    case GetDesktops => Some(GetDesktopsM)
    case SwitchDesktop => Some(SwitchDesktopM)
    case CreateDesktop => Some(CreateDesktopM)
    case MoveDesktop => Some(MoveDesktopM)
    case _ => None
  }

  /** Where the wrapper puts monitor 0: first, except for `move_desktop`, where it goes second. */
  function MonitorPosition(n: MethodName): (p: nat)
    ensures p <= 1
  {
    if n == MoveDesktop then 1 else 0
  }

  /**
   * A manager call as it reaches the vtable: a wrapper calls its monitor-taking
   * method with monitor 0 inserted and every other argument passed on in order;
   * any other call goes through unchanged.
   */
  function Expand(c: Call): (r: Call)
    requires Wrapped(c.name).Some? ==> MonitorPosition(c.name) <= |c.args|
    ensures Wrapped(c.name).None? ==> r == c
    ensures Wrapped(c.name).Some? ==>
      var p := MonitorPosition(c.name);
      r.name == Wrapped(c.name).value && |r.args| == |c.args| + 1 && r.args[p] == Word(0) &&
      r.args[..p] == c.args[..p] && r.args[p + 1..] == c.args[p..]
  {
    match Wrapped(c.name)
    case None => c
    case Some(m) =>
      var p := MonitorPosition(c.name);
      Call(m, c.args[..p] + [Word(0)] + c.args[p..])
  }

  /** The position of the monitor parameter in a method, if it has one. */
  function MonitorParam(m: Method): (r: Option<nat>)
    ensures r.Some? ==> r.value < |m.params| && m.params[r.value] == Plain(HMONITOR)
    ensures r.None? <==> !TakesMonitor(m)
  {
    if Plain(HMONITOR) !in m.params then None
    else Some(FirstParam(m.params, Plain(HMONITOR)))
  }

  function FirstParam(ps: seq<Ty>, t: Ty): (i: nat)
    requires t in ps
    ensures i < |ps| && ps[i] == t
  {
    if ps[0] == t then 0 else 1 + FirstParam(ps[1..], t)
  }

  /** How many arguments each wrapper itself takes. */
  function WrapperArity(n: MethodName): nat
  {
    if n == MoveDesktop then 2 else 1
  }

  /** The monitor-taking methods the wrappers call. */
  const WRAP_TARGETS: set<MethodName> :=
    {GetDesktopCountM, GetCurrentDesktopM, GetDesktopsM, SwitchDesktopM, CreateDesktopM, MoveDesktopM}

  /**
   * Each wrapper, called with its own arguments, becomes a call that the manager
   * table declares with exactly that many arguments, and monitor 0 lands on the
   * position where that method declares its `HMONITOR` parameter.
   */
  lemma WrappersMatchTable(c: Call)
    requires Wrapped(c.name).Some? && |c.args| == WrapperArity(c.name)
    ensures Declares(Build().manager, Expand(c))
    ensures forall i :: 0 <= i < |ManagerMethods()| && ManagerMethods()[i].name == Expand(c).name ==>
      MonitorParam(ManagerMethods()[i]) == Some(MonitorPosition(c.name))
  {
    var r := Expand(c);
    assert r.name == Wrapped(c.name).value && |r.args| == WrapperArity(c.name) + 1;
    var k := TargetIndex(c.name);
    assert ManagerMethods()[k] == ManagerAt(k);
    OnlyOneOfEach(c.name, k);
  }

  /** Where the method a wrapper calls sits in the manager table. */
  function TargetIndex(n: MethodName): (k: nat)
    requires Wrapped(n).Some?
    ensures k < 19 && ManagerAt(k).name == Wrapped(n).value
    ensures |ManagerAt(k).params| == WrapperArity(n) + 1
  {
    match n
    case GetDesktopCount => 0
    case GetCurrentDesktop => 3
    case GetDesktops => 5
    case SwitchDesktop => 7
    case CreateDesktop => 8
    case MoveDesktop => 9
  }

  lemma OnlyOneOfEach(n: MethodName, k: nat)
    requires Wrapped(n).Some? && k < 19 && ManagerAt(k).name == Wrapped(n).value
    ensures MonitorParam(ManagerAt(k)) == Some(MonitorPosition(n))
    ensures forall i :: 0 <= i < 19 && ManagerAt(i).name == Wrapped(n).value ==> i == k
  {
  }

  /** Exactly the six wrapped methods take a monitor; no other manager method does. */
  lemma MonitorMethods()
    ensures |Build().manager.methods| == 19
    ensures forall i :: 0 <= i < 19 ==> (TakesMonitor(ManagerAt(i)) <==> ManagerAt(i).name in WRAP_TARGETS)
  {
  }

  // ---------------------------------------------------------------------------
  // Facts about the tables

  /**
   * IApplicationView, the collection, the notification service and pinned apps
   * are build 10240's tables; the service keeps build 10240's IID, which the
   * source spells in lower case here.
   */
  lemma ReusedAs10240()
    ensures forall k :: k in {AppView, ViewCollection, NotificationService, PinnedApps} ==>
      SameShape(Build().Of(k), Build10240.Build().Of(k))
    ensures Build().service == Build10240.Build().service
    ensures Build().pinned == Build10240.Build().pinned
  {
  }

  /** IVirtualDesktop: `is_view_visible`, `get_id`, `get_monitor`, `get_name`, `get_wallpaper` at slots 3..7. */
  lemma DesktopSlots()
    ensures Names(Build().desktop.methods) == [IsViewVisible, GetId, GetMonitor, GetName, GetWallpaper]
    ensures Slot(Build().desktop, GetName) == Some(6)
    ensures Slot(Build().desktop, GetWallpaper) == Some(7)
  {
    DesktopNames();
    DesktopNameSlot();
    DesktopWallpaperSlot();
  }

  lemma DesktopNames()
    ensures Names(Build().desktop.methods) == [IsViewVisible, GetId, GetMonitor, GetName, GetWallpaper]
  {
  }

  lemma DesktopNameSlot()
    ensures Slot(Build().desktop, GetName) == Some(6)
  {
    FirstIndex(DesktopMethods(), GetName, 3);
  }

  lemma DesktopWallpaperSlot()
    ensures Slot(Build().desktop, GetWallpaper) == Some(7)
  {
    FirstIndex(DesktopMethods(), GetWallpaper, 4);
  }

  /**
   * The notification interface has 12 callbacks; `virtual_desktop_is_per_monitor_changed`
   * is the fifth (slot 7) and the only one without a COM object argument.
   */
  lemma NotificationShape()
    ensures |Build().notification.methods| == 12
    ensures Slot(Build().notification, VirtualDesktopIsPerMonitorChanged) == Some(7)
    ensures Build().notification.methods[4].params == [Plain(RustI32)]
  {
    var t := Build();
    assert t.notification.methods == NotificationMethods();
    FirstIndex(NotificationMethods(), VirtualDesktopIsPerMonitorChanged, 4);
  }
}
