/**
 * The private virtual-desktop COM interfaces, as data.
 *
 * Every Windows version module declares seven interfaces. A declaration is an
 * interface id (IID) and an ordered list of methods; the position of a method in
 * the list fixes its vtable slot, after the three methods every COM interface
 * inherits from IUnknown. A version module either declares an interface afresh
 * or re-emits an earlier module's declaration, unchanged, under a new IID.
 */
module Interfaces {
  import opened Wrappers
  import Guid

  // ---------------------------------------------------------------------------
  // Signatures

  /** The Win32 and Rust types that occur in the method signatures. */
  datatype TypeName =
    | ULONG | GUID | HSTRING | LPVOID | IAsyncCallback | HWND | IImmersiveMonitor
    | APPLICATION_VIEW_CLOAK_TYPE | INT | IApplicationViewPosition | RECT | PWSTR
    | PCWSTR | UINT | ULONGLONG | BOOL | APPLICATION_VIEW_COMPATIBILITY_POLICY
    | IShellPositionerPriority | SIZE | IApplicationViewOperation | IApplicationView
    | IObjectArray | IImmersiveApplication | IApplicationViewChangeListener | DWORD
    | IVirtualDesktop | HMONITOR
    | RustU32 | RustI32 | RustI64 | RustBool | CVoid

  /**
   * A parameter type: a named type, a raw pointer to a type, an `Option` of an
   * interface (only ever behind a pointer), or an interface borrowed for the
   * duration of the call (`ComIn<T>`).
   */
  datatype Ty =
    | Plain(name: TypeName)
    | MutPtr(to: Ty)
    | ConstPtr(to: Ty)
    | OptionOf(of: TypeName)
    | ComIn(borrowed: TypeName)

  /** The names of the methods, over all interfaces and all versions. */
  datatype MethodName =
    // IApplicationView
    | GetIids | GetRuntimeClassName | GetTrustLevel | SetFocus | SwitchTo
    | TryInvokeBack | GetThumbnailWindow | GetMonitor | GetVisibility | SetCloak
    | GetPosition | SetPosition | InsertAfterWindow | GetExtendedFramePosition
    | GetAppUserModelId | SetAppUserModelId | IsEqualByAppUserModelId | GetViewState
    | SetViewState | GetNeediness | GetLastActivationTimestamp
    | SetLastActivationTimestamp | GetVirtualDesktopId | SetVirtualDesktopId
    | GetShowInSwitchers | SetShowInSwitchers | GetScaleFactor | CanReceiveInput
    | GetCompatibilityPolicyType | SetCompatibilityPolicyType | GetPositionPriority
    | SetPositionPriority | GetSizeConstraints | GetSizeConstraintsForDpi
    | SetSizeConstraintsForDpi | QuerySizeConstraintsFromApp
    | OnMinSizePreferencesUpdated | ApplyOperation | IsTray | IsInHighZorderBand
    | IsSplashScreenPresented | Flash | GetRootSwitchableOwner
    | EnumerateOwnershipTree | GetEnterpriseId | IsMirrored
    | Unknown1 | Unknown2 | Unknown3 | Unknown4 | Unknown5 | Unknown6 | Unknown7
    | Unknown8 | Unknown9 | Unknown10 | Unknown11 | Unknown12
    // IApplicationViewCollection
    | GetViews | GetViewsByZorder | GetViewsByAppUserModelId | GetViewForHwnd
    | GetViewForApplication | GetViewForAppUserModelId | GetViewInFocus
    | TryGetLastActiveVisibleView | RefreshCollection
    | RegisterForApplicationViewChanges | RegisterForApplicationViewPositionChanges
    | UnregisterForApplicationViewChanges
    // IVirtualDesktop
    | IsViewVisible | GetId | GetName | GetWallpaper | IsRemote
    // IVirtualDesktopManagerInternal
    | GetDesktopCount | GetDesktopCountM | MoveViewToDesktop
    | CanMoveViewBetweenDesktops | GetCurrentDesktop | GetCurrentDesktopM
    | GetAllCurrentDesktops | GetDesktops | GetDesktopsM | GetAdjacentDesktop
    | SwitchDesktop | SwitchDesktopM | SwitchDesktopAndMoveForegroundView
    | CreateDesktop | CreateDesktopM | MoveDesktop | MoveDesktopM | RemoveDesktop
    | FindDesktop | GetDesktopSwitchIncludeExcludeViews | SetName | SetWallpaper
    | UpdateWallpaperForAll | CopyDesktopState | GetDesktopIsPerMonitor
    | SetDesktopIsPerMonitor | CreateRemoteDesktop | SwitchRemoteDesktop
    | SwitchDesktopWithAnimation | GetLastActiveDesktop | WaitForAnimationToComplete
    // IVirtualDesktopNotification
    | VirtualDesktopCreated | VirtualDesktopDestroyBegin | VirtualDesktopDestroyFailed
    | VirtualDesktopDestroyed | VirtualDesktopIsPerMonitorChanged
    | VirtualDesktopMoved | VirtualDesktopNameChanged | ViewVirtualDesktopChanged
    | CurrentVirtualDesktopChanged | VirtualDesktopWallpaperChanged
    | VirtualDesktopSwitched | RemoteVirtualDesktopConnected
    // IVirtualDesktopNotificationService
    | Register | Unregister
    // IVirtualDesktopPinnedApps
    | IsAppPinned | PinApp | UnpinApp | IsViewPinned | PinView | UnpinView
    // IServiceProvider and IVirtualDesktopManager
    | QueryService | IsWindowOnCurrentDesktop | GetDesktopByWindow
    | MoveWindowToDesktop

  /** A method: its name and its parameter types, without the receiver. Every method returns an HRESULT. */
  datatype Method = Method(name: MethodName, params: seq<Ty>)

  /** The notification adaptors a declaration can carry along with its trait. */
  datatype Adaptor =
    | SixCallbacks         // the Windows 10 callbacks, without monitors
    | PerMonitorCallbacks  // the first Windows 11 callbacks, most with a monitor array
    | IdentityCallbacks    // the same callbacks as the version-independent trait

  /** What a declaration emits besides the interface trait itself. */
  datatype Items = TraitOnly | WithAdaptor(adaptor: Adaptor) | WithMonitorZeroWrappers

  /** One declaration of an interface: its IID, its methods in vtable order, and its extra items. */
  datatype Table = Table(iid: Guid.Guid, methods: seq<Method>, items: Items)

  /** Every COM vtable starts with `QueryInterface`, `AddRef` and `Release`. */
  const IUNKNOWN_SLOTS := 3

  /**
   * An argument as the model sees it: a COM object (its raw pointer), a plain
   * integer, an out-pointer (its address) or a string.
   */
  datatype Arg = Obj(ptr: nat) | Word(value: int) | Out(addr: nat) | Text(text: string)

  /** A call of a method with its arguments, receiver left out. */
  datatype Call = Call(name: MethodName, args: seq<Arg>)

  /** `t` declares a method with the call's name that takes as many arguments as the call passes. */
  predicate Declares(t: Table, c: Call)
  {
    exists i :: 0 <= i < |t.methods| && t.methods[i].name == c.name && |t.methods[i].params| == |c.args|
  }

  // ---------------------------------------------------------------------------
  // Redeclaration

  /**
   * Invoking the macro a declaration exports, with a new IID: the same block is
   * emitted again, trait and extra items alike, and only the IID differs.
   */
  function Redeclare(t: Table, iid: Guid.Guid): (r: Table)
    ensures r.iid == iid
    ensures r.methods == t.methods && r.items == t.items
  {
    t.(iid := iid)
  }

  /** Redeclaring a redeclaration is the same as redeclaring the original. */
  lemma RedeclareTwice(t: Table, a: Guid.Guid, b: Guid.Guid)
    ensures Redeclare(Redeclare(t, a), b) == Redeclare(t, b)
  {
  }

  /** Redeclaring under the IID a declaration already has changes nothing. */
  lemma RedeclareSameIid(t: Table)
    ensures Redeclare(t, t.iid) == t
  {
  }

  // ---------------------------------------------------------------------------
  // Looking methods up

  /** `n` is declared somewhere in `t`. */
  predicate HasMethod(t: Table, n: MethodName)
  {
    exists i :: 0 <= i < |t.methods| && t.methods[i].name == n
  }

  /** The position of the first method called `n`, if any. */
  function IndexOf(ms: seq<Method>, n: MethodName): (r: Option<nat>)
    ensures r.Some? ==> r.value < |ms| && ms[r.value].name == n
    ensures r.Some? ==> forall j :: 0 <= j < r.value ==> ms[j].name != n
    ensures r.None? <==> forall j :: 0 <= j < |ms| ==> ms[j].name != n
  {
    if |ms| == 0 then None
    else if ms[0].name == n then Some(0)
    else
      match IndexOf(ms[1..], n)
      case None => None
      case Some(k) => Some(k + 1)
  }

  /** The first occurrence is the only index with a matching name and no earlier match. */
  lemma {:induction false} FirstIndex(ms: seq<Method>, n: MethodName, i: nat)
    requires i < |ms| && ms[i].name == n
    requires forall j :: 0 <= j < i ==> ms[j].name != n
    ensures IndexOf(ms, n) == Some(i)
  {
  }

  /** The vtable slot of method `n` in `t`: its position after IUnknown's three slots. */
  function Slot(t: Table, n: MethodName): (r: Option<nat>)
    ensures r.Some? ==> IUNKNOWN_SLOTS <= r.value < |t.methods| + IUNKNOWN_SLOTS
    ensures r.Some? ==> t.methods[r.value - IUNKNOWN_SLOTS].name == n
    ensures r.None? <==> !HasMethod(t, n)
  {
    match IndexOf(t.methods, n)
    case None => None
    case Some(i) => Some(i + IUNKNOWN_SLOTS)
  }

  /** A method sits at the slot of its first occurrence. */
  lemma SlotAt(t: Table, n: MethodName, i: nat)
    requires i < |t.methods| && t.methods[i].name == n
    requires forall j :: 0 <= j < i ==> t.methods[j].name != n
    ensures Slot(t, n) == Some(i + IUNKNOWN_SLOTS)
  {
    FirstIndex(t.methods, n, i);
  }

  /** The opaque `unknown1` ... `unknown12` methods, by number; only their positions are known. */
  function Opaque(k: nat): (n: MethodName)
    requires 1 <= k <= 12
  {
    match k
    case 1 => Unknown1
    case 2 => Unknown2
    case 3 => Unknown3
    case 4 => Unknown4
    case 5 => Unknown5
    case 6 => Unknown6
    case 7 => Unknown7
    case 8 => Unknown8
    case 9 => Unknown9
    case 10 => Unknown10
    case 11 => Unknown11
    case _ => Unknown12
  }

  /** The method takes a monitor handle (`HMONITOR`) argument. */
  predicate TakesMonitor(m: Method)
  {
    Plain(HMONITOR) in m.params
  }

  /** Some method of `t` takes a monitor handle. */
  predicate AnyTakesMonitor(t: Table)
  {
    exists i :: 0 <= i < |t.methods| && TakesMonitor(t.methods[i])
  }

  /** The method names of a table, in order. */
  function Names(ms: seq<Method>): (r: seq<MethodName>)
    ensures |r| == |ms|
    ensures forall i :: 0 <= i < |ms| ==> r[i] == ms[i].name
  {
    seq(|ms|, i requires 0 <= i < |ms| => ms[i].name)
  }

  // ---------------------------------------------------------------------------
  // Editing a method list, and what it does to the slots

  /** `ms` with `m` inserted so that it ends up at position `k`. */
  function InsertAt(ms: seq<Method>, k: nat, m: Method): (r: seq<Method>)
    requires k <= |ms|
    ensures |r| == |ms| + 1 && r[k] == m
    ensures forall i :: 0 <= i < k ==> r[i] == ms[i]
    ensures forall i :: k < i < |r| ==> r[i] == ms[i - 1]
  {
    ms[..k] + [m] + ms[k..]
  }

  /** `ms` without the method at position `k`. */
  function RemoveAt(ms: seq<Method>, k: nat): (r: seq<Method>)
    requires k < |ms|
    ensures |r| == |ms| - 1
    ensures forall i :: 0 <= i < k ==> r[i] == ms[i]
    ensures forall i :: k <= i < |r| ==> r[i] == ms[i + 1]
  {
    ms[..k] + ms[k + 1..]
  }

  /**
   * Inserting a method at position `k` leaves the slot of every other method
   * before `k` alone and moves every one from `k` on one slot later.
   */
  lemma {:induction false} SlotAfterInsert(ms: seq<Method>, k: nat, m: Method, n: MethodName)
    requires k <= |ms| && n != m.name
    ensures IndexOf(ms, n).None? ==> IndexOf(InsertAt(ms, k, m), n).None?
    ensures IndexOf(ms, n).Some? && IndexOf(ms, n).value < k ==>
      IndexOf(InsertAt(ms, k, m), n) == IndexOf(ms, n)
    ensures IndexOf(ms, n).Some? && IndexOf(ms, n).value >= k ==>
      IndexOf(InsertAt(ms, k, m), n) == Some(IndexOf(ms, n).value + 1)
  {
    var before := IndexOf(ms, n);
    if before.None? {
      InsertKeepsAbsent(ms, k, m, n);
      assert IndexOf(InsertAt(ms, k, m), n).None?;
    } else if before.value < k {
      InsertLaterKeepsIndex(ms, k, m, n);
    } else {
      InsertEarlierShiftsIndex(ms, k, m, n);
    }
  }

  /** Inserting a method, named otherwise, at or before a name's first occurrence moves it one later. */
  lemma {:induction false} InsertEarlierShiftsIndex(ms: seq<Method>, k: nat, m: Method, n: MethodName)
    requires k <= |ms| && n != m.name && IndexOf(ms, n).Some? && IndexOf(ms, n).value >= k
    ensures IndexOf(InsertAt(ms, k, m), n) == Some(IndexOf(ms, n).value + 1)
  {
    var i := IndexOf(ms, n).value;
    InsertKeepsFirst(ms, k, m, n, i, i + 1);
    FirstIndex(InsertAt(ms, k, m), n, i + 1);
  }

  lemma {:induction false} InsertKeepsAbsent(ms: seq<Method>, k: nat, m: Method, n: MethodName)
    requires k <= |ms| && n != m.name
    requires forall j :: 0 <= j < |ms| ==> ms[j].name != n
    ensures forall j :: 0 <= j < |ms| + 1 ==> InsertAt(ms, k, m)[j].name != n
  {
    var r := InsertAt(ms, k, m);
    forall j | 0 <= j < |r| ensures r[j].name != n {
      if j > k { assert r[j] == ms[j - 1]; }
    }
  }

  lemma {:induction false} InsertKeepsFirst(ms: seq<Method>, k: nat, m: Method, n: MethodName, i: nat, i': nat)
    requires k <= |ms| && n != m.name && i < |ms| && ms[i].name == n
    requires forall j :: 0 <= j < i ==> ms[j].name != n
    requires i' == if i < k then i else i + 1
    ensures i' < |ms| + 1 && InsertAt(ms, k, m)[i'].name == n
    ensures forall j :: 0 <= j < i' ==> InsertAt(ms, k, m)[j].name != n
  {
    var r := InsertAt(ms, k, m);
    forall j | 0 <= j < i' ensures r[j].name != n {
      if j > k { assert r[j] == ms[j - 1]; }
    }
  }

  /**
   * Removing the method at position `k` leaves the slot of every other method
   * before `k` alone and moves every one after `k` one slot earlier.
   */
  lemma {:induction false} SlotAfterRemove(ms: seq<Method>, k: nat, n: MethodName)
    requires k < |ms| && n != ms[k].name
    ensures IndexOf(ms, n).None? ==> IndexOf(RemoveAt(ms, k), n).None?
    ensures IndexOf(ms, n).Some? && IndexOf(ms, n).value < k ==>
      IndexOf(RemoveAt(ms, k), n) == IndexOf(ms, n)
    ensures IndexOf(ms, n).Some? && IndexOf(ms, n).value > k ==>
      IndexOf(RemoveAt(ms, k), n) == Some(IndexOf(ms, n).value - 1)
  {
    var before := IndexOf(ms, n);
    if before.None? {
      RemoveKeepsAbsent(ms, k, n);
      assert IndexOf(RemoveAt(ms, k), n).None?;
    } else if before.value < k {
      RemoveLaterKeepsIndex(ms, k, n);
    } else {
      RemoveEarlierShiftsIndex(ms, k, n);
    }
  }

  lemma {:induction false} RemoveKeepsAbsent(ms: seq<Method>, k: nat, n: MethodName)
    requires k < |ms|
    requires forall j :: 0 <= j < |ms| ==> ms[j].name != n
    ensures forall j :: 0 <= j < |ms| - 1 ==> RemoveAt(ms, k)[j].name != n
  {
    var r := RemoveAt(ms, k);
    forall j | 0 <= j < |r| ensures r[j].name != n {
      if j >= k { assert r[j] == ms[j + 1]; }
    }
  }

  lemma {:induction false} RemoveKeepsFirst(ms: seq<Method>, k: nat, n: MethodName, i: nat, i': nat)
    requires k < |ms| && n != ms[k].name && i < |ms| && ms[i].name == n
    requires forall j :: 0 <= j < i ==> ms[j].name != n
    requires i' == if i < k then i else i - 1
    ensures i' < |ms| - 1 && RemoveAt(ms, k)[i'].name == n
    ensures forall j :: 0 <= j < i' ==> RemoveAt(ms, k)[j].name != n
  {
    var r := RemoveAt(ms, k);
    assert i != k;
    forall j | 0 <= j < i' ensures r[j].name != n {
      if j >= k { assert r[j] == ms[j + 1]; }
    }
  }

  /** Removing a method after a name's first occurrence leaves that name's position alone. */
  lemma {:induction false} RemoveLaterKeepsIndex(ms: seq<Method>, k: nat, n: MethodName)
    requires k < |ms| && IndexOf(ms, n).Some? && IndexOf(ms, n).value < k
    ensures IndexOf(RemoveAt(ms, k), n) == IndexOf(ms, n)
  {
    var i := IndexOf(ms, n).value;
    FirstIndex(RemoveAt(ms, k), n, i);
  }

  /** Removing a method before a name's first occurrence moves that name one position earlier. */
  lemma {:induction false} RemoveEarlierShiftsIndex(ms: seq<Method>, k: nat, n: MethodName)
    requires k < |ms| && IndexOf(ms, n).Some? && IndexOf(ms, n).value > k
    ensures IndexOf(RemoveAt(ms, k), n) == Some(IndexOf(ms, n).value - 1)
  {
    var i := IndexOf(ms, n).value;
    RemoveKeepsFirst(ms, k, n, i, i - 1);
    FirstIndex(RemoveAt(ms, k), n, i - 1);
  }

  /** Inserting a method after a name's first occurrence leaves that name's position alone. */
  lemma {:induction false} InsertLaterKeepsIndex(ms: seq<Method>, k: nat, m: Method, n: MethodName)
    requires k <= |ms| && IndexOf(ms, n).Some? && IndexOf(ms, n).value < k
    ensures IndexOf(InsertAt(ms, k, m), n) == IndexOf(ms, n)
  {
    var i := IndexOf(ms, n).value;
    FirstIndex(InsertAt(ms, k, m), n, i);
  }

  // ---------------------------------------------------------------------------
  // The seven interfaces of one version module

  /** The interfaces every version module provides. */
  datatype Kind =
    | AppView            // IApplicationView
    | ViewCollection     // IApplicationViewCollection
    | Desktop            // IVirtualDesktop
    | ManagerInternal    // IVirtualDesktopManagerInternal
    | Notification       // IVirtualDesktopNotification
    | NotificationService // IVirtualDesktopNotificationService
    | PinnedApps         // IVirtualDesktopPinnedApps

  /** The seven declarations of one version module. */
  datatype Tables = Tables(
    appView: Table,
    collection: Table,
    desktop: Table,
    manager: Table,
    notification: Table,
    service: Table,
    pinned: Table)
  {
    function Of(k: Kind): (t: Table)
    {
      match k
      case AppView => appView
      case ViewCollection => collection
      case Desktop => desktop
      case ManagerInternal => manager
      case Notification => notification
      case NotificationService => service
      case PinnedApps => pinned
    }
  }

  /** Two declarations agree in everything but, possibly, their IIDs. */
  predicate SameShape(a: Table, b: Table)
  {
    a.methods == b.methods && a.items == b.items
  }

  /** A redeclaration has the shape of what it redeclares, and its shape alone does not fix its IID. */
  lemma RedeclareSameShape(t: Table, iid: Guid.Guid)
    ensures SameShape(Redeclare(t, iid), t)
    ensures Redeclare(t, iid) == t <==> iid == t.iid
  {
  }
}
