/**
 * Calling a version-independent interface.
 *
 * An abstract interface value holds one raw COM pointer. Every operation on it
 * first asks which Windows version is running, then treats the pointer as that
 * version's interface. The dispatch layer lists exactly two version modules for
 * every interface, build 10240 and build 22000; any other running version ends
 * in `unreachable!`, except for `IID()`, which gives the zero GUID, and
 * `with_versioned_type`, which gives `None`. On build 10240 a few methods that
 * the old vtables lack answer `E_NOTIMPL` without touching the object; on build
 * 22000 the manager's calls go through the monitor-0 wrappers.
 */
module Dispatch {
  import opened Wrappers
  import opened Machine
  import opened Interfaces
  import Guid
  import Versions
  import Abstract
  import Build10240
  import Build22000
  import Notifications

  /** Build 10240's place in the declared version list. */
  const OLDEST: Versions.Version := 0

  /** Build 22000's place in the declared version list. */
  const FIRST_WIN11: Versions.Version := 5

  /** The versions the dispatch layer lists for every interface. */
  predicate Wired(v: Versions.Version)
  {
    v == OLDEST || v == FIRST_WIN11
  }

  /** The vtable of interface `k` in a listed version. */
  function VtableMethods(k: Kind, v: Versions.Version): (ms: seq<Method>)
    requires Wired(v)
  {
    if v == OLDEST then
      match k
      case AppView => Build10240.AppViewMethods()
      case ViewCollection => Build10240.CollectionMethods()
      case Desktop => Build10240.DesktopMethods()
      case ManagerInternal => Build10240.ManagerMethods()
      case Notification => Build10240.NotificationMethods()
      case NotificationService => Build10240.ServiceMethods()
      case PinnedApps => Build10240.PinnedMethods()
    else
      match k
      case AppView => Build10240.AppViewMethods()
      case ViewCollection => Build10240.CollectionMethods()
      case Desktop => Build22000.DesktopMethods()
      case ManagerInternal => Build22000.ManagerMethods()
      case Notification => Build22000.NotificationMethods()
      case NotificationService => Build10240.ServiceMethods()
      case PinnedApps => Build10240.PinnedMethods()
  }

  /** These are the tables the two version modules declare. */
  lemma VtableMethodsAsDeclared(k: Kind)
    ensures VtableMethods(k, OLDEST) == Build10240.Build().Of(k).methods
    ensures VtableMethods(k, FIRST_WIN11) == Build22000.Build().Of(k).methods
  {
  }

  // ---------------------------------------------------------------------------
  // Calls

  /** The abstract type of `k` declares a method with the call's name and number of arguments. */
  predicate Accepts(k: Kind, c: Call)
  {
    exists i :: 0 <= i < |Abstract.Methods(k)| &&
      Abstract.Methods(k)[i].name == c.name && |Abstract.Methods(k)[i].params| == |c.args|
  }

  /** The methods that answer `E_NOTIMPL` on build 10240 (build_dyn.rs:646-657 and 897-964). */
  predicate Optional(k: Kind, n: MethodName)
  {
    match k
    case Desktop => n == GetName || n == GetWallpaper
    case ManagerInternal =>
      n == MoveDesktop || n == GetDesktopSwitchIncludeExcludeViews || n == SetName ||
      n == SetWallpaper || n == UpdateWallpaperForAll
    case _ => false
  }

  /** Where an abstract call ends up. */
  datatype Outcome =
    | Vtable(version: Versions.Version, call: Call)  // this call on that version's vtable
    | NotImplemented                                   // `E_NOTIMPL`, the object untouched
    | Unreachable                                      // `unreachable!`: the version is not listed

  /**
   * A call of an abstract method while `active` runs. Arguments are passed on as
   * they are: interface pointers are reinterpreted, not converted.
   */
  function Invoke(k: Kind, active: Versions.Version, c: Call): (o: Outcome)
    requires Accepts(k, c)
    ensures o.Unreachable? <==> !Wired(active)
    ensures o.NotImplemented? <==> active == OLDEST && Optional(k, c.name)
    ensures o.Vtable? ==> o.version == active
  {
    if !Wired(active) then Unreachable
    else if active == OLDEST && Optional(k, c.name) then NotImplemented
    else if active == FIRST_WIN11 && k == ManagerInternal then
      assert Build22000.Wrapped(c.name).Some? ==> Build22000.MonitorPosition(c.name) <= |c.args| by {
        ManagerArity(c);
      }
      Vtable(active, Build22000.Expand(c))
    else Vtable(active, c)
  }

  /** Only `move_desktop` puts its monitor second, and it takes two arguments. */
  lemma ManagerArity(c: Call)
    requires Accepts(ManagerInternal, c)
    ensures Build22000.Wrapped(c.name).Some? ==> Build22000.MonitorPosition(c.name) <= |c.args|
  {
    if c.name == MoveDesktop {
      assert forall i :: 0 <= i < 15 && Abstract.ManagerAt(i).name == MoveDesktop ==> i == 8;
      assert Abstract.ManagerMethods()[8] == Abstract.ManagerAt(8);
    }
  }

  // ---------------------------------------------------------------------------
  // Every forwarded call meets a vtable method that takes its arguments

  /**
   * An argument of type `a` can be passed where the vtable expects `b`: the same
   * type, or a `&mut Option<T>` cast to `*mut T`.
   */
  predicate Passes(a: Ty, b: Ty)
  {
    a == b || (a.MutPtr? && a.to.OptionOf? && b == MutPtr(Plain(a.to.of)))
  }

  predicate ParamsPass(ps: seq<Ty>, qs: seq<Ty>)
  {
    |ps| == |qs| && forall t :: 0 <= t < |ps| ==> Passes(ps[t], qs[t])
  }

  /**
   * `m` is the vtable method that the abstract method `a` of `k` reaches in
   * version `v`: the same name and parameters, or, for a wrapped manager method on
   * build 22000, the monitor-taking method with `HMONITOR` inserted where the
   * wrapper puts monitor 0.
   */
  predicate Reaches(k: Kind, v: Versions.Version, a: Method, m: Method)
  {
    if v == FIRST_WIN11 && k == ManagerInternal && Build22000.Wrapped(a.name).Some? then
      var p := Build22000.MonitorPosition(a.name);
      p <= |a.params| && m.name == Build22000.Wrapped(a.name).value &&
      m.params == a.params[..p] + [Plain(HMONITOR)] + a.params[p..]
    else
      m.name == a.name && ParamsPass(a.params, m.params)
  }

  /**
   * Where the abstract method `i` of `k` sits in the vtable of `v`, read off the
   * match arms of build_dyn.rs; `None` where the method answers `E_NOTIMPL`.
   */
  function Place(k: Kind, v: Versions.Version, i: nat): (r: Option<nat>)
    requires Wired(v) && i < |Abstract.Methods(k)|
    ensures r.None? <==> v == OLDEST && Optional(k, Abstract.Methods(k)[i].name)
    ensures r.Some? ==> r.value < |VtableMethods(k, v)|
  {
    match k
    case ViewCollection => Some(if i < 9 then i else 10)
    case Desktop =>
      if v == FIRST_WIN11 then Some(if i < 2 then i else i + 1)
      else if i < 2 then Some(i) else None
    case ManagerInternal =>
      if v == FIRST_WIN11 then Some(if i < 4 then i else i + 1)
      else if i < 8 then Some(i) else if 8 < i < 11 then Some(i - 1) else None
    case _ => Option<nat>.Some(i)
  }

  /** The abstract method `i` of `k` is optional on build 10240 or reaches its place in the vtable of `v`. */
  predicate Resolves(k: Kind, v: Versions.Version, i: nat)
    requires Wired(v) && i < |Abstract.Methods(k)|
  {
    match Place(k, v, i)
    case None => v == OLDEST && Optional(k, Abstract.Methods(k)[i].name)
    case Some(j) => j < |VtableMethods(k, v)| && Reaches(k, v, Abstract.Methods(k)[i], VtableMethods(k, v)[j])
  }

  /**
   * The dispatch layer is well typed: every call of an abstract method either
   * stops at `unreachable!` or `E_NOTIMPL`, or reaches a method of the running
   * version's vtable that declares exactly as many parameters as the call passes.
   */
  lemma InvokeReachesVtable(k: Kind, active: Versions.Version, c: Call)
    requires Accepts(k, c)
    ensures Invoke(k, active, c).Vtable? ==>
      Wired(active) && Declares(Table(Guid.ZERO, VtableMethods(k, active), TraitOnly), Invoke(k, active, c).call)
  {
    if Invoke(k, active, c).Vtable? {
      var i :| 0 <= i < |Abstract.Methods(k)| &&
        Abstract.Methods(k)[i].name == c.name && |Abstract.Methods(k)[i].params| == |c.args|;
      AllResolve(k, active, i);
      ReachesDeclared(k, active, c, i);
    }
  }

  /** A call of the abstract method `i`, once it resolves, meets a vtable method of its arity. */
  lemma ReachesDeclared(k: Kind, active: Versions.Version, c: Call, i: nat)
    requires Accepts(k, c) && Invoke(k, active, c).Vtable?
    requires i < |Abstract.Methods(k)| && Abstract.Methods(k)[i].name == c.name
    requires |Abstract.Methods(k)[i].params| == |c.args|
    requires Wired(active) && Resolves(k, active, i)
    ensures Declares(Table(Guid.ZERO, VtableMethods(k, active), TraitOnly), Invoke(k, active, c).call)
  {
    var a := Abstract.Methods(k)[i];
    var j := Place(k, active, i).value;
    var m := VtableMethods(k, active)[j];
    var r := Invoke(k, active, c).call;
    if active == FIRST_WIN11 && k == ManagerInternal && Build22000.Wrapped(c.name).Some? {
      assert r == Build22000.Expand(c);
      assert |m.params| == |a.params| + 1;
    } else {
      assert r == c;
      assert |m.params| == |a.params|;
    }
    assert m.name == r.name && |m.params| == |r.args|;
    assert Table(Guid.ZERO, VtableMethods(k, active), TraitOnly).methods[j] == m;
  }

  /** Every abstract method of every interface resolves in both listed versions. */
  lemma AllResolve(k: Kind, v: Versions.Version, i: nat)
    requires Wired(v) && i < |Abstract.Methods(k)|
    ensures Resolves(k, v, i)
  {
    match k
    case AppView =>
      AppViewSame();
      assert Abstract.Methods(k)[i] == VtableMethods(k, v)[i];
    case ViewCollection =>
      assert Abstract.Methods(k)[i] == Abstract.CollectionAt(i);
      var j := Place(k, v, i).value;
      assert VtableMethods(k, v)[j] == Build10240.CollectionAt(j);
      CollectionPlaces();
    case Desktop =>
      assert Abstract.Methods(k)[i] == Abstract.DesktopAt(i);
      if v == OLDEST {
        if i < 2 {
          assert VtableMethods(k, v)[i] == Build10240.DesktopAt(i);
          DesktopPlacesOldest();
        }
      } else {
        var j := Place(k, v, i).value;
        assert VtableMethods(k, v)[j] == Build22000.DesktopAt(j);
        DesktopPlacesWin11();
      }
    case ManagerInternal =>
      assert Abstract.Methods(k)[i] == Abstract.ManagerAt(i);
      if v == OLDEST {
        if Place(k, v, i).Some? {
          var j := Place(k, v, i).value;
          assert VtableMethods(k, v)[j] == Build10240.ManagerAt(j);
          ManagerPlacesOldest();
        } else {
          ManagerOptionalOldest();
        }
      } else {
        var j := Place(k, v, i).value;
        assert VtableMethods(k, v)[j] == Build22000.ManagerAt(j);
        ManagerPlacesWin11();
      }
    case Notification =>
    case NotificationService =>
      ServiceSame();
      assert Abstract.Methods(k)[i] == VtableMethods(k, v)[i];
    case PinnedApps =>
      PinnedSame();
      assert Abstract.Methods(k)[i] == VtableMethods(k, v)[i];
  }

  /** The abstract IApplicationView declares build 10240's table, method for method. */
  lemma AppViewSame()
    ensures Abstract.AppViewMethods() == Build10240.AppViewMethods()
  {
    assert forall i :: 0 <= i < 58 ==> Abstract.AppViewAt(i) == Build10240.AppViewAt(i);
  }

  lemma ServiceSame()
    ensures Abstract.ServiceMethods() == Build10240.ServiceMethods()
  {
    assert forall i :: 0 <= i < 2 ==> Abstract.ServiceAt(i) == Build10240.ServiceAt(i);
  }

  lemma PinnedSame()
    ensures Abstract.PinnedMethods() == Build10240.PinnedMethods()
  {
    assert forall i :: 0 <= i < 6 ==> Abstract.PinnedAt(i) == Build10240.PinnedAt(i);
  }

  lemma CollectionPlaces()
    ensures forall i :: 0 <= i < 10 ==>
      Reaches(ViewCollection, OLDEST, Abstract.CollectionAt(i), Build10240.CollectionAt(if i < 9 then i else 10))
  {
  }

  lemma DesktopPlacesOldest()
    ensures forall i :: 0 <= i < 2 ==> Abstract.DesktopAt(i) == Build10240.DesktopAt(i)
  {
  }

  lemma DesktopPlacesWin11()
    ensures forall i :: 0 <= i < 4 ==> Abstract.DesktopAt(i) == Build22000.DesktopAt(if i < 2 then i else i + 1)
  {
  }

  lemma ManagerPlacesOldest()
    ensures forall i :: 0 <= i < 11 && i != 8 ==> Abstract.ManagerAt(i) == Build10240.ManagerAt(if i < 8 then i else i - 1)
  {
  }

  lemma ManagerOptionalOldest()
    ensures forall i :: 8 == i || 11 <= i < 15 ==> Optional(ManagerInternal, Abstract.ManagerAt(i).name)
  {
  }

  lemma ManagerPlacesWin11()
    ensures forall i :: 0 <= i < 15 ==>
      Reaches(ManagerInternal, FIRST_WIN11, Abstract.ManagerAt(i), Build22000.ManagerAt(if i < 4 then i else i + 1))
  {
    ManagerUnwrappedWin11();
    ManagerWrappedWin11();
  }

  lemma ManagerUnwrappedWin11()
    ensures forall i :: 0 <= i < 15 && Build22000.Wrapped(Abstract.ManagerAt(i).name).None? ==>
      Abstract.ManagerAt(i) == Build22000.ManagerAt(if i < 4 then i else i + 1)
  {
  }

  lemma ManagerWrappedWin11()
    ensures forall i :: 0 <= i < 15 && Build22000.Wrapped(Abstract.ManagerAt(i).name).Some? ==>
      var a := Abstract.ManagerAt(i);
      var p := Build22000.MonitorPosition(a.name);
      p <= |a.params| && Build22000.ManagerAt(if i < 4 then i else i + 1) ==
        Method(Build22000.Wrapped(a.name).value, a.params[..p] + [Plain(HMONITOR)] + a.params[p..])
  {
  }
  // ---------------------------------------------------------------------------
  // The build 10240 stubs

  /** No method of build 10240's vtables is one of the stubbed ones. */
  lemma NoStubOnOldest(k: Kind)
    ensures forall j :: 0 <= j < |VtableMethods(k, OLDEST)| ==> !Optional(k, VtableMethods(k, OLDEST)[j].name)
  {
    match k
    case Desktop =>
      assert forall j :: 0 <= j < 2 ==> !Optional(k, Build10240.DesktopAt(j).name);
    case ManagerInternal =>
      assert forall j :: 0 <= j < 10 ==> !Optional(k, Build10240.ManagerAt(j).name);
    case _ =>
  }

  /**
   * On build 10240 an abstract method answers `E_NOTIMPL` exactly when the old
   * vtable has no method of that name.
   */
  lemma NotImplementedIffMissing(k: Kind, i: nat)
    requires i < |Abstract.Methods(k)|
    ensures Optional(k, Abstract.Methods(k)[i].name) <==>
      forall j :: 0 <= j < |VtableMethods(k, OLDEST)| ==> VtableMethods(k, OLDEST)[j].name != Abstract.Methods(k)[i].name
  {
    AllResolve(k, OLDEST, i);
    NoStubOnOldest(k);
  }

  // ---------------------------------------------------------------------------
  // IIDs

  /** The interfaces whose IID the crate knows. */
  datatype Interface =
    | Versioned(kind: Kind)  // one of the seven interfaces that change between versions
    | ServiceProvider        // IServiceProvider (interfaces_multi.rs:275)
    | DesktopManager         // the documented IVirtualDesktopManager (interfaces_multi.rs:292)

  const SERVICE_PROVIDER_IID: Guid.Guid := 0x6D5140C1_7436_11CE_8034_00AA006009FA
  const DESKTOP_MANAGER_IID: Guid.Guid := 0xA5CD92FF_29BE_454C_8D04_D82879FB3F1B

  /** The IID a listed version's module declares for interface `k`. */
  function VersionIid(k: Kind, v: Versions.Version): Guid.Guid
    requires Wired(v)
  {
    if v == OLDEST then
      match k
      case AppView => Build10240.APP_VIEW_IID
      case ViewCollection => Build10240.COLLECTION_IID
      case Desktop => Build10240.DESKTOP_IID
      case ManagerInternal => Build10240.MANAGER_IID
      case Notification => Build10240.NOTIFICATION_IID
      case NotificationService => Build10240.SERVICE_IID
      case PinnedApps => Build10240.PINNED_IID
    else
      match k
      case AppView => Build22000.APP_VIEW_IID
      case ViewCollection => Build22000.COLLECTION_IID
      case Desktop => Build22000.DESKTOP_IID
      case ManagerInternal => Build22000.MANAGER_IID
      case Notification => Build22000.NOTIFICATION_IID
      case NotificationService => Build22000.SERVICE_IID
      case PinnedApps => Build22000.PINNED_IID
  }

  /** These are the IIDs the two version modules declare. */
  lemma VersionIidAsDeclared(k: Kind)
    ensures VersionIid(k, OLDEST) == Build10240.Build().Of(k).iid
    ensures VersionIid(k, FIRST_WIN11) == Build22000.Build().Of(k).iid
  {
  }

  /**
   * `IID()` of an interface while `active` runs: the fixed IID of a stable
   * interface, the listed version's IID of a versioned one, and the zero GUID
   * when the running version is not listed.
   */
  function Iid(i: Interface, active: Versions.Version): (g: Guid.Guid)
    ensures g == Guid.ZERO <==> i.Versioned? && !Wired(active)
    ensures i.Versioned? && Wired(active) ==> g == Build10240.Build().Of(i.kind).iid || g == Build22000.Build().Of(i.kind).iid
  {
    match i
    case ServiceProvider => SERVICE_PROVIDER_IID
    case DesktopManager => DESKTOP_MANAGER_IID
    case Versioned(k) =>
      if Wired(active) then (VersionIidAsDeclared(k); VersionIid(k, active)) else Guid.ZERO
  }

  /**
   * IServiceProvider and IVirtualDesktopManager have one IID each, whatever
   * version runs, and neither is the IID of a versioned interface.
   */
  lemma StableIidsFixed(v: Versions.Version, w: Versions.Version, k: Kind)
    ensures Iid(ServiceProvider, v) == Iid(ServiceProvider, w) != Guid.ZERO
    ensures Iid(DesktopManager, v) == Iid(DesktopManager, w) != Guid.ZERO
    ensures Iid(Versioned(k), v) != Iid(ServiceProvider, w) && Iid(Versioned(k), v) != Iid(DesktopManager, w)
  {
  }

  /**
   * Between build 10240 and build 22000 every versioned IID changes except those
   * of the notification service and the pinned apps.
   */
  lemma IidChangesForWin11(k: Kind)
    ensures Iid(Versioned(k), OLDEST) == Iid(Versioned(k), FIRST_WIN11) <==>
      k == NotificationService || k == PinnedApps
  {
  }

  /** `with_versioned_type`: the version whose module the callback is given, if listed. */
  function WithVersionedType(active: Versions.Version): (r: Option<Versions.Version>)
    ensures r.Some? <==> Wired(active)
    ensures r.Some? ==> r.value == active
  {
    if Wired(active) then Some(active) else None
  }

  // ---------------------------------------------------------------------------
  // Conversions between abstract and versioned pointers

  /** Why a conversion aborts the process. */
  datatype Abort =
    | VersionMismatch  // `assert_eq!` (or, in a debug build, `debug_assert_eq!`) on the version fails
    | WrongVersion     // `unreachable!` in `from_raw` or in the `ComIn` conversion

  /**
   * Versioned to abstract (`From<Versioned>`, `From<&Versioned>`): the pointer is
   * kept; a debug build first checks that `from` is the running version.
   */
  function ToAbstract(from: Versions.Version, active: Versions.Version, debug: bool, p: RawPtr): (r: Result<RawPtr, Abort>)
    requires Wired(from)
    ensures r.Ok? <==> !debug || from == active
    ensures r.Ok? ==> r.value == p
  {
    if debug && from != active then Err(VersionMismatch) else Ok(p)
  }

  /** Abstract to versioned (`From<Abstract>`): checked in every build, then the pointer is reinterpreted. */
  function ToVersioned(target: Versions.Version, active: Versions.Version, p: RawPtr): (r: Result<RawPtr, Abort>)
    requires Wired(target)
    ensures r.Ok? <==> target == active
    ensures r.Ok? ==> r.value == p
  {
    if target != active then Err(VersionMismatch) else Ok(p)
  }

  /**
   * `ComIn<Abstract>` to `ComIn<Versioned>`: goes through `from_raw`, which stops
   * on an unlisted running version, and then stops again unless the running
   * version is the requested one.
   */
  function BorrowVersioned(target: Versions.Version, active: Versions.Version, p: RawPtr): (r: Result<RawPtr, Abort>)
    requires Wired(target)
    ensures r.Ok? <==> target == active
    ensures r.Ok? ==> r.value == p
  {
    if !Wired(active) then Err(WrongVersion)
    else if active != target then Err(WrongVersion)
    else Ok(p)
  }

  /** Going to the abstract type and back to the running version's type returns the same pointer. */
  lemma AbstractRoundTrip(active: Versions.Version, debug: bool, p: RawPtr)
    requires Wired(active)
    ensures ToAbstract(active, active, debug, p).Ok?
    ensures ToVersioned(active, active, ToAbstract(active, active, debug, p).value) == Ok(p)
    ensures BorrowVersioned(active, active, ToAbstract(active, active, debug, p).value) == Ok(p)
  {
  }

  /** Going to a versioned type and back to the abstract one returns the same pointer. */
  lemma VersionedRoundTrip(target: Versions.Version, active: Versions.Version, debug: bool, p: RawPtr)
    requires Wired(target) && ToVersioned(target, active, p).Ok?
    ensures ToAbstract(target, active, debug, ToVersioned(target, active, p).value) == Ok(p)
  {
  }

  /** The two fallible conversions agree on which versions they accept. */
  lemma BorrowAgreesWithOwned(target: Versions.Version, active: Versions.Version, p: RawPtr)
    requires Wired(target)
    ensures BorrowVersioned(target, active, p).Ok? <==> ToVersioned(target, active, p).Ok?
  {
  }

  /**
   * `IObjectArrayGetAt`: on an unlisted version `E_NOTIMPL` without touching the
   * array; otherwise the array's own `GetAt` for the running version's IID (a
   * foreign call whose answer is `fetched`), its pointer adopted as the abstract
   * type.
   */
  function GetAt(active: Versions.Version, debug: bool, fetched: Result<RawPtr, HResult>): (r: Result<RawPtr, HResult>)
    ensures !Wired(active) ==> r == Err(E_NOTIMPL)
    ensures Wired(active) && fetched.Err? ==> r == fetched
    ensures Wired(active) && fetched.Ok? ==> r == Ok(fetched.value)
    ensures r.Ok? ==> fetched.Ok? && r.value == fetched.value
  {
    match WithVersionedType(active)
    case None => Err(E_NOTIMPL)
    case Some(v) =>
      match fetched
      case Err(hr) => Err(hr)
      case Ok(p) => Ok(ToAbstract(v, active, debug, p).value)
  }

  /**
   * What `IObjectArrayGetAt` hands out converts back to the running version's
   * type as the very object the array gave, and it succeeds exactly when the
   * version is listed and the array's `GetAt` succeeds.
   */
  lemma GetAtAgreesWithConversion(active: Versions.Version, debug: bool, fetched: Result<RawPtr, HResult>)
    ensures GetAt(active, debug, fetched).Ok? <==> Wired(active) && fetched.Ok?
    ensures GetAt(active, debug, fetched).Ok? ==>
      ToVersioned(active, active, GetAt(active, debug, fetched).value) == Ok(fetched.value)
  {
  }
  // ---------------------------------------------------------------------------
  // Notification objects

  /**
   * `From<T: IVirtualDesktopNotification_Impl>`: the adaptor that wraps the
   * stable callbacks for the running version. The match lists only the two
   * versions; other versions are treated as unreachable (`None`).
   */
  function NotificationAdaptor(active: Versions.Version): (r: Option<Adaptor>)
    ensures r.Some? <==> Wired(active)
    ensures r.Some? ==> Notifications.Implemented(r.value).iid == Iid(Versioned(Notification), active)
    ensures r.Some? ==> Notifications.Implemented(r.value).methods == VtableMethods(Notification, active)
  {
    if active == OLDEST then Some(SixCallbacks)
    else if active == FIRST_WIN11 then Some(PerMonitorCallbacks)
    else None
  }
}
