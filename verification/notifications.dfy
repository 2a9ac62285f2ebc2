/**
 * Desktop-change notifications: the version-independent callback trait and the
 * three adaptors that let one implementation of it stand behind every
 * version-specific `IVirtualDesktopNotification` vtable.
 *
 * An adaptor receives a call on a version's vtable and either forwards it to the
 * callback of the same name in the stable trait, or answers it itself. Windows 10
 * raises six callbacks; the first Windows 11 build adds a monitor array in front
 * of most desktop arguments, which the adaptor drops; later builds match the
 * stable trait one to one.
 */
module Notifications {
  import opened Wrappers
  import opened Interfaces
  import Machine
  import Build10240
  import Build22000
  import Build22621_2215

  // ---------------------------------------------------------------------------
  // The stable trait (build_dyn.rs:766-817)

  /** The eleven callbacks of the version-independent trait, in declaration order. */
  function StableAt(i: int): Method
  {
    match i
    case 0 => Method(VirtualDesktopCreated, [ComIn(IVirtualDesktop)])
    case 1 => Method(VirtualDesktopDestroyBegin, [ComIn(IVirtualDesktop), ComIn(IVirtualDesktop)])
    case 2 => Method(VirtualDesktopDestroyFailed, [ComIn(IVirtualDesktop), ComIn(IVirtualDesktop)])
    case 3 => Method(VirtualDesktopDestroyed, [ComIn(IVirtualDesktop), ComIn(IVirtualDesktop)])
    case 4 => Method(VirtualDesktopMoved, [ComIn(IVirtualDesktop), Plain(RustI64), Plain(RustI64)])
    case 5 => Method(VirtualDesktopNameChanged, [ComIn(IVirtualDesktop), Plain(HSTRING)])
    case 6 => Method(ViewVirtualDesktopChanged, [ComIn(IApplicationView)])
    case 7 => Method(CurrentVirtualDesktopChanged, [ComIn(IVirtualDesktop), ComIn(IVirtualDesktop)])
    case 8 => Method(VirtualDesktopWallpaperChanged, [ComIn(IVirtualDesktop), Plain(HSTRING)])
    case 9 => Method(VirtualDesktopSwitched, [ComIn(IVirtualDesktop)])
    case _ => Method(RemoteVirtualDesktopConnected, [ComIn(IVirtualDesktop)])
  }

  function StableMethods(): (ms: seq<Method>)
    ensures |ms| == 11
  {
    seq(11, StableAt)
  }

  // ---------------------------------------------------------------------------
  // The adaptors

  /** The version-specific notification declaration each adaptor implements. */
  function Implemented(a: Adaptor): (t: Table)
  {
    match a
    case SixCallbacks =>
      Table(Build10240.NOTIFICATION_IID, Build10240.NotificationMethods(), WithAdaptor(a))
    case PerMonitorCallbacks =>
      Table(Build22000.NOTIFICATION_IID, Build22000.NotificationMethods(), WithAdaptor(a))
    case IdentityCallbacks =>
      Table(Build22621_2215.NOTIFICATION_IID, Build22621_2215.NotificationMethods(), WithAdaptor(a))
  }

  /** Each adaptor is emitted with the notification declaration of its version module. */
  lemma ImplementedByVersions()
    ensures Build10240.Build().notification == Implemented(SixCallbacks)
    ensures Build22000.Build().notification == Implemented(PerMonitorCallbacks)
    ensures Build22621_2215.Build().notification == Implemented(IdentityCallbacks)
  {
  }

  /** What an adaptor does with one incoming call. */
  datatype Reaction =
    | Forward(call: Call)          // calls the stable callback with these arguments
    | Answer(hr: Machine.HResult)  // returns this status without calling anything

  /** The callbacks that carry a monitor array in front of their arguments on build 22000. */
  predicate CarriesMonitors(n: MethodName)
  {
    match n
    case VirtualDesktopCreated | VirtualDesktopDestroyBegin | VirtualDesktopDestroyFailed
       | VirtualDesktopDestroyed | VirtualDesktopMoved | CurrentVirtualDesktopChanged => true
    case _ => false
  }

  /**
   * The adaptor's reaction to a call its vtable declares. The build 22000 adaptor
   * ignores the per-monitor switch and answers `S_OK`, and drops the monitor array;
   * every other call is forwarded with its arguments as they came.
   */
  function Adapt(a: Adaptor, c: Call): (r: Reaction)
    requires Declares(Implemented(a), c)
    ensures r.Forward? ==> r.call.name == c.name
    ensures r.Answer? <==> a == PerMonitorCallbacks && c.name == VirtualDesktopIsPerMonitorChanged
    ensures r.Answer? ==> r.hr == Machine.S_OK
  {
    match a
    case PerMonitorCallbacks =>
      if c.name == VirtualDesktopIsPerMonitorChanged then Answer(Machine.S_OK)
      else if CarriesMonitors(c.name) then
        assert |c.args| >= 1 by { PerMonitorArity(c); }
        Forward(Call(c.name, c.args[1..]))
      else Forward(c)
    case _ => Forward(c)
  }

  /** Every build 22000 callback that carries a monitor array takes at least that argument. */
  lemma PerMonitorArity(c: Call)
    requires Declares(Implemented(PerMonitorCallbacks), c)
    requires CarriesMonitors(c.name)
    ensures |c.args| >= 1
  {
    MonitorsFirst();
  }

  lemma MonitorsFirst()
    ensures forall j :: 0 <= j < 12 && CarriesMonitors(Build22000.NotificationMethods()[j].name) ==>
      |Build22000.NotificationMethods()[j].params| >= 1
  {
  }

  // ---------------------------------------------------------------------------
  // An independent reading of the adaptors: drop exactly the monitor arrays

  const MONITORS: Ty := ComIn(IObjectArray)

  /** A signature with its monitor-array parameters removed. */
  function Strip(ps: seq<Ty>): (r: seq<Ty>)
    ensures |r| <= |ps|
    ensures MONITORS !in r
    ensures MONITORS !in ps ==> r == ps
  {
    if ps == [] then []
    else if ps[0] == MONITORS then Strip(ps[1..])
    else [ps[0]] + Strip(ps[1..])
  }

  /** The arguments of a call, without those passed for a monitor-array parameter. */
  function Keep(ps: seq<Ty>, args: seq<Arg>): (r: seq<Arg>)
    requires |ps| == |args|
    ensures |r| == |Strip(ps)|
    ensures MONITORS !in ps ==> r == args
  {
    if ps == [] then []
    else if ps[0] == MONITORS then Keep(ps[1..], args[1..])
    else [args[0]] + Keep(ps[1..], args[1..])
  }

  /**
   * The adaptor for `a` agrees, on its `i`-th callback called as `c`, with the two
   * signatures it connects: it answers only when the stable trait has no callback
   * of that name, and otherwise forwards to the stable callback whose signature is
   * the declared one without monitor arrays, with exactly the arguments that were
   * not passed for a monitor array.
   */
  predicate Matches(a: Adaptor, c: Call, i: nat)
    requires i < |Implemented(a).methods| && Implemented(a).methods[i].name == c.name
    requires |Implemented(a).methods[i].params| == |c.args|
  {
    var ps := Implemented(a).methods[i].params;
    Declares(Implemented(a), c) &&
    (Adapt(a, c).Answer? <==> forall k :: 0 <= k < 11 ==> StableAt(k).name != c.name) &&
    (Adapt(a, c).Forward? ==>
      Adapt(a, c).call.args == Keep(ps, c.args) &&
      exists k :: 0 <= k < 11 && StableAt(k) == Method(c.name, Strip(ps)))
  }

  /** Every declared callback of every adaptor is handled as `Matches` describes. */
  lemma AdaptMatchesSignatures(a: Adaptor, c: Call, i: nat)
    requires i < |Implemented(a).methods| && Implemented(a).methods[i].name == c.name
    requires |Implemented(a).methods[i].params| == |c.args|
    ensures Matches(a, c, i)
  {
    var m := Implemented(a).methods[i];
    match a
    case SixCallbacks =>
      assert m == Build10240.NotificationAt(i);
      SixShape(i);
      PlainMatch(a, c, i, SixTarget(i));
    case IdentityCallbacks =>
      assert m == Build22621_2215.NotificationAt(i);
      IdentityShape(i);
      PlainMatch(a, c, i, i);
    case PerMonitorCallbacks =>
      assert m == Build22000.NotificationAt(i);
      if i == 4 {
        AnswerMatch(c, i);
      } else {
        PerMonitorShape(i);
        if CarriesMonitors(m.name) {
          MonitorMatch(c, i, PerMonitorTarget(i), m);
        } else {
          PlainMatch(a, c, i, PerMonitorTarget(i));
        }
      }
  }

  /** The declared signature `m` is the stable callback `k`, and carries no monitor array. */
  predicate PlainShape(m: Method, k: nat)
  {
    k < 11 && MONITORS !in m.params && StableAt(k) == m
  }

  /** The declared signature `m` is the stable callback `k` behind one leading monitor array. */
  predicate MonitorShape(m: Method, k: nat)
  {
    && k < 11 && |m.params| >= 1 && m.params[0] == MONITORS && MONITORS !in m.params[1..]
    && StableAt(k) == Method(m.name, m.params[1..])
  }

  /** The stable callback behind the `i`-th Windows 10 notification. */
  function SixTarget(i: nat): nat
  {
    if i < 4 then i else i + 2
  }

  /** The stable callback behind the `i`-th build 22000 notification, past the per-monitor switch at 4. */
  function PerMonitorTarget(i: nat): nat
  {
    if i < 4 then i else i - 1
  }

  lemma SixShape(i: nat)
    requires i < 6
    ensures PlainShape(Build10240.NotificationAt(i), SixTarget(i))
  {
  }

  lemma IdentityShape(i: nat)
    requires i < 11
    ensures PlainShape(Build22621_2215.NotificationAt(i), i)
  {
  }

  lemma PerMonitorShape(i: nat)
    requires i < 12 && i != 4
    ensures var m := Build22000.NotificationAt(i);
      if CarriesMonitors(m.name) then MonitorShape(m, PerMonitorTarget(i)) else PlainShape(m, PerMonitorTarget(i))
  {
    if i == 0 {
      PerMonitorShape0();
    } else if i == 1 {
      PerMonitorShape1();
    } else if i == 2 {
      PerMonitorShape2();
    } else if i == 3 {
      PerMonitorShape3();
    } else if i == 5 {
      PerMonitorShape5();
    } else if i == 6 {
      PerMonitorShape6();
    } else if i == 7 {
      PerMonitorShape7();
    } else if i == 8 {
      PerMonitorShape8();
    } else if i == 9 {
      PerMonitorShape9();
    } else if i == 10 {
      PerMonitorShape10();
    } else {
      PerMonitorShape11();
    }
  }

  // One lemma per callback: checking the twelve-entry literal at a symbolic index
  // exceeds the solver's budget, so `PerMonitorShape` dispatches to these.

  lemma PerMonitorShape0()
    ensures CarriesMonitors(Build22000.NotificationAt(0).name)
    ensures MonitorShape(Build22000.NotificationAt(0), 0)
  {
    var m := Build22000.NotificationAt(0);
    assert m.params[0] == MONITORS && MONITORS !in m.params[1..];
  }

  lemma PerMonitorShape1()
    ensures CarriesMonitors(Build22000.NotificationAt(1).name)
    ensures MonitorShape(Build22000.NotificationAt(1), 1)
  {
    var m := Build22000.NotificationAt(1);
    assert m.params[0] == MONITORS && MONITORS !in m.params[1..];
  }

  lemma PerMonitorShape2()
    ensures CarriesMonitors(Build22000.NotificationAt(2).name)
    ensures MonitorShape(Build22000.NotificationAt(2), 2)
  {
    var m := Build22000.NotificationAt(2);
    assert m.params[0] == MONITORS && MONITORS !in m.params[1..];
  }

  lemma PerMonitorShape3()
    ensures CarriesMonitors(Build22000.NotificationAt(3).name)
    ensures MonitorShape(Build22000.NotificationAt(3), 3)
  {
    var m := Build22000.NotificationAt(3);
    assert m.params[0] == MONITORS && MONITORS !in m.params[1..];
  }

  lemma PerMonitorShape5()
    ensures CarriesMonitors(Build22000.NotificationAt(5).name)
    ensures MonitorShape(Build22000.NotificationAt(5), 4)
  {
    var m := Build22000.NotificationAt(5);
    assert m.params[0] == MONITORS && MONITORS !in m.params[1..];
  }

  lemma PerMonitorShape6()
    ensures !CarriesMonitors(Build22000.NotificationAt(6).name)
    ensures PlainShape(Build22000.NotificationAt(6), 5)
  {
  }

  lemma PerMonitorShape7()
    ensures !CarriesMonitors(Build22000.NotificationAt(7).name)
    ensures PlainShape(Build22000.NotificationAt(7), 6)
  {
  }

  lemma PerMonitorShape8()
    ensures CarriesMonitors(Build22000.NotificationAt(8).name)
    ensures MonitorShape(Build22000.NotificationAt(8), 7)
  {
    var m := Build22000.NotificationAt(8);
    assert m.params[0] == MONITORS && MONITORS !in m.params[1..];
  }

  lemma PerMonitorShape9()
    ensures !CarriesMonitors(Build22000.NotificationAt(9).name)
    ensures PlainShape(Build22000.NotificationAt(9), 8)
  {
  }

  lemma PerMonitorShape10()
    ensures !CarriesMonitors(Build22000.NotificationAt(10).name)
    ensures PlainShape(Build22000.NotificationAt(10), 9)
  {
  }

  lemma PerMonitorShape11()
    ensures !CarriesMonitors(Build22000.NotificationAt(11).name)
    ensures PlainShape(Build22000.NotificationAt(11), 10)
  {
  }

  /**
   * A callback without monitor arrays that the adaptor forwards unchanged
   * matches the stable callback `k` of the same signature.
   */
  lemma PlainMatch(a: Adaptor, c: Call, i: nat, k: nat)
    requires i < |Implemented(a).methods| && Implemented(a).methods[i].name == c.name
    requires |Implemented(a).methods[i].params| == |c.args|
    requires a == PerMonitorCallbacks ==> !CarriesMonitors(c.name) && c.name != VirtualDesktopIsPerMonitorChanged
    requires PlainShape(Implemented(a).methods[i], k)
    ensures Matches(a, c, i)
  {
    assert Declares(Implemented(a), c);
    assert Adapt(a, c) == Forward(c);
  }

  /**
   * A build 22000 callback whose first parameter is the only monitor array
   * matches the stable callback `k` that takes the remaining parameters.
   */
  lemma MonitorMatch(c: Call, i: nat, k: nat, m: Method)
    requires i < |Implemented(PerMonitorCallbacks).methods| && Implemented(PerMonitorCallbacks).methods[i] == m
    requires m.name == c.name && |m.params| == |c.args| && CarriesMonitors(m.name)
    requires MonitorShape(m, k)
    ensures Matches(PerMonitorCallbacks, c, i)
  {
    var ps := m.params;
    assert Declares(Implemented(PerMonitorCallbacks), c);
    assert Strip(ps) == ps[1..];
    assert Keep(ps, c.args) == c.args[1..];
    assert Adapt(PerMonitorCallbacks, c) == Forward(Call(c.name, c.args[1..]));
  }

  /** The per-monitor switch has no stable callback, and the adaptor answers it itself. */
  lemma AnswerMatch(c: Call, i: nat)
    requires i < |Implemented(PerMonitorCallbacks).methods| && Implemented(PerMonitorCallbacks).methods[i].name == c.name
    requires |Implemented(PerMonitorCallbacks).methods[i].params| == |c.args|
    requires c.name == VirtualDesktopIsPerMonitorChanged
    ensures Matches(PerMonitorCallbacks, c, i)
  {
    assert Declares(Implemented(PerMonitorCallbacks), c);
    NoStableSwitch();
  }

  lemma NoStableSwitch()
    ensures forall k :: 0 <= k < 11 ==> StableAt(k).name != VirtualDesktopIsPerMonitorChanged
  {
  }

  // ---------------------------------------------------------------------------
  // Coverage

  /** The stable callbacks Windows 10 has no notification for. */
  const NEVER_ON_10240: set<MethodName> :=
    {VirtualDesktopMoved, VirtualDesktopNameChanged, VirtualDesktopWallpaperChanged,
     VirtualDesktopSwitched, RemoteVirtualDesktopConnected}

  /** Through the Windows 10 adaptor, five of the eleven stable callbacks are never called. */
  lemma SixNeverRaises(c: Call)
    requires Declares(Implemented(SixCallbacks), c)
    ensures Adapt(SixCallbacks, c).Forward?
    ensures Adapt(SixCallbacks, c).call.name !in NEVER_ON_10240
  {
    var i :| 0 <= i < 6 && Build10240.NotificationMethods()[i].name == c.name &&
      |Build10240.NotificationMethods()[i].params| == |c.args|;
    assert Build10240.NotificationMethods()[i] == Build10240.NotificationAt(i);
    SixNames(i);
  }

  lemma SixNames(i: nat)
    requires i < 6
    ensures Build10240.NotificationAt(i).name !in NEVER_ON_10240
  {
  }

  /** On Windows 11 every stable callback has a version-specific notification that reaches it. */
  lemma EveryCallbackReached(a: Adaptor, k: nat)
    requires a != SixCallbacks && k < 11
    ensures HasMethod(Implemented(a), StableAt(k).name)
  {
    var i := if a == IdentityCallbacks || k < 4 then k else k + 1;
    assert Implemented(a).methods[i].name == StableAt(k).name;
  }

  /** The identity adaptor connects two identical signatures: build 22621's callbacks are the stable trait. */
  lemma IdentityIsStable()
    ensures Build22621_2215.NotificationMethods() == StableMethods()
  {
    assert forall i :: 0 <= i < 11 ==> Build22621_2215.NotificationAt(i) == StableAt(i);
  }
}
