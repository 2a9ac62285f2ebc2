/**
 * The desktop event listener.
 *
 * The listener implements the stable notification callbacks: each one turns its
 * arguments into at most one `DesktopEvent` for the user's sender and always
 * answers `S_OK`, whatever went wrong on the way. Its thread keeps one
 * registration with the notification service alive, and replaces it, dropping
 * the old registration first, whenever the service has gone away or the last
 * registration failed.
 */
module Listener {
  import opened Wrappers
  import opened Machine
  import opened Interfaces
  import Guid
  import Notifications

  // ---------------------------------------------------------------------------
  // Callbacks and events

  /** One call of a stable callback, with its arguments; desktops and views are raw COM pointers. */
  datatype Callback =
    | Created(desktop: RawPtr)
    | DestroyBegin(destroyed: RawPtr, fallback: RawPtr)
    | DestroyFailed(destroyed: RawPtr, fallback: RawPtr)
    | Destroyed(destroyed: RawPtr, fallback: RawPtr)
    | Moved(desktop: RawPtr, oldIndex: I64, newIndex: I64)
    | NameChanged(desktop: RawPtr, name: string)
    | ViewChanged(view: RawPtr)
    | CurrentChanged(before: RawPtr, after: RawPtr)
    | WallpaperChanged(desktop: RawPtr, name: string)
    | Switched(desktop: RawPtr)
    | RemoteConnected(desktop: RawPtr)

  /** Where a callback sits in the stable trait. */
  function Index(cb: Callback): (i: nat)
    ensures i < 11
  {
    match cb
    case Created(_) => 0
    case DestroyBegin(_, _) => 1
    case DestroyFailed(_, _) => 2
    case Destroyed(_, _) => 3
    case Moved(_, _, _) => 4
    case NameChanged(_, _) => 5
    case ViewChanged(_) => 6
    case CurrentChanged(_, _) => 7
    case WallpaperChanged(_, _) => 8
    case Switched(_) => 9
    case RemoteConnected(_) => 10
  }

  /** The callback as a call of the stable trait: pointers as objects, indices as words, names as text. */
  function AsCall(cb: Callback): (c: Call)
  {
    var name := Notifications.StableAt(Index(cb)).name;
    match cb
    case Created(d) => Call(name, [Obj(d)])
    case DestroyBegin(d, f) => Call(name, [Obj(d), Obj(f)])
    case DestroyFailed(d, f) => Call(name, [Obj(d), Obj(f)])
    case Destroyed(d, f) => Call(name, [Obj(d), Obj(f)])
    case Moved(d, o, n) => Call(name, [Obj(d), Word(o), Word(n)])
    case NameChanged(d, s) => Call(name, [Obj(d), Text(s)])
    case ViewChanged(v) => Call(name, [Obj(v)])
    case CurrentChanged(o, n) => Call(name, [Obj(o), Obj(n)])
    case WallpaperChanged(d, s) => Call(name, [Obj(d), Text(s)])
    case Switched(d) => Call(name, [Obj(d)])
    case RemoteConnected(d) => Call(name, [Obj(d)])
  }

  /** Reads a call of the stable trait back as a callback, if its arguments have the declared kinds. */
  function Decode(c: Call): (r: Option<Callback>)
  {
    match c.name
    case VirtualDesktopCreated =>
      if |c.args| == 1 && IsPtr(c.args[0]) then Some(Created(c.args[0].ptr)) else None
    case VirtualDesktopDestroyBegin =>
      if |c.args| == 2 && IsPtr(c.args[0]) && IsPtr(c.args[1]) then Some(DestroyBegin(c.args[0].ptr, c.args[1].ptr)) else None
    case VirtualDesktopDestroyFailed =>
      if |c.args| == 2 && IsPtr(c.args[0]) && IsPtr(c.args[1]) then Some(DestroyFailed(c.args[0].ptr, c.args[1].ptr)) else None
    case VirtualDesktopDestroyed =>
      if |c.args| == 2 && IsPtr(c.args[0]) && IsPtr(c.args[1]) then Some(Destroyed(c.args[0].ptr, c.args[1].ptr)) else None
    case VirtualDesktopMoved =>
      if |c.args| == 3 && IsPtr(c.args[0]) && IsI64(c.args[1]) && IsI64(c.args[2])
      then Some(Moved(c.args[0].ptr, c.args[1].value, c.args[2].value)) else None
    case VirtualDesktopNameChanged =>
      if |c.args| == 2 && IsPtr(c.args[0]) && c.args[1].Text? then Some(NameChanged(c.args[0].ptr, c.args[1].text)) else None
    case ViewVirtualDesktopChanged =>
      if |c.args| == 1 && IsPtr(c.args[0]) then Some(ViewChanged(c.args[0].ptr)) else None
    case CurrentVirtualDesktopChanged =>
      if |c.args| == 2 && IsPtr(c.args[0]) && IsPtr(c.args[1]) then Some(CurrentChanged(c.args[0].ptr, c.args[1].ptr)) else None
    case VirtualDesktopWallpaperChanged =>
      if |c.args| == 2 && IsPtr(c.args[0]) && c.args[1].Text? then Some(WallpaperChanged(c.args[0].ptr, c.args[1].text)) else None
    case VirtualDesktopSwitched =>
      if |c.args| == 1 && IsPtr(c.args[0]) then Some(Switched(c.args[0].ptr)) else None
    case RemoteVirtualDesktopConnected =>
      if |c.args| == 1 && IsPtr(c.args[0]) then Some(RemoteConnected(c.args[0].ptr)) else None
    case _ => None
  }

  predicate IsPtr(a: Arg)
  {
    a.Obj? && a.ptr < U64_LIMIT
  }

  predicate IsI64(a: Arg)
  {
    a.Word? && -0x8000_0000_0000_0000 <= a.value < 0x8000_0000_0000_0000
  }

  /** Every callback is a call the stable trait declares, and reads back as itself. */
  lemma AsCallDecodes(cb: Callback)
    ensures Decode(AsCall(cb)) == Some(cb)
    ensures AsCall(cb).name == Notifications.StableAt(Index(cb)).name
    ensures |AsCall(cb).args| == |Notifications.StableAt(Index(cb)).params|
  {
  }

  /** A call that reads as a callback is that callback's call. */
  lemma DecodeAsCall(c: Call)
    requires Decode(c).Some?
    ensures AsCall(Decode(c).value) == c
  {
    var cb := Decode(c).value;
    assert AsCall(cb).name == c.name;
    assert AsCall(cb).args == c.args;
  }

  /** The crate's desktop value, identified by the GUID the conversion reads. */
  datatype Desktop = Desktop(id: Guid.Guid)

  /** Why converting a desktop pointer into a `Desktop` failed: the foreign status. */
  datatype ConversionError = ConversionError(hr: HResult)

  /** The events the listener hands to the user's sender. */
  datatype DesktopEvent =
    | DesktopCreated(desktop: Desktop)
    | DesktopDestroyed(destroyed: Desktop, fallback: Desktop)
    | DesktopChanged(before: Desktop, after: Desktop)
    | DesktopNameChanged(desktop: Desktop, name: string)
    | DesktopWallpaperChanged(desktop: Desktop, name: string)
    | DesktopMoved(desktop: Desktop, oldIndex: I64, newIndex: I64)
    | WindowChanged(hwnd: Hwnd)

  /** `eat_error`: the value of a success, and nothing for a failure, which is only logged. */
  function EatError<T, E>(r: Result<T, E>): (o: Option<T>)
    ensures o.Some? <==> r.Ok?
    ensures o.Some? ==> o.value == r.value
  {
    match r
    case Ok(v) => Some(v)
    case Err(_) => None
  }

  /** What one callback does: the event it sends, if any, and the status it returns. */
  datatype Response = Response(sent: Option<DesktopEvent>, hr: HResult)

  /** The callbacks that never send anything. */
  predicate Silent(cb: Callback)
  {
    cb.DestroyBegin? || cb.DestroyFailed? || cb.Switched? || cb.RemoteConnected?
  }

  /** The desktop pointers a sending callback converts. */
  function DesktopArgs(cb: Callback): (ds: seq<RawPtr>)
    ensures |ds| <= 2
  {
    match cb
    case Created(d) => [d]
    case Destroyed(d, f) => [d, f]
    case Moved(d, _, _) => [d]
    case NameChanged(d, _) => [d]
    case CurrentChanged(o, n) => [o, n]
    case WallpaperChanged(d, _) => [d]
    case _ => []
  }

  /** The stable callback an event comes from. */
  function Origin(e: DesktopEvent): (n: MethodName)
  {
    match e
    case DesktopCreated(_) => VirtualDesktopCreated
    case DesktopDestroyed(_, _) => VirtualDesktopDestroyed
    case DesktopChanged(_, _) => CurrentVirtualDesktopChanged
    case DesktopNameChanged(_, _) => VirtualDesktopNameChanged
    case DesktopWallpaperChanged(_, _) => VirtualDesktopWallpaperChanged
    case DesktopMoved(_, _, _) => VirtualDesktopMoved
    case WindowChanged(_) => ViewVirtualDesktopChanged
  }

  /** The desktops an event names, in argument order. */
  function Desktops(e: DesktopEvent): seq<Desktop>
  {
    match e
    case DesktopCreated(d) => [d]
    case DesktopDestroyed(d, f) => [d, f]
    case DesktopChanged(o, n) => [o, n]
    case DesktopNameChanged(d, _) => [d]
    case DesktopWallpaperChanged(d, _) => [d]
    case DesktopMoved(d, _, _) => [d]
    case WindowChanged(_) => []
  }

  /**
   * `IVirtualDesktopNotification_Impl for VirtualDesktopNotification`. The
   * desktop conversion (`try_into`) and the view's `get_thumbnail_window` are
   * foreign calls, given as `desktopOf` and `thumbnail`.
   */
  function Handle(cb: Callback, desktopOf: RawPtr -> Result<Desktop, ConversionError>, thumbnail: RawPtr -> Option<Hwnd>): (r: Response)
    ensures r.hr == S_OK
    ensures r.sent.Some? <==> !Silent(cb) && forall d :: d in DesktopArgs(cb) ==> desktopOf(d).Ok?
    ensures r.sent.Some? ==> Origin(r.sent.value) == AsCall(cb).name
    ensures r.sent.Some? ==> (|Desktops(r.sent.value)| == |DesktopArgs(cb)| &&
      forall k :: 0 <= k < |DesktopArgs(cb)| ==> Desktops(r.sent.value)[k] == desktopOf(DesktopArgs(cb)[k]).value)
  {
    var sent := match cb
      case CurrentChanged(o, n) =>
        EatError(if desktopOf(o).Err? then Err(desktopOf(o).error)
          else if desktopOf(n).Err? then Err(desktopOf(n).error)
          else Ok(DesktopChanged(desktopOf(o).value, desktopOf(n).value)))
      case WallpaperChanged(d, s) =>
        EatError(if desktopOf(d).Err? then Err(desktopOf(d).error) else Ok(DesktopWallpaperChanged(desktopOf(d).value, s)))
      case Created(d) =>
        EatError(if desktopOf(d).Err? then Err(desktopOf(d).error) else Ok(DesktopCreated(desktopOf(d).value)))
      case DestroyBegin(_, _) => None
      case DestroyFailed(_, _) => None
      case Destroyed(d, f) =>
        EatError(if desktopOf(d).Err? then Err(desktopOf(d).error)
          else if desktopOf(f).Err? then Err(desktopOf(f).error)
          else Ok(DesktopDestroyed(desktopOf(d).value, desktopOf(f).value)))
      case Moved(d, o, n) =>
        EatError(if desktopOf(d).Err? then Err(desktopOf(d).error) else Ok(DesktopMoved(desktopOf(d).value, o, n)))
      case NameChanged(d, s) =>
        EatError(if desktopOf(d).Err? then Err(desktopOf(d).error) else Ok(DesktopNameChanged(desktopOf(d).value, s)))
      case ViewChanged(v) =>
        Some(WindowChanged(match thumbnail(v) case Some(h) => h case None => DEFAULT_HWND))
      case Switched(_) => None
      case RemoteConnected(_) => None;
    Response(sent, S_OK)
  }

  /**
   * Moving a desktop reports the indices exactly as given, and a view change
   * always reports one window: the view's thumbnail window, or the default
   * handle when that call fails.
   */
  lemma ArgumentsPassedOn(cb: Callback, desktopOf: RawPtr -> Result<Desktop, ConversionError>, thumbnail: RawPtr -> Option<Hwnd>)
    ensures cb.Moved? && Handle(cb, desktopOf, thumbnail).sent.Some? ==>
      Handle(cb, desktopOf, thumbnail).sent.value.oldIndex == cb.oldIndex &&
      Handle(cb, desktopOf, thumbnail).sent.value.newIndex == cb.newIndex
    ensures (cb.NameChanged? || cb.WallpaperChanged?) && Handle(cb, desktopOf, thumbnail).sent.Some? ==>
      Handle(cb, desktopOf, thumbnail).sent.value.name == cb.name
    ensures cb.ViewChanged? ==> (Handle(cb, desktopOf, thumbnail).sent ==
      Some(WindowChanged(if thumbnail(cb.view).Some? then thumbnail(cb.view).value else DEFAULT_HWND)))
  {
  }

  /**
   * Whatever version's callback the shell invokes, the object it registered
   * answers `S_OK`: the adaptor either answers `S_OK` itself or forwards to a
   * stable callback, and every stable callback answers `S_OK`.
   */
  lemma ShellAlwaysSeesOk(a: Adaptor, c: Call, desktopOf: RawPtr -> Result<Desktop, ConversionError>, thumbnail: RawPtr -> Option<Hwnd>)
    requires Declares(Notifications.Implemented(a), c)
    ensures match Notifications.Adapt(a, c)
      case Answer(hr) => hr == S_OK
      case Forward(s) => Decode(s).Some? ==> Handle(Decode(s).value, desktopOf, thumbnail).hr == S_OK
  {
  }

  // ---------------------------------------------------------------------------
  // Registration

  /** A cookie the notification service hands out for a registration. */
  type Cookie = U32

  /** Why registering failed: the service's status. */
  datatype RegisterError = RegisterError(hr: HResult)

  /**
   * The listener thread's state: its current wrapper (`Ok` holds the cookie the
   * registration returned, `Err` holds nothing), the cookies the service still
   * holds for this thread, and whether the loop still runs.
   */
  datatype Thread = Thread(listener: Option<Cookie>, live: set<Cookie>, running: bool)

  /** `VirtualDesktopNotificationWrapper::new`: registers, and keeps the returned cookie. */
  function Register(live: set<Cookie>, reply: Result<Cookie, RegisterError>): (r: (Option<Cookie>, set<Cookie>))
    ensures r.0.Some? <==> reply.Ok?
    ensures reply.Ok? ==> r.0 == Some(reply.value) && r.1 == live + {reply.value}
    ensures reply.Err? ==> r.1 == live
  {
    match reply
    case Ok(c) => (Some(c), live + {c})
    case Err(_) => (None, live)
  }

  /**
   * Dropping a wrapper asks the service to unregister its own cookie; a failed
   * wrapper has nothing to unregister. `succeeded` is the service's answer,
   * which the wrapper's `Drop` discards: on a failure the cookie stays with the
   * service.
   */
  function Unregister(listener: Option<Cookie>, live: set<Cookie>, succeeded: bool): (r: set<Cookie>)
    ensures listener.None? || !succeeded ==> r == live
    ensures listener.Some? && succeeded ==> r == live - {listener.value}
  {
    match listener
    case None => live
    case Some(c) => if succeeded then live - {c} else live
  }

  /**
   * What the loop sees: the quit message, or a three-second timeout. Each
   * carries the service's answer to unregistering the current wrapper should it
   * be dropped; a timeout also carries whether the service is connected and
   * what a new registration would return.
   */
  datatype Tick =
    | Quit(unregistered: bool)
    | Timeout(connected: bool, unregistered: bool, reply: Result<Cookie, RegisterError>)

  /** The thread before its loop: the first registration. */
  function Start(reply: Result<Cookie, RegisterError>): (t: Thread)
    ensures Exact(t) && t.running
    ensures t.live == (if reply.Ok? then {reply.value} else {})
  {
    var (l, live) := Register({}, reply);
    Thread(l, live, true)
  }

  /**
   * One turn of the loop. `Quit` ends it, and the wrapper is dropped when the
   * thread's closure returns. On a timeout a disconnected service or a failed
   * registration leads to dropping the old wrapper and then registering anew.
   */
  function Step(t: Thread, tick: Tick): (r: Thread)
    requires t.running
    ensures r.running <==> tick.Timeout?
    ensures tick.Timeout? && tick.connected && t.listener.Some? ==> r == t
    ensures tick.Quit? ==> r.listener.None?
    ensures tick.Timeout? && (!tick.connected || t.listener.None?) ==> (r.listener.Some? <==> tick.reply.Ok?)
  {
    match tick
    case Quit(ok) => Thread(None, Unregister(t.listener, t.live, ok), false)
    case Timeout(connected, ok, reply) =>
      if !connected || t.listener.None? then
        var live := Unregister(t.listener, t.live, ok);
        var (l, live') := Register(live, reply);
        Thread(l, live', true)
      else t
  }

  /** The cookie of the thread's current wrapper is one the service holds. */
  predicate Holds(t: Thread)
  {
    t.listener.Some? ==> t.listener.value in t.live
  }

  /** The service holds exactly the cookie of the thread's current wrapper, and nothing else. */
  predicate Exact(t: Thread)
  {
    t.live == (if t.listener.Some? then {t.listener.value} else {})
  }

  /** The cookie a tick's registration hands out, if it registers at all. */
  function Issued(tick: Tick): set<Cookie>
  {
    if tick.Timeout? && tick.reply.Ok? then {tick.reply.value} else {}
  }

  /**
   * Each turn keeps the current cookie registered and adds no cookie but the
   * one its registration returns. When the service honours the unregistration,
   * the exact bookkeeping survives the turn: at most one registration is live,
   * and none once the thread stops.
   */
  lemma StepKeepsConsistent(t: Thread, tick: Tick)
    requires t.running && Holds(t)
    ensures Holds(Step(t, tick))
    ensures Step(t, tick).live <= t.live + Issued(tick)
    ensures !Step(t, tick).running <==> tick.Quit?
    ensures tick.unregistered && Exact(t) ==> Exact(Step(t, tick)) && |Step(t, tick).live| <= 1
    ensures tick.unregistered && Exact(t) && tick.Quit? ==> Step(t, tick).live == {}
  {
  }

  /**
   * The result of the unregistration is discarded, so a refused one leaks the
   * old cookie: after a reconnect both the old and the new registration are
   * live, and after `Quit` the old one still is.
   */
  lemma RefusedUnregisterLeaks(previous: Cookie, next: Cookie)
    requires previous != next
    ensures Step(Thread(Some(previous), {previous}, true), Timeout(false, false, Ok(next))).live == {previous, next}
    ensures Step(Thread(Some(previous), {previous}, true), Quit(false)).live == {previous}
  {
  }

  /**
   * Registering the new wrapper before dropping the old one, the order the loop
   * avoids, would hold two registrations at once whenever the service hands out
   * a fresh cookie.
   */
  lemma RegisterFirstOverlaps(previous: Cookie, next: Cookie)
    requires previous != next
    ensures |Register({previous}, Ok(next)).1| == 2
  {
    assert Register({previous}, Ok(next)).1 == {previous, next};
  }

  /** `c` was handed out by the first registration or by one of the first `n` ticks. */
  predicate HandedOut(c: Cookie, reply: Result<Cookie, RegisterError>, ticks: seq<Tick>, n: nat)
    requires n <= |ticks|
  {
    reply == Ok(c) || exists i :: 0 <= i < n && c in Issued(ticks[i])
  }

  /**
   * The listener thread over a sequence of ticks, stopping at the first `Quit`;
   * `used` is how many ticks it consumed.
   */
  method Run(reply: Result<Cookie, RegisterError>, ticks: seq<Tick>) returns (t: Thread, used: nat)
    ensures used <= |ticks| && Holds(t)
    ensures t.running <==> forall i :: 0 <= i < |ticks| ==> !ticks[i].Quit?
    ensures !t.running ==> used > 0 && ticks[used - 1].Quit? && forall i :: 0 <= i < used - 1 ==> !ticks[i].Quit?
    ensures t.running ==> used == |ticks|
    ensures forall c :: c in t.live ==> HandedOut(c, reply, ticks, used)
    ensures (forall i :: 0 <= i < used ==> ticks[i].unregistered) ==>
      Exact(t) && |t.live| <= 1 && (!t.running ==> t.live == {})
  {
    t := Start(reply);
    used := 0;
    while used < |ticks| && t.running
      invariant used <= |ticks| && Holds(t)
      invariant t.running ==> forall i :: 0 <= i < used ==> !ticks[i].Quit?
      invariant !t.running ==> used > 0 && ticks[used - 1].Quit? && forall i :: 0 <= i < used - 1 ==> !ticks[i].Quit?
      invariant forall c :: c in t.live ==> HandedOut(c, reply, ticks, used)
      invariant (forall i :: 0 <= i < used ==> ticks[i].unregistered) ==> Exact(t) && (!t.running ==> t.live == {})
    {
      StepKeepsConsistent(t, ticks[used]);
      t := Step(t, ticks[used]);
      used := used + 1;
    }
  }
}
