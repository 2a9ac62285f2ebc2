/**
 * `ComIn`, the borrowed-input wrapper, against COM reference counting.
 *
 * A `ComIn<T>` is a bitwise copy of an interface pointer that lives no longer
 * than the borrow it came from. It takes no reference when it is made and
 * releases none when it goes away, which is exactly what the COM rule for input
 * parameters asks of a callee. Owning interface values, in contrast, `AddRef`
 * when cloned and `Release` when dropped. The reference counts the objects keep
 * are modelled as a map from raw pointer to count.
 */
module ComInModel {
  import opened Wrappers
  import opened Machine

  // ---------------------------------------------------------------------------
  // The wrapper

  /**
   * A value whose raw interface pointer `ComIn::new` copies: an interface type
   * of the `windows` crate (`as_raw`), or one of the crate's version-independent
   * types, which wrap an `IUnknown` (`as_pointer_repr` reads the wrapped pointer).
   */
  datatype Interface =
    | Versioned(raw: RawPtr)
    | Abstract(inner: RawPtr)

  /** `PointerRepr::as_pointer_repr`. */
  function PointerRepr(t: Interface): (p: RawPtr)
  {
    match t
    case Versioned(raw) => raw
    case Abstract(inner) => inner
  }

  /** A borrowed input parameter: the copied pointer, nothing else. */
  datatype ComIn = ComIn(data: RawPtr)

  /** `ComIn::new`: copies the pointer of the borrowed value. */
  function New(t: Interface): (c: ComIn)
    ensures c.data == PointerRepr(t)
  {
    ComIn(PointerRepr(t))
  }

  /** `into_ref` and `deref`: the stored pointer read as a `T`, without any reference taken. */
  function IntoRef(c: ComIn): (p: RawPtr)
  {
    c.data
  }

  /**
   * Wrapping and then dereferencing gives back the borrowed value's pointer,
   * for interface types and for the version-independent types alike.
   */
  lemma DerefNew(t: Interface)
    ensures IntoRef(New(t)) == PointerRepr(t)
    ensures t.Versioned? ==> IntoRef(New(t)) == t.raw
    ensures t.Abstract? ==> IntoRef(New(t)) == t.inner
  {
  }

  // ---------------------------------------------------------------------------
  // Reference counts

  /** The reference count of every live object. */
  type Counts = map<RawPtr, nat>

  function Count(h: Counts, p: RawPtr): (n: nat)
  {
    if p in h then h[p] else 0
  }

  /** What a thread does with interface pointers. */
  datatype Action =
    | NewIn(of: Interface)    // `ComIn::new`
    | DerefIn(c: ComIn)       // `*c` or `into_ref`
    | DropIn(c: ComIn)        // a `ComIn` going out of scope: no `Drop` impl
    | CloneOwned(p: RawPtr)   // cloning an owning interface value: `AddRef`
    | DropOwned(p: RawPtr)    // dropping an owning interface value: `Release`
    | ReceiveOut(p: RawPtr)   // an out-parameter arrives carrying one reference for the caller

  /** Whether an action only touches `ComIn` values. */
  predicate Borrowing(a: Action)
  {
    a.NewIn? || a.DerefIn? || a.DropIn?
  }

  /**
   * The counts after one action; `None` when an `AddRef` or a `Release` hits an
   * object whose count is already zero (a use after free).
   */
  function Apply(h: Counts, a: Action): (r: Option<Counts>)
    ensures Borrowing(a) ==> r == Some(h)
    ensures a.ReceiveOut? ==> r.Some? && Count(r.value, a.p) == Count(h, a.p) + 1
    ensures a.CloneOwned? ==> (r.Some? <==> Count(h, a.p) > 0)
    ensures a.CloneOwned? && r.Some? ==> Count(r.value, a.p) == Count(h, a.p) + 1
    ensures a.DropOwned? ==> (r.Some? <==> Count(h, a.p) > 0)
    ensures a.DropOwned? && r.Some? ==> Count(r.value, a.p) + 1 == Count(h, a.p)
    ensures r.Some? && !Borrowing(a) ==> forall q :: q != a.p ==> Count(r.value, q) == Count(h, q)
  {
    match a
    case NewIn(_) => Some(h)
    case DerefIn(_) => Some(h)
    case DropIn(_) => Some(h)
    case CloneOwned(p) => if Count(h, p) == 0 then None else Some(h[p := Count(h, p) + 1])
    case ReceiveOut(p) => Some(h[p := Count(h, p) + 1])
    case DropOwned(p) => if Count(h, p) == 0 then None else Some(h[p := Count(h, p) - 1])
  }

  /** A sequence of actions, stopping at the first use after free. */
  function Run(h: Counts, actions: seq<Action>): (r: Option<Counts>)
    decreases |actions|
  {
    if actions == [] then Some(h)
    else match Apply(h, actions[0])
      case None => None
      case Some(h') => Run(h', actions[1..])
  }

  /**
   * Making, dereferencing and dropping any number of `ComIn`s leaves every
   * reference count as it was.
   */
  lemma {:induction false} BorrowsLeaveCounts(h: Counts, actions: seq<Action>)
    requires forall i :: 0 <= i < |actions| ==> Borrowing(actions[i])
    ensures Run(h, actions) == Some(h)
    decreases |actions|
  {
    if actions != [] {
      BorrowsLeaveCounts(h, actions[1..]);
    }
  }

  /**
   * Rule 1 of the ownership rules: while the caller keeps its reference, a
   * callee that only borrows can never free the object.
   */
  lemma {:induction false} BorrowedStaysAlive(h: Counts, actions: seq<Action>, p: RawPtr)
    requires Count(h, p) >= 1
    requires forall i :: 0 <= i < |actions| ==> Borrowing(actions[i])
    ensures Run(h, actions).Some? && Count(Run(h, actions).value, p) >= 1
  {
    BorrowsLeaveCounts(h, actions);
  }

  /**
   * Rule 2: an out-parameter hands the caller one reference, which the caller
   * gives back with one `Release`, leaving the count as before.
   */
  lemma OutParamBalanced(h: Counts, p: RawPtr)
    ensures Run(h, [ReceiveOut(p), DropOwned(p)]).Some?
    ensures Count(Run(h, [ReceiveOut(p), DropOwned(p)]).value, p) == Count(h, p)
  {
    var h1 := Apply(h, ReceiveOut(p)).value;
    assert [ReceiveOut(p), DropOwned(p)][1..] == [DropOwned(p)];
    assert Run(h, [ReceiveOut(p), DropOwned(p)]) == Run(h1, [DropOwned(p)]);
    assert Run(h1, [DropOwned(p)]) == Run(Apply(h1, DropOwned(p)).value, []);
  }

  /**
   * Rule 3: copying a pointer whose only reference is the original needs the
   * `AddRef` before the original's `Release`; the other order frees the object
   * first, and the `AddRef` then touches freed memory.
   */
  lemma CopyOrderMatters(h: Counts, p: RawPtr)
    requires Count(h, p) == 1
    ensures var r := Run(h, [CloneOwned(p), DropOwned(p)]); r.Some? && Count(r.value, p) == 1
    ensures var r := Run(h, [DropOwned(p)]); r.Some? && Count(r.value, p) == 0
    ensures Run(h, [DropOwned(p), CloneOwned(p)]).None?
  {
    var h0 := Apply(h, DropOwned(p)).value;
    assert [DropOwned(p), CloneOwned(p)][1..] == [CloneOwned(p)];
    assert Run(h, [DropOwned(p), CloneOwned(p)]) == Run(h0, [CloneOwned(p)]);
    var h1 := Apply(h, CloneOwned(p)).value;
    assert [CloneOwned(p), DropOwned(p)][1..] == [DropOwned(p)];
    assert Run(h, [CloneOwned(p), DropOwned(p)]) == Run(h1, [DropOwned(p)]);
    assert Run(h1, [DropOwned(p)]) == Run(Apply(h1, DropOwned(p)).value, []);
    assert Run(h, [DropOwned(p)]) == Run(Apply(h, DropOwned(p)).value, []);
  }

  /** Running two traces one after the other is running their concatenation. */
  lemma {:induction false} RunAppend(h: Counts, xs: seq<Action>, ys: seq<Action>)
    requires Run(h, xs).Some?
    ensures Run(h, xs + ys) == Run(Run(h, xs).value, ys)
    decreases |xs|
  {
    if xs == [] {
      assert xs + ys == ys;
    } else {
      assert (xs + ys)[0] == xs[0];
      assert (xs + ys)[1..] == xs[1..] + ys;
      RunAppend(Apply(h, xs[0]).value, xs[1..], ys);
    }
  }

  /**
   * The pattern the wrapper exists for: an object received through an
   * out-parameter, passed by `ComIn` into any number of calls, then dropped,
   * ends with the count it started with.
   */
  lemma OutThenBorrowThenDrop(h: Counts, p: RawPtr, borrows: seq<Action>)
    requires forall i :: 0 <= i < |borrows| ==> Borrowing(borrows[i])
    ensures var r := Run(h, [ReceiveOut(p)] + borrows + [DropOwned(p)]);
      r.Some? && r.value == h[p := Count(h, p)]
  {
    var h1 := Apply(h, ReceiveOut(p)).value;
    assert Run(h, [ReceiveOut(p)]) == Some(h1) by {
      assert Run(h, [ReceiveOut(p)]) == Run(h1, []);
    }
    RunAppend(h, [ReceiveOut(p)], borrows);
    BorrowsLeaveCounts(h1, borrows);
    RunAppend(h, [ReceiveOut(p)] + borrows, [DropOwned(p)]);
    assert Run(h1, [DropOwned(p)]) == Run(Apply(h1, DropOwned(p)).value, []);
    assert Apply(h1, DropOwned(p)).value == h[p := Count(h, p)];
  }
}
