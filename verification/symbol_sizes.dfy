/**
 * `calculate_size_for_symbols` of the symbol dumper: every public symbol with
 * an address is taken to run up to the next symbol at a strictly larger
 * address, and that distance becomes its estimated size.
 */
module SymbolSizes {
  import opened Wrappers
  import opened Machine

  /** A PDB symbol as far as the sizing looks at it. */
  datatype Symbol =
    | Unparsed                    // `parse()` failed: skipped
    | Public(name: string, rva: Option<U32>)  // a public symbol; `rva` is `None` when its offset has none
    | ProcedureReference          // skipped
    | Unexpected                  // any other kind: `todo!` panics

  datatype AddressInfo = AddressInfo(size: U32, rva: U32)

  /** A symbol with the size slot the function fills in. */
  datatype Entry = Entry(info: Option<AddressInfo>, symbol: Symbol)

  /** A public symbol with an address, by its position among the entries. */
  datatype Placed = Placed(index: nat, rva: U32)

  /** Whether an entry takes part in the sizing. */
  predicate Takes(s: Symbol)
  {
    s.Public? && s.rva.Some?
  }

  /** Entry `i` takes part and lies strictly above address `v`. */
  predicate Above(entries: seq<Entry>, i: int, v: U32)
    requires 0 <= i < |entries|
  {
    Takes(entries[i].symbol) && entries[i].symbol.rva.value > v
  }

  /** `x` names a taking-part entry and its address. */
  predicate Participant(entries: seq<Entry>, x: Placed)
  {
    x.index < |entries| && Takes(entries[x.index].symbol) && entries[x.index].symbol.rva.value == x.rva
  }

  // ---------------------------------------------------------------------------
  // Reference definition

  /** The least address above `v` among the first `n` taking-part entries. */
  function NextAbove(entries: seq<Entry>, v: U32, n: nat): (r: Option<U32>)
    requires n <= |entries|
    ensures r.Some? <==> exists i :: 0 <= i < n && Above(entries, i, v)
    ensures r.Some? ==> r.value > v && exists i :: 0 <= i < n && Above(entries, i, v) && entries[i].symbol.rva.value == r.value
    ensures r.Some? ==> forall i :: 0 <= i < n && Above(entries, i, v) ==> entries[i].symbol.rva.value >= r.value
  {
    if n == 0 then None
    else
      var rest := NextAbove(entries, v, n - 1);
      if Above(entries, n - 1, v) && (rest.None? || entries[n - 1].symbol.rva.value < rest.value) then
        Some(entries[n - 1].symbol.rva.value)
      else rest
  }

  /**
   * What entry `i` should hold afterwards: a taking-part symbol with something
   * above it gets the distance to the nearest address above; everything else
   * keeps what it had.
   */
  function Sized(entries: seq<Entry>, i: nat): (r: Entry)
    requires i < |entries|
    ensures r.symbol == entries[i].symbol
  {
    var e := entries[i];
    if !Takes(e.symbol) then e
    else
      var start := e.symbol.rva.value;
      match NextAbove(entries, start, |entries|)
      case None => e
      case Some(end) => e.(info := Some(AddressInfo(end - start, start)))
  }

  /**
   * What a computed size means: it reaches exactly to another taking-part
   * symbol, is positive, and skips no symbol in between; entries that do not
   * take part, and those at the highest address, keep what they had.
   */
  lemma SizedMeaning(entries: seq<Entry>, i: nat)
    requires i < |entries|
    ensures !Takes(entries[i].symbol) ==> Sized(entries, i) == entries[i]
    ensures Takes(entries[i].symbol) && !(exists j :: 0 <= j < |entries| && Above(entries, j, entries[i].symbol.rva.value)) ==>
      Sized(entries, i) == entries[i]
    ensures Takes(entries[i].symbol) && (exists j :: 0 <= j < |entries| && Above(entries, j, entries[i].symbol.rva.value)) ==>
      var start, r := entries[i].symbol.rva.value, Sized(entries, i);
      && r.info.Some? && r.info.value.rva == start && r.info.value.size > 0
      && (exists j :: 0 <= j < |entries| && Takes(entries[j].symbol) && entries[j].symbol.rva.value == start + r.info.value.size)
      && (forall j :: 0 <= j < |entries| && Takes(entries[j].symbol) ==>
            !(start < entries[j].symbol.rva.value < start + r.info.value.size))
  {
  }

  // ---------------------------------------------------------------------------
  // The steps of the function

  /** Strictly increasing positions. */
  predicate Increasing(s: seq<Placed>)
  {
    forall i, j :: 0 <= i < j < |s| ==> s[i].index < s[j].index
  }

  /**
   * The `filter_map` and `collect`: the taking-part entries among the first
   * `n`, in order; `None` when one of them is of an unexpected kind, since the
   * collection runs to the end before anything is written.
   */
  function Collect(entries: seq<Entry>, n: nat): (r: Option<seq<Placed>>)
    requires n <= |entries|
    ensures r.None? <==> exists i :: 0 <= i < n && entries[i].symbol.Unexpected?
    ensures r.Some? ==> Increasing(r.value)
    ensures r.Some? ==> forall x :: x in r.value ==> x.index < n
    ensures r.Some? ==> forall x :: x in r.value <==> x.index < n && Participant(entries, x)
  {
    if n == 0 then Some([])
    else match Collect(entries, n - 1)
      case None => None
      case Some(init) =>
        var s := entries[n - 1].symbol;
        if s.Unexpected? then None
        else if Takes(s) then
          assert forall x :: x in init + [Placed(n - 1, s.rva.value)] <==> x in init || x == Placed(n - 1, s.rva.value);
          Some(init + [Placed(n - 1, s.rva.value)])
        else Some(init)
  }

  /** Lexicographic order on (address, position). */
  predicate Before(a: Placed, b: Placed)
  {
    a.rva < b.rva || (a.rva == b.rva && a.index < b.index)
  }

  predicate LexSorted(s: seq<Placed>)
  {
    forall i, j :: 0 <= i < j < |s| ==> Before(s[i], s[j])
  }

  /**
   * One step of a stable sort by address: `x` goes after every element whose
   * address is not larger than its own.
   */
  function InsertStable(s: seq<Placed>, x: Placed): (r: seq<Placed>)
    ensures multiset(r) == multiset(s) + multiset{x}
    ensures LexSorted(s) && (forall y :: y in s ==> y.index < x.index) ==> LexSorted(r)
    decreases |s|
  {
    if s == [] || s[|s| - 1].rva <= x.rva then
      assert LexSorted(s) && (forall y :: y in s ==> y.index < x.index) ==> LexSorted(s + [x]) by {
        if LexSorted(s) && (forall y :: y in s ==> y.index < x.index) {
          forall y | y in s ensures Before(y, x) {
            var i :| 0 <= i < |s| && s[i] == y;
            if i < |s| - 1 { assert Before(s[i], s[|s| - 1]); }
          }
          LexAppend(s, x);
        }
      }
      s + [x]
    else
      var init, last := s[..|s| - 1], s[|s| - 1];
      assert s == init + [last];
      var r := InsertStable(init, x) + [last];
      assert LexSorted(s) && (forall y :: y in s ==> y.index < x.index) ==> LexSorted(r) by {
        if LexSorted(s) && (forall y :: y in s ==> y.index < x.index) {
          assert LexSorted(init) by {
            forall i, j | 0 <= i < j < |init| ensures Before(init[i], init[j]) {
              assert init[i] == s[i] && init[j] == s[j];
            }
          }
          LexBelow(s, init, InsertStable(init, x), x, last);
          LexAppend(InsertStable(init, x), last);
        }
      }
      r
  }

  lemma LexAppend(s: seq<Placed>, x: Placed)
    requires LexSorted(s) && forall y :: y in s ==> Before(y, x)
    ensures LexSorted(s + [x])
  {
    forall i, j | 0 <= i < j < |s + [x]| ensures Before((s + [x])[i], (s + [x])[j]) {
      assert (s + [x])[i] == s[i];
      if j < |s| { assert (s + [x])[j] == s[j]; }
    }
  }

  /** Every element of the shorter sorted part precedes the old last element. */
  lemma LexBelow(s: seq<Placed>, init: seq<Placed>, t: seq<Placed>, x: Placed, last: Placed)
    requires LexSorted(s) && s == init + [last] && x.rva < last.rva
    requires multiset(t) == multiset(init) + multiset{x}
    ensures forall y :: y in t ==> Before(y, last)
  {
    forall y | y in t ensures Before(y, last) {
      assert y in multiset(t);
      if y != x {
        assert y in init;
        var i :| 0 <= i < |init| && init[i] == y;
        assert s[i] == y && s[|s| - 1] == last;
      }
    }
  }

  /**
   * `sort_by_key` on the address: a stable insertion sort. On entries listed
   * in increasing position the result is ordered by address and, among equal
   * addresses, still by position.
   */
  function SortByRva(s: seq<Placed>): (r: seq<Placed>)
    ensures multiset(r) == multiset(s)
    ensures Increasing(s) ==> LexSorted(r)
    decreases |s|
  {
    if s == [] then []
    else
      var init, last := s[..|s| - 1], s[|s| - 1];
      assert s == init + [last];
      var sorted := SortByRva(init);
      assert Increasing(s) ==> LexSorted(InsertStable(sorted, last)) by {
        if Increasing(s) {
          assert Increasing(init) by {
            forall i, j | 0 <= i < j < |init| ensures init[i].index < init[j].index {
              assert init[i] == s[i] && init[j] == s[j];
            }
          }
          forall y | y in sorted ensures y.index < last.index {
            assert y in multiset(sorted);
            var i :| 0 <= i < |init| && init[i] == y;
            assert s[i] == y;
          }
        }
      }
      InsertStable(sorted, last)
  }

  // ---------------------------------------------------------------------------
  // The loop

  /** What the loop relies on: the sorted list holds exactly the taking-part entries. */
  ghost predicate SortedParticipants(entries: seq<Entry>, sorted: seq<Placed>)
  {
    && LexSorted(sorted)
    && (forall x :: x in sorted <==> Participant(entries, x))
    && (forall p :: 0 <= p < |sorted| ==> sorted[p].index < |entries|)
  }

  /**
   * The first later sorted entry at a different address holds the nearest
   * address above: later entries are not lower, and the skipped ones share
   * the start address.
   */
  lemma NextInSorted(entries: seq<Entry>, sorted: seq<Placed>, k: nat, j: nat)
    requires SortedParticipants(entries, sorted)
    requires k < j < |sorted| && sorted[j].rva != sorted[k].rva
    requires forall q :: k < q < j ==> sorted[q].rva == sorted[k].rva
    ensures NextAbove(entries, sorted[k].rva, |entries|) == Some(sorted[j].rva)
  {
    var start := sorted[k].rva;
    assert Before(sorted[k], sorted[j]);
    assert sorted[j] in sorted;
    assert Above(entries, sorted[j].index, start);
    forall q | 0 <= q < k ensures sorted[q].rva <= start {
      assert Before(sorted[q], sorted[k]);
    }
    forall q | j < q < |sorted| ensures sorted[q].rva >= sorted[j].rva {
      assert Before(sorted[j], sorted[q]);
    }
    forall i | 0 <= i < |entries| && Above(entries, i, start) ensures entries[i].symbol.rva.value >= sorted[j].rva {
      assert Placed(i, entries[i].symbol.rva.value) in sorted;
    }
  }

  /** When every later sorted entry shares the start address, nothing lies above it. */
  lemma NoneAbove(entries: seq<Entry>, sorted: seq<Placed>, k: nat)
    requires SortedParticipants(entries, sorted)
    requires k < |sorted|
    requires forall q :: k < q < |sorted| ==> sorted[q].rva == sorted[k].rva
    ensures NextAbove(entries, sorted[k].rva, |entries|).None?
  {
    var start := sorted[k].rva;
    forall q | 0 <= q < |sorted| ensures sorted[q].rva <= start {
      if q < k { assert Before(sorted[q], sorted[k]); }
    }
    forall i | 0 <= i < |entries| ensures !Above(entries, i, start) {
      if Takes(entries[i].symbol) {
        assert Placed(i, entries[i].symbol.rva.value) in sorted;
      }
    }
  }

  /** A taking-part entry is somewhere in the sorted list. */
  lemma PositionOf(entries: seq<Entry>, sorted: seq<Placed>, i: nat) returns (p: nat)
    requires SortedParticipants(entries, sorted)
    requires i < |entries| && Takes(entries[i].symbol)
    ensures p < |sorted| && sorted[p] == Placed(i, entries[i].symbol.rva.value)
  {
    var x := Placed(i, entries[i].symbol.rva.value);
    assert x in sorted;
    p :| 0 <= p < |sorted| && sorted[p] == x;
  }

  /** The size the loop writes at sorted position `k` is the one `Sized` describes. */
  lemma StepValue(entries: seq<Entry>, sorted: seq<Placed>, k: nat, j: nat, o: Entry)
    requires SortedParticipants(entries, sorted)
    requires k < j < |sorted| && sorted[j].rva != sorted[k].rva
    requires forall q :: k < q < j ==> sorted[q].rva == sorted[k].rva
    requires sorted[k].index < |entries| && o.symbol == entries[sorted[k].index].symbol
    ensures sorted[k].rva < sorted[j].rva
    ensures o.(info := Some(AddressInfo(sorted[j].rva - sorted[k].rva, sorted[k].rva))) == Sized(entries, sorted[k].index)
  {
    assert Before(sorted[k], sorted[j]);
    NextInSorted(entries, sorted, k, j);
    assert sorted[k] in sorted;
  }

  /** The sorted collection holds exactly the taking-part entries. */
  lemma SortedCollection(entries: seq<Entry>, collected: seq<Placed>)
    requires Collect(entries, |entries|) == Some(collected)
    ensures SortedParticipants(entries, SortByRva(collected))
  {
    var sorted := SortByRva(collected);
    forall x ensures x in sorted <==> Participant(entries, x) {
      assert x in sorted <==> x in multiset(sorted);
      assert x in collected <==> x in multiset(collected);
    }
  }

  /**
   * The entries after the loop has written sorted positions `0..k`: each
   * written position holds its `Sized` value.
   */
  ghost function Written(entries: seq<Entry>, sorted: seq<Placed>, k: nat): (r: seq<Entry>)
    requires SortedParticipants(entries, sorted) && k <= |sorted|
    ensures |r| == |entries|
    ensures forall i :: 0 <= i < |entries| ==> r[i].symbol == entries[i].symbol
  {
    if k == 0 then entries
    else
      var at := sorted[k - 1].index;
      Written(entries, sorted, k - 1)[at := Sized(entries, at)]
  }

  /** Written positions hold their final value; every other entry holds its old one or its final one. */
  lemma {:induction false} WrittenProgress(entries: seq<Entry>, sorted: seq<Placed>, k: nat)
    requires SortedParticipants(entries, sorted) && k <= |sorted|
    ensures forall p :: 0 <= p < k ==> Written(entries, sorted, k)[sorted[p].index] == Sized(entries, sorted[p].index)
    ensures forall i :: 0 <= i < |entries| ==>
      Written(entries, sorted, k)[i] == entries[i] || Written(entries, sorted, k)[i] == Sized(entries, i)
  {
    if k > 0 {
      WrittenProgress(entries, sorted, k - 1);
    }
  }

  /** One pass of the loop body that finds a larger address writes position `k`. */
  lemma Step(entries: seq<Entry>, sorted: seq<Placed>, k: nat, j: nat, out: seq<Entry>) returns (at: nat, size: U32)
    requires SortedParticipants(entries, sorted)
    requires k < j < |sorted| && sorted[j].rva != sorted[k].rva
    requires forall q :: k < q < j ==> sorted[q].rva == sorted[k].rva
    requires out == Written(entries, sorted, k)
    ensures at == sorted[k].index && at < |out| && size + sorted[k].rva == sorted[j].rva
    ensures Written(entries, sorted, k + 1) == out[at := out[at].(info := Some(AddressInfo(size, sorted[k].rva)))]
  {
    at := sorted[k].index;
    StepValue(entries, sorted, k, j, out[at]);
    size := sorted[j].rva - sorted[k].rva;
  }

  /**
   * After the loop every entry holds its `Sized` value: the sorted positions
   * before `k` were written, and the rest have nothing above them.
   */
  lemma LoopDone(entries: seq<Entry>, sorted: seq<Placed>, k: nat, stopped: bool)
    requires SortedParticipants(entries, sorted) && k <= |sorted|
    requires k + 1 >= |sorted| || stopped
    requires stopped ==> k < |sorted| && forall q :: k < q < |sorted| ==> sorted[q].rva == sorted[k].rva
    ensures forall i :: 0 <= i < |entries| ==> Written(entries, sorted, k)[i] == Sized(entries, i)
  {
    var out := Written(entries, sorted, k);
    WrittenProgress(entries, sorted, k);
    forall i | 0 <= i < |entries| ensures out[i] == Sized(entries, i) {
      if Takes(entries[i].symbol) {
        var p := PositionOf(entries, sorted, i);
        if p >= k {
          if stopped {
            forall q | p < q < |sorted| ensures sorted[q].rva == sorted[p].rva {
              if p > k { assert sorted[p].rva == sorted[k].rva; }
            }
          }
          NoneAbove(entries, sorted, p);
        }
      }
    }
  }

  /**
   * The `find` over the later sorted entries: the first position after `k`
   * whose address differs from the one at `k`, or the length when there is none.
   */
  method FindOther(sorted: seq<Placed>, k: nat) returns (j: nat)
    requires k < |sorted|
    ensures k < j <= |sorted|
    ensures forall q :: k < q < j ==> sorted[q].rva == sorted[k].rva
    ensures j < |sorted| ==> sorted[j].rva != sorted[k].rva
  {
    j := k + 1;
    while j < |sorted| && sorted[j].rva == sorted[k].rva
      invariant k < j <= |sorted|
      invariant forall q :: k < q < j ==> sorted[q].rva == sorted[k].rva
    {
      j := j + 1;
    }
  }

  /**
   * The `for` loop over the sorted entries: each entry but the last gets the
   * distance to the first later entry at a different address; the loop stops
   * at the first entry that has none.
   */
  method WriteSizes(entries: seq<Entry>, sorted: seq<Placed>) returns (out: seq<Entry>)
    requires SortedParticipants(entries, sorted)
    ensures |out| == |entries| && forall i :: 0 <= i < |entries| ==> out[i] == Sized(entries, i)
  {
    out := entries;
    var k := 0;
    var stopped := false;
    while k + 1 < |sorted| && !stopped
      invariant k <= |sorted| && out == Written(entries, sorted, k)
      invariant stopped ==> k < |sorted| && forall q :: k < q < |sorted| ==> sorted[q].rva == sorted[k].rva
      decreases |sorted| - k, !stopped
    {
      var start := sorted[k].rva;
      var j := FindOther(sorted, k);
      if j == |sorted| {
        stopped := true;
      } else {
        ghost var at, size := Step(entries, sorted, k, j, out);
        out := out[sorted[k].index := out[sorted[k].index].(info := Some(AddressInfo(sorted[j].rva - start, start)))];
        k := k + 1;
      }
    }
    LoopDone(entries, sorted, k, stopped);
  }

  /**
   * `calculate_size_for_symbols`: `None` when the collection hits a symbol of
   * an unexpected kind; otherwise every entry ends as `Sized` describes.
   */
  method CalculateSizes(entries: seq<Entry>) returns (r: Option<seq<Entry>>)
    ensures r.None? <==> exists i :: 0 <= i < |entries| && entries[i].symbol.Unexpected?
    ensures r.Some? ==> |r.value| == |entries| && forall i :: 0 <= i < |entries| ==> r.value[i] == Sized(entries, i)
  {
    var collected := Collect(entries, |entries|);
    if collected.None? {
      return None;
    }
    var sorted := SortByRva(collected.value);
    SortedCollection(entries, collected.value);
    var out := WriteSizes(entries, sorted);
    return Some(out);
  }
}
