/**
 * Decoding a virtual function table found in the shell DLL: the table's bytes
 * are read as little-endian 64-bit addresses, each is turned into an address
 * relative to the image base, and that address is looked up among the sized
 * symbols.
 */
module Vtables {
  import opened Wrappers
  import opened Machine
  import Bytes
  import SymbolSizes

  /** The width of one table slot on a 64-bit image. */
  const WORD: nat := 8

  lemma WordLimit()
    ensures Bytes.Pow256(WORD) == U64_LIMIT
  {
  }

  /** `chunks_exact(8)` read with `u64::from_le_bytes`; the bytes after the last whole word are ignored. */
  function Words(data: seq<Byte>): (w: seq<U64>)
    ensures |w| == |data| / WORD
    decreases |data|
  {
    if |data| < WORD then []
    else
      WordLimit();
      [Bytes.LeValue(data[..WORD])] + Words(data[WORD..])
  }

  /** Word `i` is the little-endian value of bytes `8i .. 8i + 8`. */
  lemma {:induction false} WordsAt(data: seq<Byte>, i: nat)
    requires i < |data| / WORD
    ensures Words(data)[i] == Bytes.LeValue(data[WORD * i .. WORD * i + WORD])
    decreases i
  {
    if i > 0 {
      WordsAt(data[WORD..], i - 1);
      assert data[WORD..][WORD * (i - 1) .. WORD * (i - 1) + WORD] == data[WORD * i .. WORD * i + WORD];
    }
  }

  /** The bytes of a table of addresses, as the image stores them. */
  function Encode(ws: seq<U64>): (data: seq<Byte>)
    ensures |data| == WORD * |ws|
  {
    if ws == [] then []
    else
      WordLimit();
      Bytes.LeBytes(ws[0], WORD) + Encode(ws[1..])
  }

  /** Reading the stored table gives back its addresses, whatever partial word follows it. */
  lemma {:induction false} WordsOfEncode(ws: seq<U64>, tail: seq<Byte>)
    requires |tail| < WORD
    ensures Words(Encode(ws) + tail) == ws
    decreases |ws|
  {
    var data := Encode(ws) + tail;
    if ws == [] {
      assert data == tail;
    } else {
      WordLimit();
      var first := Bytes.LeBytes(ws[0], WORD);
      assert data == first + (Encode(ws[1..]) + tail);
      assert data[..WORD] == first;
      assert data[WORD..] == Encode(ws[1..]) + tail;
      Bytes.LeValueOfLeBytes(ws[0], WORD);
      WordsOfEncode(ws[1..], tail);
    }
  }

  // ---------------------------------------------------------------------------
  // The address lookup

  /** Entry `i` has a computed size and starts at `a`. */
  predicate Addressed(entries: seq<SymbolSizes.Entry>, i: int, a: U32)
    requires 0 <= i < |entries|
  {
    entries[i].info.Some? && entries[i].info.value.rva == a
  }

  /**
   * The `symbol_lookup` map from address to symbol, filled from the first `n`
   * sized entries in order, so that a later symbol at the same address
   * replaces an earlier one.
   */
  function Lookup(entries: seq<SymbolSizes.Entry>, n: nat): (m: map<U32, nat>)
    requires n <= |entries|
    ensures forall a :: a in m <==> exists i :: 0 <= i < n && Addressed(entries, i, a)
    ensures forall a :: a in m ==> m[a] < n && Addressed(entries, m[a], a)
    ensures forall a, j :: a in m && m[a] < j < n ==> !Addressed(entries, j, a)
  {
    if n == 0 then map[]
    else
      var m := Lookup(entries, n - 1);
      match entries[n - 1].info
      case Some(info) =>
        assert Addressed(entries, n - 1, info.rva);
        m[info.rva := n - 1]
      case None => m
  }

  /** One slot of a decoded table: the symbol found at its address, or the address itself. */
  datatype Slot = Method(symbol: nat) | Unknown(address: U64)

  /**
   * One table word: the image base is subtracted with saturation; an address
   * that does not fit in 32 bits, or that no symbol starts at, is unknown.
   */
  function Resolve(word: U64, imageBase: U64, lookup: map<U32, nat>): (s: Slot)
    ensures s.Method? <==> FitsU32(SaturatingSub(word, imageBase)) && SaturatingSub(word, imageBase) in lookup
    ensures s.Method? ==> s.symbol == lookup[SaturatingSub(word, imageBase)]
    ensures s.Unknown? ==> s.address == SaturatingSub(word, imageBase)
  {
    var at := SaturatingSub(word, imageBase);
    if !FitsU32(at) then Unknown(at)
    else if at in lookup then Method(lookup[at])
    else Unknown(at)
  }

  /**
   * A slot names a symbol exactly when some sized symbol starts at the slot's
   * address: the last such symbol, whose address plus the image base is the
   * stored word (or the word lies below the base and the symbol at zero).
   */
  lemma ResolveMeaning(word: U64, imageBase: U64, entries: seq<SymbolSizes.Entry>)
    ensures var s := Resolve(word, imageBase, Lookup(entries, |entries|));
      && (s.Unknown? ==> s.address == SaturatingSub(word, imageBase))
      && (s.Method? <==> (FitsU32(SaturatingSub(word, imageBase)) &&
            exists i :: 0 <= i < |entries| && Addressed(entries, i, SaturatingSub(word, imageBase))))
      && (s.Method? ==> (s.symbol < |entries| && entries[s.symbol].info.Some? &&
            (if word >= imageBase then entries[s.symbol].info.value.rva + imageBase == word
             else entries[s.symbol].info.value.rva == 0)))
  {
  }

  /**
   * The slots of the table at `rva` with `size` bytes; `None` when the range
   * runs past the image, where the slicing panics.
   */
  function Decode(image: seq<Byte>, rva: U32, size: U32, imageBase: U64, lookup: map<U32, nat>): (r: Option<seq<Slot>>)
    ensures r.None? <==> rva > |image| || size > |image| - rva
    ensures r.Some? ==> |r.value| == size / WORD
    ensures r.Some? ==> forall i :: 0 <= i < size / WORD ==>
      r.value[i] == Resolve(Bytes.LeValue(image[rva + WORD * i .. rva + WORD * i + WORD]), imageBase, lookup)
  {
    if rva > |image| || size > |image| - rva then None
    else
      var ws := Words(image[rva..][..size]);
      WordsInImage(image, rva, size);
      Some(seq(|ws|, i requires 0 <= i < |ws| => Resolve(ws[i], imageBase, lookup)))
  }

  /** Word `i` of the table sits at byte `rva + 8i` of the image. */
  lemma WordsInImage(image: seq<Byte>, rva: nat, size: nat)
    requires rva + size <= |image|
    ensures forall i :: 0 <= i < size / WORD ==>
      Words(image[rva..][..size])[i] == Bytes.LeValue(image[rva + WORD * i .. rva + WORD * i + WORD])
  {
    var data := image[rva..][..size];
    forall i | 0 <= i < size / WORD
      ensures Words(data)[i] == Bytes.LeValue(image[rva + WORD * i .. rva + WORD * i + WORD])
    {
      WordsAt(data, i);
      assert data[WORD * i .. WORD * i + WORD] == image[rva + WORD * i .. rva + WORD * i + WORD];
    }
  }

  /**
   * The table of a dumped symbol: its address and estimated size, each zero
   * when missing (`unwrap_or_default`).
   */
  function SymbolTable(image: seq<Byte>, e: SymbolSizes.Entry, imageBase: U64, lookup: map<U32, nat>): (r: Option<seq<Slot>>)
    requires e.symbol.Public?
    ensures e.info.None? ==> (r == Some([]) <==> e.symbol.rva.UnwrapOr(0) <= |image|)
    ensures e.symbol.rva.None? ==> (r.Some? <==> e.info.None? || e.info.value.size <= |image|)
    ensures r.Some? && e.info.Some? ==> |r.value| == e.info.value.size / WORD
  {
    var rva := e.symbol.rva.UnwrapOr(0);
    var size := e.info.UnwrapOr(SymbolSizes.AddressInfo(0, 0)).size;
    Decode(image, rva, size, imageBase, lookup)
  }
}
