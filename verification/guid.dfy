/**
 * Interface ids (GUIDs) as 128-bit values, their hyphenated text form and the
 * mixed-endian byte layout a GUID has in memory.
 *
 * A GUID value `g` is the number whose 32 hexadecimal digits are the digits of the
 * text form with the hyphens removed, as `GUID::from_u128(0x...)` reads it.
 */
module Guid {
  import opened Wrappers
  import opened Machine
  import Radix
  import Bytes

  const GUID_LIMIT: int := 0x1_0000_0000_0000_0000_0000_0000_0000_0000

  type Guid = x: int | 0 <= x < GUID_LIMIT

  /** `GUID::zeroed()`. */
  const ZERO: Guid := 0

  // ---------------------------------------------------------------------------
  // Fields of a GUID, most significant first: 8-4-4-4-12 hex digits.

  const P16: nat := 0x1_0000
  const P48: nat := 0x1_0000_0000_0000
  const P64: nat := 0x1_0000_0000_0000_0000
  const P80: nat := 0x1_0000_0000_0000_0000_0000
  const P96: nat := 0x1_0000_0000_0000_0000_0000_0000

  function Data1(g: Guid): nat { g / P96 }
  function Data2(g: Guid): nat { (g / P80) % P16 }
  function Data3(g: Guid): nat { (g / P64) % P16 }
  function ClockSeq(g: Guid): nat { (g / P48) % P16 }
  function Node(g: Guid): nat { g % P48 }

  function Compose(d1: nat, d2: nat, d3: nat, d4: nat, node: nat): int
  {
    (((d1 * P16 + d2) * P16 + d3) * P16 + d4) * P48 + node
  }

  lemma FieldsCompose(g: Guid)
    ensures Data1(g) < 0x1_0000_0000 && Node(g) < P48
    ensures Compose(Data1(g), Data2(g), Data3(g), ClockSeq(g), Node(g)) == g
  {
    var a := g / P48;
    assert g == a * P48 + Node(g);
    var b := a / P16;
    assert a == b * P16 + ClockSeq(g);
    var c := b / P16;
    assert b == c * P16 + Data3(g);
    var d := c / P16;
    assert c == d * P16 + Data2(g);
    assert d == Data1(g);
  }

  lemma ComposeFields(d1: nat, d2: nat, d3: nat, d4: nat, node: nat)
    requires d1 < 0x1_0000_0000 && d2 < P16 && d3 < P16 && d4 < P16 && node < P48
    ensures 0 <= Compose(d1, d2, d3, d4, node) < GUID_LIMIT
    ensures var g: Guid := Compose(d1, d2, d3, d4, node);
      Data1(g) == d1 && Data2(g) == d2 && Data3(g) == d3 && ClockSeq(g) == d4 && Node(g) == node
  {
    var c := d1 * P16 + d2;
    var b := c * P16 + d3;
    var a := b * P16 + d4;
    var g := a * P48 + node;
    assert g / P48 == a && g % P48 == node;
    assert a / P16 == b && a % P16 == d4;
    assert b / P16 == c && b % P16 == d3;
    assert c / P16 == d1 && c % P16 == d2;
    assert g / P64 == b by { assert g / P64 == (g / P48) / P16; }
    assert g / P80 == c by { assert g / P80 == ((g / P48) / P16) / P16; }
    assert g / P96 == d1 by { assert g / P96 == (((g / P48) / P16) / P16) / P16; }
  }

  // ---------------------------------------------------------------------------
  // Text form

  predicate IsHexGroup(s: string)
  {
    Radix.AllDigits(s, 16)
  }

  function HexGroup(s: string): nat
    requires IsHexGroup(s)
  {
    Radix.DigitsValue(s, 16)
  }

  /**
   * Reads "XXXXXXXX-XXXX-XXXX-XXXX-XXXXXXXXXXXX", hexadecimal digits of either case.
   * Anything else is `None`.
   */
  function Parse(s: string): (r: Option<Guid>)
    ensures r.Some? ==> |s| == 36 && s[8] == '-' && s[13] == '-' && s[18] == '-' && s[23] == '-'
  {
    if |s| != 36 || s[8] != '-' || s[13] != '-' || s[18] != '-' || s[23] != '-' then None
    else if !(IsHexGroup(s[..8]) && IsHexGroup(s[9..13]) && IsHexGroup(s[14..18])
              && IsHexGroup(s[19..23]) && IsHexGroup(s[24..])) then None
    else
      var d1, d2, d3, d4, node :=
        HexGroup(s[..8]), HexGroup(s[9..13]), HexGroup(s[14..18]), HexGroup(s[19..23]), HexGroup(s[24..]);
      GroupBounds(s[..8]);
      GroupBounds(s[9..13]);
      GroupBounds(s[14..18]);
      GroupBounds(s[19..23]);
      GroupBounds(s[24..]);
      Pow16Facts();
      ComposeFields(d1, d2, d3, d4, node);
      Some(Compose(d1, d2, d3, d4, node))
  }

  lemma {:induction false} GroupBounds(s: string)
    requires IsHexGroup(s)
    ensures HexGroup(s) < Radix.Pow(16, |s|)
    decreases |s|
  {
    if |s| > 0 {
      var init := s[..|s| - 1];
      assert IsHexGroup(init) by {
        forall i | 0 <= i < |init| ensures Radix.DigitValue(init[i], 16).Some? {
          assert init[i] == s[i];
        }
      }
      GroupBounds(init);
      var d := Radix.DigitValue(s[|s| - 1], 16).value;
      assert HexGroup(s) == HexGroup(init) * 16 + d;
      assert HexGroup(s) <= (Radix.Pow(16, |init|) - 1) * 16 + 15;
    }
  }

  /** A field printed as exactly `width` hexadecimal digits. */
  function Field(x: nat, width: nat, upper: bool): (s: string)
    requires 1 <= width && x < Radix.Pow(16, width)
    ensures |s| == width
    ensures IsHexGroup(s) && HexGroup(s) == x
    ensures '-' !in s
  {
    Radix.ToDigitsWidth(x, 16, upper, width);
    Radix.PaddedDigitsValue(x, 16, upper, width);
    var s := Radix.PadZeros(Radix.ToDigits(x, 16, upper), width);
    assert '-' !in s by {
      forall i | 0 <= i < |s| ensures s[i] != '-' {
        assert Radix.DigitValue(s[i], 16).Some?;
      }
    }
    s
  }

  lemma Pow16Facts()
    ensures Radix.Pow(16, 4) == P16
    ensures Radix.Pow(16, 8) == 0x1_0000_0000
    ensures Radix.Pow(16, 12) == P48
  {
    assert Radix.Pow(16, 4) == P16;
    assert Radix.Pow(16, 8) == Radix.Pow(16, 4) * Radix.Pow(16, 4) by { PowAdd(16, 4, 4); }
    assert Radix.Pow(16, 12) == Radix.Pow(16, 8) * Radix.Pow(16, 4) by { PowAdd(16, 8, 4); }
  }

  lemma {:induction false} PowAdd(b: nat, m: nat, n: nat)
    ensures Radix.Pow(b, m + n) == Radix.Pow(b, m) * Radix.Pow(b, n)
    decreases m
  {
    if m > 0 {
      PowAdd(b, m - 1, n);
    }
  }

  /**
   * The hyphenated text form, upper- or lower-case: what `{:X}` / `{:x}` print for a
   * `uuid::Uuid`, and the form the interface declarations are written in.
   */
  function Format(g: Guid, upper: bool): (s: string)
    ensures |s| == 36
  {
    FieldsCompose(g);
    Pow16Facts();
    Field(Data1(g), 8, upper) + "-" + Field(Data2(g), 4, upper) + "-" + Field(Data3(g), 4, upper)
      + "-" + Field(ClockSeq(g), 4, upper) + "-" + Field(Node(g), 12, upper)
  }

  /** Parsing the printed form gives the GUID back, in either case. */
  lemma ParseFormat(g: Guid, upper: bool)
    ensures Parse(Format(g, upper)) == Some(g)
  {
    FieldsCompose(g);
    Pow16Facts();
    var f1, f2, f3, f4, f5 :=
      Field(Data1(g), 8, upper), Field(Data2(g), 4, upper), Field(Data3(g), 4, upper),
      Field(ClockSeq(g), 4, upper), Field(Node(g), 12, upper);
    var s := Format(g, upper);
    assert s == f1 + "-" + f2 + "-" + f3 + "-" + f4 + "-" + f5;
    Joined(f1, f2, f3, f4, f5);
  }

  lemma Joined(f1: string, f2: string, f3: string, f4: string, f5: string)
    requires |f1| == 8 && |f2| == 4 && |f3| == 4 && |f4| == 4 && |f5| == 12
    ensures var s := f1 + "-" + f2 + "-" + f3 + "-" + f4 + "-" + f5;
      |s| == 36 && s[8] == '-' && s[13] == '-' && s[18] == '-' && s[23] == '-'
      && s[..8] == f1 && s[9..13] == f2 && s[14..18] == f3 && s[19..23] == f4 && s[24..] == f5
  {
  }

  // ---------------------------------------------------------------------------
  // Case

  function AsciiLower(c: char): (r: char)
    ensures 'A' <= c <= 'Z' ==> r as int == c as int + 32
    ensures !('A' <= c <= 'Z') ==> r == c
  {
    if 'A' <= c <= 'Z' then (c as int + 32) as char else c
  }

  function LowerText(s: string): (r: string)
    ensures |r| == |s|
    ensures forall i :: 0 <= i < |s| ==> r[i] == AsciiLower(s[i])
  {
    seq(|s|, i requires 0 <= i < |s| => AsciiLower(s[i]))
  }

  lemma {:induction false} LowerGroup(s: string)
    ensures IsHexGroup(LowerText(s)) <==> IsHexGroup(s)
    ensures IsHexGroup(s) ==> HexGroup(LowerText(s)) == HexGroup(s)
    decreases |s|
  {
    var t := LowerText(s);
    forall i | 0 <= i < |s| ensures Radix.DigitValue(t[i], 16) == Radix.DigitValue(s[i], 16) {
    }
    if |s| > 0 && IsHexGroup(s) {
      var init := s[..|s| - 1];
      assert LowerText(init) == t[..|t| - 1];
      assert IsHexGroup(init) by {
        forall i | 0 <= i < |init| ensures Radix.DigitValue(init[i], 16).Some? {
          assert init[i] == s[i];
        }
      }
      LowerGroup(init);
    }
  }

  /**
   * The text form is case-insensitive: a declaration written in lower case
   * ("0cd45e71-...") denotes the same IID as the upper-case spelling.
   */
  lemma ParseIgnoresCase(s: string)
    ensures Parse(LowerText(s)) == Parse(s)
  {
    var t := LowerText(s);
    if |s| == 36 {
      assert t[..8] == LowerText(s[..8]);
      assert t[9..13] == LowerText(s[9..13]);
      assert t[14..18] == LowerText(s[14..18]);
      assert t[19..23] == LowerText(s[19..23]);
      assert t[24..] == LowerText(s[24..]);
      LowerGroup(s[..8]);
      LowerGroup(s[9..13]);
      LowerGroup(s[14..18]);
      LowerGroup(s[19..23]);
      LowerGroup(s[24..]);
    }
  }

  // ---------------------------------------------------------------------------
  // Memory layout

  /**
   * `uuid::Uuid::from_slice_le`: the 16 bytes of a GUID as Windows stores it. The first
   * three fields are little-endian, the last eight bytes are in order. Any other length
   * is an error.
   */
  function FromBytesLe(b: seq<Byte>): (r: Option<Guid>)
    ensures r.Some? <==> |b| == 16
  {
    if |b| != 16 then None
    else
      var d1 := Bytes.LeValue(b[..4]);
      var d2 := Bytes.LeValue(b[4..6]);
      var d3 := Bytes.LeValue(b[6..8]);
      var d4 := Bytes.BeValue(b[8..10]);
      var node := Bytes.BeValue(b[10..]);
      PowBytes();
      ComposeFields(d1, d2, d3, d4, node);
      Some(Compose(d1, d2, d3, d4, node))
  }

  /** The in-memory bytes of a GUID. */
  function ToBytesLe(g: Guid): (b: seq<Byte>)
    ensures |b| == 16
  {
    FieldsCompose(g);
    PowBytes();
    Bytes.LeBytes(Data1(g), 4) + Bytes.LeBytes(Data2(g), 2) + Bytes.LeBytes(Data3(g), 2)
      + Bytes.BeBytes(ClockSeq(g), 2) + Bytes.BeBytes(Node(g), 6)
  }

  lemma PowBytes()
    ensures Bytes.Pow256(2) == P16 && Bytes.Pow256(4) == 0x1_0000_0000 && Bytes.Pow256(6) == P48
  {
    assert Bytes.Pow256(2) == P16;
    assert Bytes.Pow256(4) == Bytes.Pow256(2) * Bytes.Pow256(2) by { PowAdd(256, 2, 2); }
    assert Bytes.Pow256(6) == Bytes.Pow256(4) * Bytes.Pow256(2) by { PowAdd(256, 4, 2); }
  }

  lemma BytesLeRoundTrip(g: Guid)
    ensures FromBytesLe(ToBytesLe(g)) == Some(g)
  {
    FieldsCompose(g);
    PowBytes();
    var b1, b2, b3 := Bytes.LeBytes(Data1(g), 4), Bytes.LeBytes(Data2(g), 2), Bytes.LeBytes(Data3(g), 2);
    var b4, b5 := Bytes.BeBytes(ClockSeq(g), 2), Bytes.BeBytes(Node(g), 6);
    var b := ToBytesLe(g);
    assert b == b1 + b2 + b3 + b4 + b5;
    assert b[..4] == b1 && b[4..6] == b2 && b[6..8] == b3 && b[8..10] == b4 && b[10..] == b5;
    Bytes.LeValueOfLeBytes(Data1(g), 4);
    Bytes.LeValueOfLeBytes(Data2(g), 2);
    Bytes.LeValueOfLeBytes(Data3(g), 2);
    Bytes.BeValueOfBeBytes(ClockSeq(g), 2);
    Bytes.BeValueOfBeBytes(Node(g), 6);
  }

  lemma BytesLeRoundTripBack(b: seq<Byte>)
    requires |b| == 16
    ensures ToBytesLe(FromBytesLe(b).value) == b
  {
    var g := FromBytesLe(b).value;
    FromBytesFields(b);
    PowBytes();
    assert Bytes.LeBytes(Data1(g), 4) == b[..4] by { Bytes.LeBytesOfLeValue(b[..4]); }
    assert Bytes.LeBytes(Data2(g), 2) == b[4..6] by { Bytes.LeBytesOfLeValue(b[4..6]); }
    assert Bytes.LeBytes(Data3(g), 2) == b[6..8] by { Bytes.LeBytesOfLeValue(b[6..8]); }
    assert Bytes.BeBytes(ClockSeq(g), 2) == b[8..10] by { Bytes.BeBytesOfBeValue(b[8..10]); }
    assert Bytes.BeBytes(Node(g), 6) == b[10..] by { Bytes.BeBytesOfBeValue(b[10..]); }
    assert b == b[..4] + b[4..6] + b[6..8] + b[8..10] + b[10..];
  }

  /** The fields of the GUID read from 16 bytes are the values of their byte ranges. */
  lemma FromBytesFields(b: seq<Byte>)
    requires |b| == 16
    ensures var g := FromBytesLe(b).value;
      && Data1(g) == Bytes.LeValue(b[..4]) && Data2(g) == Bytes.LeValue(b[4..6])
      && Data3(g) == Bytes.LeValue(b[6..8]) && ClockSeq(g) == Bytes.BeValue(b[8..10])
      && Node(g) == Bytes.BeValue(b[10..])
  {
    PowBytes();
    ComposeFields(Bytes.LeValue(b[..4]), Bytes.LeValue(b[4..6]), Bytes.LeValue(b[6..8]),
      Bytes.BeValue(b[8..10]), Bytes.BeValue(b[10..]));
  }
}
