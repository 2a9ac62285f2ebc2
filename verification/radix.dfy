/**
 * Text to integer and back, as Rust's `u32::from_str_radix` (and `str::parse::<u32>`,
 * which is the radix-10 case) reads it and as the `{:x}` / `{:X}` / `{:08X}` format
 * specifiers write it.
 *
 * Strings are sequences of Unicode scalar values. Rust measures and slices `&str`
 * in UTF-8 bytes, so the byte length of every character is modelled too.
 */
module Radix {
  import opened Wrappers
  import opened Machine

  predicate ValidRadix(radix: nat)
  {
    2 <= radix <= 36
  }

  /** `char::to_digit(radix)`: ASCII digits and letters of either case, below the radix. */
  function DigitValue(c: char, radix: nat): (r: Option<nat>)
    requires ValidRadix(radix)
    ensures r.Some? ==> r.value < radix
    ensures r.Some? ==> c as int < 0x80
    ensures '0' <= c <= '9' && (c as int - '0' as int) < radix ==> r == Some(c as int - '0' as int)
  {
    var d :=
      if '0' <= c <= '9' then c as int - '0' as int
      else if 'a' <= c <= 'z' then c as int - 'a' as int + 10
      else if 'A' <= c <= 'Z' then c as int - 'A' as int + 10
      else 36;
    if d < radix then Some(d) else None
  }

  predicate AllDigits(s: string, radix: nat)
    requires ValidRadix(radix)
  {
    forall i :: 0 <= i < |s| ==> DigitValue(s[i], radix).Some?
  }

  /** The positional value of a digit string, most significant digit first. */
  function DigitsValue(s: string, radix: nat): nat
    requires ValidRadix(radix) && AllDigits(s, radix)
  {
    if |s| == 0 then 0
    else DigitsValue(s[..|s| - 1], radix) * radix + DigitValue(s[|s| - 1], radix).value
  }

  function Pow(b: nat, e: nat): (r: nat)
    ensures b >= 1 ==> r >= 1
  {
    if e == 0 then 1 else b * Pow(b, e - 1)
  }

  /**
   * `u32::from_str_radix(s, radix)`. An empty string and a lone sign are rejected; one
   * leading `+` is accepted and skipped; `-` is never a valid digit for an unsigned type;
   * every other character must be a digit of the radix; a value of 2^32 or more
   * overflows. Every failure is `None` (the error kinds are not distinguished).
   */
  function ParseU32(s: string, radix: nat): (r: Option<U32>)
    requires ValidRadix(radix)
    ensures |s| == 0 ==> r.None?
    ensures r.Some? ==> forall i :: 0 < i < |s| ==> DigitValue(s[i], radix).Some?
    ensures r.Some? && s[0] != '+' ==> AllDigits(s, radix) && r.value == DigitsValue(s, radix)
  {
    if |s| == 0 then None
    else if (s[0] == '+' || s[0] == '-') && |s| == 1 then None
    else
      var digits := if s[0] == '+' then s[1..] else s;
      if AllDigits(digits, radix) && DigitsValue(digits, radix) < U32_LIMIT
      then Some(DigitsValue(digits, radix))
      else None
  }

  /** The digit character for `d`, upper- or lower-case for the letters. */
  function DigitChar(d: nat, upper: bool): (c: char)
    requires d < 36
    ensures c as int < 0x80
    ensures forall radix :: ValidRadix(radix) && d < radix ==> DigitValue(c, radix) == Some(d)
  {
    if d < 10 then ('0' as int + d) as char
    else if upper then ('A' as int + d - 10) as char
    else ('a' as int + d - 10) as char
  }

  lemma {:induction false} DigitsValueSnoc(s: string, c: char, radix: nat)
    requires ValidRadix(radix) && AllDigits(s, radix) && DigitValue(c, radix).Some?
    ensures AllDigits(s + [c], radix)
    ensures DigitsValue(s + [c], radix) == DigitsValue(s, radix) * radix + DigitValue(c, radix).value
  {
    assert (s + [c])[..|s|] == s;
    assert (s + [c])[|s|] == c;
  }

  /**
   * The shortest digit string of `n` in `radix` ("0" for zero): what `{:x}` and `{:X}`
   * print. Reading it back gives `n`.
   */
  function ToDigits(n: nat, radix: nat, upper: bool): (s: string)
    requires ValidRadix(radix)
    ensures 1 <= |s|
    ensures AllDigits(s, radix) && DigitsValue(s, radix) == n
    ensures n > 0 ==> DigitValue(s[0], radix) != Some(0)
    ensures forall i :: 0 <= i < |s| ==> s[i] as int < 0x80
    decreases n
  {
    if n < radix then
      var s := [DigitChar(n, upper)];
      assert s[..0] == [];
      s
    else
      var q, d := n / radix, n % radix;
      DivModFacts(n, radix);
      var prefix := ToDigits(q, radix, upper);
      var c := DigitChar(d, upper);
      var s := prefix + [c];
      DigitsValueSnoc(prefix, c, radix);
      assert s[0] == prefix[0];
      s
  }

  lemma DivModFacts(n: nat, radix: nat)
    requires ValidRadix(radix) && n >= radix
    ensures n == (n / radix) * radix + n % radix && 0 < n / radix < n && n % radix < radix
  {
  }

  /** A value below radix^k never needs more than k digits. */
  lemma {:induction false} ToDigitsWidth(n: nat, radix: nat, upper: bool, k: nat)
    requires ValidRadix(radix) && 1 <= k && n < Pow(radix, k)
    ensures |ToDigits(n, radix, upper)| <= k
    decreases k
  {
    if n >= radix {
      assert Pow(radix, 1) == radix;
      DivBelowPow(n, radix, k);
      ToDigitsWidth(n / radix, radix, upper, k - 1);
    }
  }

  lemma DivBelowPow(n: nat, radix: nat, k: nat)
    requires ValidRadix(radix) && 1 <= k && n < Pow(radix, k)
    ensures n / radix < Pow(radix, k - 1)
  {
    var q, p := n / radix, Pow(radix, k - 1);
    assert q * radix <= n;
    assert n < p * radix;
    MulCancel(q, p, radix);
  }

  lemma MulCancel(q: nat, p: nat, r: nat)
    requires r > 0 && q * r < p * r
    ensures q < p
  {
    if q >= p {
      MulMonotone(p, q, r);
    }
  }

  lemma MulMonotone(p: nat, q: nat, r: nat)
    requires p <= q
    ensures p * r <= q * r
  {
  }

  function Zeros(k: nat): (z: string)
    ensures |z| == k
    ensures forall i :: 0 <= i < k ==> z[i] == '0'
  {
    seq(k, _ => '0')
  }

  lemma {:induction false} LeadingZeros(k: nat, s: string, radix: nat)
    requires ValidRadix(radix) && AllDigits(s, radix)
    ensures AllDigits(Zeros(k) + s, radix)
    ensures DigitsValue(Zeros(k) + s, radix) == DigitsValue(s, radix)
    decreases |s|
  {
    var t := Zeros(k) + s;
    assert AllDigits(t, radix) by {
      forall i | 0 <= i < |t| ensures DigitValue(t[i], radix).Some? {
        if i >= k { assert t[i] == s[i - k]; }
      }
    }
    if |s| == 0 {
      assert t == Zeros(k);
      ZerosValue(k, radix);
    } else {
      var init := s[..|s| - 1];
      assert AllDigits(init, radix) by {
        forall i | 0 <= i < |init| ensures DigitValue(init[i], radix).Some? {
          assert init[i] == s[i];
        }
      }
      LeadingZeros(k, init, radix);
      assert t[..|t| - 1] == Zeros(k) + init;
      assert t[|t| - 1] == s[|s| - 1];
    }
  }

  lemma {:induction false} ZerosValue(k: nat, radix: nat)
    requires ValidRadix(radix)
    ensures AllDigits(Zeros(k), radix)
    ensures DigitsValue(Zeros(k), radix) == 0
    decreases k
  {
    if k > 0 {
      assert Zeros(k)[..k - 1] == Zeros(k - 1);
      ZerosValue(k - 1, radix);
    }
  }

  /** `{:0wX}`: the digits of `n`, left-padded with zeros to at least `width` characters. */
  function PadZeros(s: string, width: nat): (r: string)
    ensures |r| == if |s| >= width then |s| else width
    ensures |s| < width ==> r == Zeros(width - |s|) + s
    ensures |s| >= width ==> r == s
  {
    if |s| >= width then s else Zeros(width - |s|) + s
  }

  /** Reading back the zero-padded form of `n` gives `n`: padding never changes the value. */
  lemma PaddedDigitsValue(n: nat, radix: nat, upper: bool, width: nat)
    requires ValidRadix(radix)
    ensures AllDigits(PadZeros(ToDigits(n, radix, upper), width), radix)
    ensures DigitsValue(PadZeros(ToDigits(n, radix, upper), width), radix) == n
  {
    var s := ToDigits(n, radix, upper);
    if |s| < width {
      LeadingZeros(width - |s|, s, radix);
    }
  }

  /** `ParseU32` reads back every printed u32, padded or not. */
  lemma ParseU32Printed(n: U32, radix: nat, upper: bool, width: nat)
    requires ValidRadix(radix)
    ensures ParseU32(PadZeros(ToDigits(n, radix, upper), width), radix) == Some(n)
  {
    var s := PadZeros(ToDigits(n, radix, upper), width);
    PaddedDigitsValue(n, radix, upper, width);
    assert s[0] != '+' by {
      assert DigitValue(s[0], radix).Some?;
    }
  }

  /** A leading `+` is accepted: "+" followed by an unsigned number parses as that number. */
  lemma ParseU32PlusSign(s: string, radix: nat)
    requires ValidRadix(radix) && |s| > 0 && s[0] != '+'
    ensures ParseU32("+" + s, radix) == ParseU32(s, radix)
  {
    assert ("+" + s)[1..] == s;
  }

  /**
   * The digit string read left to right, as the parser's accumulator loop does: `None`
   * as soon as a character among the first `n` is not a digit of the radix.
   */
  function PrefixValue(s: string, n: nat, radix: nat): (r: Option<nat>)
    requires ValidRadix(radix) && n <= |s|
    ensures r.Some? <==> AllDigits(s[..n], radix)
    ensures r.Some? ==> r.value == DigitsValue(s[..n], radix)
  {
    if n == 0 then
      assert s[..0] == [];
      Some(0)
    else
      assert s[..n] == s[..n - 1] + [s[n - 1]];
      assert s[..n][..n - 1] == s[..n - 1];
      match (PrefixValue(s, n - 1, radix), DigitValue(s[n - 1], radix))
      case (Some(v), Some(d)) =>
        DigitsValueSnoc(s[..n - 1], s[n - 1], radix);
        Some(v * radix + d)
      case (None, _) =>
        assert !AllDigits(s[..n - 1], radix);
        assert !AllDigits(s[..n], radix) by {
          var i :| 0 <= i < n - 1 && DigitValue(s[..n - 1][i], radix).None?;
          assert s[..n][i] == s[..n - 1][i];
        }
        None
      case (_, None) =>
        assert s[..n][n - 1] == s[n - 1];
        None
  }

  /**
   * An unsigned number without a leading `+` parses exactly when the left-to-right reading
   * succeeds and stays below 2^32.
   */
  lemma ParseU32ByPrefix(s: string, radix: nat)
    requires ValidRadix(radix) && |s| > 0 && s[0] != '+'
    ensures ParseU32(s, radix) ==
      match PrefixValue(s, |s|, radix)
      case Some(v) => if v < U32_LIMIT then Some(v) else None
      case None => None
  {
    assert s[..|s|] == s;
    if |s| == 1 && s[0] == '-' {
      assert DigitValue(s[0], radix).None?;
    }
  }

  // ---------------------------------------------------------------------------
  // UTF-8 lengths and byte slicing

  /** The number of bytes UTF-8 uses for the scalar value `c`. */
  function Utf8Len(c: char): (n: nat)
    ensures 1 <= n <= 4
    ensures n == 1 <==> c as int < 0x80
  {
    if c as int < 0x80 then 1
    else if c as int < 0x800 then 2
    else if c as int < 0x1_0000 then 3
    else 4
  }

  /** `str::len`: the UTF-8 byte length. */
  function ByteLen(s: string): (n: nat)
    ensures n >= |s|
  {
    if |s| == 0 then 0 else ByteLen(s[..|s| - 1]) + Utf8Len(s[|s| - 1])
  }

  predicate IsAscii(s: string)
  {
    forall i :: 0 <= i < |s| ==> s[i] as int < 0x80
  }

  lemma {:induction false} AsciiByteLen(s: string)
    requires IsAscii(s)
    ensures ByteLen(s) == |s|
  {
    if |s| > 0 {
      var init := s[..|s| - 1];
      assert IsAscii(init) by {
        forall i | 0 <= i < |init| ensures init[i] as int < 0x80 {
          assert init[i] == s[i];
        }
      }
      AsciiByteLen(init);
    }
  }

  /**
   * The number of characters whose bytes end exactly at byte offset `b`, or `None` when
   * `b` falls inside a character or beyond the end: `&s[..b]` panics in that case.
   */
  function CharsBefore(s: string, b: nat): (r: Option<nat>)
    ensures r.Some? ==> r.value <= |s| && ByteLen(s[..r.value]) == b
    ensures b == 0 ==> r == Some(0)
    decreases |s|
  {
    if b == 0 then
      assert s[..0] == [];
      Some(0)
    else if |s| == 0 then None
    else
      var last := s[|s| - 1];
      var init := s[..|s| - 1];
      if b == ByteLen(s) then
        assert s[..|s|] == s;
        Some(|s|)
      else if b > ByteLen(s) then None
      else
        match CharsBefore(init, b)
        case None => None
        case Some(k) =>
          assert s[..k] == init[..k];
          Some(k)
  }

  /** A prefix never takes more bytes than the whole, and a proper prefix takes fewer. */
  lemma {:induction false} PrefixByteLen(s: string, k: nat)
    requires k <= |s|
    ensures ByteLen(s[..k]) <= ByteLen(s)
    ensures k < |s| ==> ByteLen(s[..k]) < ByteLen(s)
    decreases |s|
  {
    if k < |s| {
      var init := s[..|s| - 1];
      assert s[..k] == init[..k];
      assert init[..|init|] == init;
      PrefixByteLen(init, k);
    } else {
      assert s[..k] == s;
    }
  }

  /**
   * `CharsBefore` misses exactly the offsets that are no character boundary: it answers
   * `None` precisely when no prefix of `s` is `b` bytes long.
   */
  lemma {:induction false} CharsBeforeNone(s: string, b: nat)
    ensures CharsBefore(s, b).None? <==> forall k :: 0 <= k <= |s| ==> ByteLen(s[..k]) != b
    decreases |s|
  {
    if CharsBefore(s, b).None? {
      forall k | 0 <= k <= |s| ensures ByteLen(s[..k]) != b {
        if |s| > 0 && 0 < b < ByteLen(s) {
          var init := s[..|s| - 1];
          CharsBeforeNone(init, b);
          if k < |s| {
            assert s[..k] == init[..k];
          } else {
            assert s[..k] == s;
          }
        } else if b > ByteLen(s) {
          PrefixByteLen(s, k);
        } else {
          assert s[..0] == [];
        }
      }
    }
  }

  /** Every offset of an ASCII string is a character boundary. */
  lemma {:induction false} AsciiCharsBefore(s: string, b: nat)
    requires IsAscii(s) && b <= |s|
    ensures CharsBefore(s, b) == Some(b)
    decreases |s|
  {
    AsciiByteLen(s);
    if b != 0 && b != |s| {
      var init := s[..|s| - 1];
      assert IsAscii(init) by {
        forall i | 0 <= i < |init| ensures init[i] as int < 0x80 {
          assert init[i] == s[i];
        }
      }
      AsciiCharsBefore(init, b);
    }
  }
}
