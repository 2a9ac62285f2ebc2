/**
 * The code id of a PE file, as the symbol dumper names binaries on a symbol
 * server: the COFF timestamp printed as eight upper-case hex digits, followed
 * by the image size in lower-case hex without padding.
 */
module PeCodeIds {
  import opened Wrappers
  import opened Machine
  import Radix

  datatype PeCodeId = PeCodeId(timestamp: U32, imageSize: U32)

  /** Why `from_str` gives no code id. */
  datatype Failure =
    | Rejected          // `Err(())`: a bad length or a field that is not a hex u32
    | NotCharBoundary   // `&s[..8]` panics: byte 8 falls inside a character

  /**
   * `PeCodeId::from_str`. Lengths are UTF-8 byte lengths; the split after byte 8
   * panics when that byte is not a character boundary; each half is read by
   * `u32::from_str_radix(_, 16)`, which also takes one leading `+`.
   */
  function FromStr(s: string): (r: Result<PeCodeId, Failure>)
    ensures Radix.ByteLen(s) < 9 || Radix.ByteLen(s) > 16 ==> r == Err(Rejected)
    ensures r == Err(NotCharBoundary) <==> 9 <= Radix.ByteLen(s) <= 16 && Radix.CharsBefore(s, 8).None?
    ensures r.Ok? ==> exists k :: (0 < k < |s| && Radix.ByteLen(s[..k]) == 8 &&
      Radix.ParseU32(s[..k], 16) == Some(r.value.timestamp) && Radix.ParseU32(s[k..], 16) == Some(r.value.imageSize))
  {
    var n := Radix.ByteLen(s);
    if n < 9 || n > 16 then Err(Rejected)
    else match Radix.CharsBefore(s, 8)
      case None => Err(NotCharBoundary)
      case Some(k) =>
        match (Radix.ParseU32(s[..k], 16), Radix.ParseU32(s[k..], 16))
        case (Some(t), Some(z)) =>
          assert 0 < k by { assert s[..0] == []; }
          assert k < |s| by { assert s[..|s|] == s; }
          Ok(PeCodeId(t, z))
        case _ => Err(Rejected)
  }

  /** `Display`: `{:08X}{:x}`. */
  function ToString(c: PeCodeId): (s: string)
    ensures 9 <= |s| <= 16 && Radix.IsAscii(s)
    ensures s[..8] == TimestampText(c.timestamp)
  {
    var head, tail := TimestampText(c.timestamp), Radix.ToDigits(c.imageSize, 16, false);
    TimestampWidth(c.timestamp);
    assert Radix.Pow(16, 8) == U32_LIMIT;
    Radix.ToDigitsWidth(c.imageSize, 16, false, 8);
    AsciiJoin(head, tail);
    assert (head + tail)[..8] == head;
    head + tail
  }

  /** The first field: the timestamp in exactly eight upper-case hex digits. */
  function TimestampText(t: U32): (s: string)
  {
    Radix.PadZeros(Radix.ToDigits(t, 16, true), 8)
  }

  lemma TimestampWidth(t: U32)
    ensures |TimestampText(t)| == 8 && Radix.IsAscii(TimestampText(t))
  {
    assert Radix.Pow(16, 8) == U32_LIMIT;
    Radix.ToDigitsWidth(t, 16, true, 8);
    PaddedAscii(Radix.ToDigits(t, 16, true), 8);
  }

  lemma PaddedAscii(d: string, width: nat)
    requires Radix.IsAscii(d)
    ensures Radix.IsAscii(Radix.PadZeros(d, width))
  {
    if |d| < width {
      AsciiJoin(Radix.Zeros(width - |d|), d);
    }
  }

  lemma AsciiJoin(a: string, b: string)
    requires Radix.IsAscii(a) && Radix.IsAscii(b)
    ensures Radix.IsAscii(a + b)
  {
    forall i | 0 <= i < |a + b| ensures (a + b)[i] as int < 0x80 {
      if i >= |a| { assert (a + b)[i] == b[i - |a|]; }
    }
  }

  /**
   * `from_str` panics exactly when `&s[..8]` does: the length is valid and no prefix
   * of the text is eight bytes long.
   */
  lemma PanicsIffNotBoundary(s: string)
    ensures FromStr(s) == Err(NotCharBoundary) <==>
      9 <= Radix.ByteLen(s) <= 16 && forall k :: 0 <= k <= |s| ==> Radix.ByteLen(s[..k]) != 8
  {
    Radix.CharsBeforeNone(s, 8);
  }

  /** On ASCII text of a valid length the split falls after the eighth character. */
  lemma {:induction false} FromStrAscii(s: string)
    requires Radix.IsAscii(s) && 9 <= |s| <= 16
    ensures FromStr(s) ==
      match (Radix.ParseU32(s[..8], 16), Radix.ParseU32(s[8..], 16))
      case (Some(t), Some(z)) => Ok(PeCodeId(t, z))
      case _ => Err(Rejected)
  {
    Radix.AsciiByteLen(s);
    Radix.AsciiCharsBefore(s, 8);
  }

  /** Every code id reads back from its printed form. */
  lemma ParsePrinted(c: PeCodeId)
    ensures FromStr(ToString(c)) == Ok(c)
  {
    var s := ToString(c);
    FromStrAscii(s);
    assert s[8..] == Radix.ToDigits(c.imageSize, 16, false);
    Radix.ParseU32Printed(c.timestamp, 16, true, 8);
    Radix.ParseU32Printed(c.imageSize, 16, false, 0);
  }

  /** An ASCII text reads as `c` when its two fields do. */
  lemma ReadsAs(s: string, c: PeCodeId)
    requires Radix.IsAscii(s) && 9 <= |s| <= 16
    requires Radix.ParseU32(s[..8], 16) == Some(c.timestamp)
    requires Radix.ParseU32(s[8..], 16) == Some(c.imageSize)
    ensures FromStr(s) == Ok(c)
  {
    FromStrAscii(s);
  }

  /**
   * The parser is looser than the printer: a `+` in front of the image size
   * is accepted, so texts the printer never writes still read as code ids.
   */
  lemma PlusBeforeSize(c: PeCodeId)
    requires c.imageSize < 0x1000_0000
    ensures FromStr(TimestampText(c.timestamp) + "+" + Radix.ToDigits(c.imageSize, 16, false)) == Ok(c)
  {
    var head, tail := TimestampText(c.timestamp), Radix.ToDigits(c.imageSize, 16, false);
    var s := head + "+" + tail;
    TimestampWidth(c.timestamp);
    assert |tail| <= 7 by {
      assert Radix.Pow(16, 7) == 0x1000_0000;
      Radix.ToDigitsWidth(c.imageSize, 16, false, 7);
    }
    assert Radix.IsAscii(s) by {
      AsciiJoin(head, "+");
      AsciiJoin(head + "+", tail);
    }
    assert Radix.ParseU32(s[..8], 16) == Some(c.timestamp) by {
      assert s[..8] == head;
      Radix.ParseU32Printed(c.timestamp, 16, true, 8);
    }
    assert Radix.ParseU32(s[8..], 16) == Some(c.imageSize) by {
      assert s[8..] == "+" + tail;
      Radix.ParseU32Printed(c.imageSize, 16, false, 0);
      Radix.ParseU32PlusSign(tail, 16);
    }
    ReadsAs(s, c);
  }

  /** The same for a `+` in front of a timestamp that fits in seven digits. */
  lemma PlusBeforeTimestamp(c: PeCodeId)
    requires c.timestamp < 0x1000_0000
    ensures FromStr("+" + Radix.PadZeros(Radix.ToDigits(c.timestamp, 16, true), 7) + Radix.ToDigits(c.imageSize, 16, false)) == Ok(c)
  {
    var digits := Radix.ToDigits(c.timestamp, 16, true);
    var head := Radix.PadZeros(digits, 7);
    var tail := Radix.ToDigits(c.imageSize, 16, false);
    var s := "+" + head + tail;
    assert |head| == 7 by {
      assert Radix.Pow(16, 7) == 0x1000_0000;
      Radix.ToDigitsWidth(c.timestamp, 16, true, 7);
    }
    assert |tail| <= 8 by {
      assert Radix.Pow(16, 8) == U32_LIMIT;
      Radix.ToDigitsWidth(c.imageSize, 16, false, 8);
    }
    assert Radix.IsAscii(s) by {
      PaddedAscii(digits, 7);
      AsciiJoin("+", head);
      AsciiJoin("+" + head, tail);
    }
    assert Radix.ParseU32(s[..8], 16) == Some(c.timestamp) by {
      assert s[..8] == "+" + head;
      Radix.ParseU32Printed(c.timestamp, 16, true, 7);
      Radix.PaddedDigitsValue(c.timestamp, 16, true, 7);
      assert head[0] != '+' by { assert Radix.DigitValue(head[0], 16).Some?; }
      Radix.ParseU32PlusSign(head, 16);
    }
    assert Radix.ParseU32(s[8..], 16) == Some(c.imageSize) by {
      assert s[8..] == tail;
      Radix.ParseU32Printed(c.imageSize, 16, false, 0);
    }
    ReadsAs(s, c);
  }

  /**
   * Only ASCII texts are free of the slicing panic in general; on an ASCII text
   * of a valid length `from_str` either reads a code id or rejects it.
   */
  lemma AsciiNeverPanics(s: string)
    requires Radix.IsAscii(s)
    ensures FromStr(s) != Err(NotCharBoundary)
  {
    Radix.AsciiByteLen(s);
    if 9 <= |s| {
      Radix.AsciiCharsBefore(s, 8);
    }
  }
}
