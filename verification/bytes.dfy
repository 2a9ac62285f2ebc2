/** Fixed-width integers stored as byte sequences, in little- and big-endian order. */
module Bytes {
  import opened Machine
  import Radix

  function Pow256(n: nat): (r: nat)
    ensures r >= 1
  {
    Radix.Pow(256, n)
  }

  /** The value of `b` read least significant byte first (`u64::from_le_bytes` and friends). */
  function LeValue(b: seq<Byte>): (v: nat)
    ensures v < Pow256(|b|)
  {
    if |b| == 0 then 0
    else
      var rest := LeValue(b[1..]);
      assert rest <= Pow256(|b| - 1) - 1;
      assert 256 * rest <= 256 * Pow256(|b| - 1) - 256;
      b[0] + 256 * rest
  }

  /** The value of `b` read most significant byte first. */
  function BeValue(b: seq<Byte>): (v: nat)
    ensures v < Pow256(|b|)
  {
    if |b| == 0 then 0
    else
      var rest := BeValue(b[..|b| - 1]);
      assert rest <= Pow256(|b| - 1) - 1;
      assert 256 * rest <= 256 * Pow256(|b| - 1) - 256;
      rest * 256 + b[|b| - 1]
  }

  /** The `n` little-endian bytes of `x` (`to_le_bytes`). */
  function LeBytes(x: nat, n: nat): (b: seq<Byte>)
    requires x < Pow256(n)
    ensures |b| == n
  {
    if n == 0 then []
    else
      DivBelow(x, n);
      [x % 256] + LeBytes(x / 256, n - 1)
  }

  /** The `n` big-endian bytes of `x`. */
  function BeBytes(x: nat, n: nat): (b: seq<Byte>)
    requires x < Pow256(n)
    ensures |b| == n
  {
    if n == 0 then []
    else
      DivBelow(x, n);
      BeBytes(x / 256, n - 1) + [x % 256]
  }

  lemma DivBelow(x: nat, n: nat)
    requires n >= 1 && x < Pow256(n)
    ensures x / 256 < Pow256(n - 1)
  {
    assert Pow256(n) == 256 * Pow256(n - 1);
  }

  lemma SplitByte(rest: nat, d: Byte)
    ensures (rest * 256 + d) % 256 == d && (rest * 256 + d) / 256 == rest
    ensures (d + 256 * rest) % 256 == d && (d + 256 * rest) / 256 == rest
  {
  }

  lemma {:induction false} LeValueOfLeBytes(x: nat, n: nat)
    requires x < Pow256(n)
    ensures LeValue(LeBytes(x, n)) == x
    decreases n
  {
    if n > 0 {
      DivBelow(x, n);
      LeValueOfLeBytes(x / 256, n - 1);
      assert LeBytes(x, n)[1..] == LeBytes(x / 256, n - 1);
    }
  }

  lemma {:induction false} LeBytesOfLeValue(b: seq<Byte>)
    ensures LeBytes(LeValue(b), |b|) == b
    decreases |b|
  {
    if |b| > 0 {
      SplitByte(LeValue(b[1..]), b[0]);
      LeBytesOfLeValue(b[1..]);
    }
  }

  lemma {:induction false} BeValueOfBeBytes(x: nat, n: nat)
    requires x < Pow256(n)
    ensures BeValue(BeBytes(x, n)) == x
    decreases n
  {
    if n > 0 {
      DivBelow(x, n);
      BeValueOfBeBytes(x / 256, n - 1);
      assert BeBytes(x, n)[..n - 1] == BeBytes(x / 256, n - 1);
    }
  }

  lemma {:induction false} BeBytesOfBeValue(b: seq<Byte>)
    ensures BeBytes(BeValue(b), |b|) == b
    decreases |b|
  {
    if |b| > 0 {
      SplitByte(BeValue(b[..|b| - 1]), b[|b| - 1]);
      BeBytesOfBeValue(b[..|b| - 1]);
    }
  }
}
