/** Bit strings and the big-endian unsigned and sign-bit integer forms that TVM cells use. */
module Bits {

  /** A bit string, first bit first. */
  type Bits = seq<bool>

  function Pow2(n: nat): (r: nat)
    ensures r >= 1
  {
    if n == 0 then 1 else 2 * Pow2(n - 1)
  }

  lemma {:induction false} Pow2Monotone(m: nat, n: nat)
    requires m <= n
    ensures Pow2(m) <= Pow2(n)
    decreases n - m
  {
    if m < n {
      Pow2Monotone(m + 1, n);
    }
  }

  lemma AppendAssoc(s: Bits, a: Bits, b: Bits)
    ensures s + a + b == s + (a + b)
  {
  }

  lemma AppendAssoc4(s: Bits, a: Bits, b: Bits, c: Bits, d: Bits)
    ensures s + a + b + c + d == s + (a + b + c + d)
  {
  }

  /** The unsigned value of a bit string read most significant bit first. */
  function BitsToNat(b: Bits): (r: nat)
    ensures r < Pow2(|b|)
  {
    if |b| == 0 then 0
    else 2 * BitsToNat(b[..|b| - 1]) + (if b[|b| - 1] then 1 else 0)
  }

  /** The `n`-bit big-endian form of `v`. */
  function UintBits(v: nat, n: nat): (r: Bits)
    requires v < Pow2(n)
    ensures |r| == n
  {
    if n == 0 then [] else UintBits(v / 2, n - 1) + [v % 2 == 1]
  }

  /** The `n` bits written for `v` read back as `v`. */
  lemma {:induction false} BitsToNatOfUintBits(v: nat, n: nat)
    requires v < Pow2(n)
    ensures BitsToNat(UintBits(v, n)) == v
  {
    if n > 0 {
      var high := UintBits(v / 2, n - 1);
      var r := high + [v % 2 == 1];
      assert r[..|r| - 1] == high;
      BitsToNatOfUintBits(v / 2, n - 1);
    }
  }

  /** Reading a bit string as a number and writing it back at the same width gives
      the same bits, so `UintBits(_, n)` is a bijection onto the `n`-bit strings. */
  lemma {:induction false} UintBitsOfBitsToNat(b: Bits)
    ensures UintBits(BitsToNat(b), |b|) == b
  {
    if |b| > 0 {
      var init := b[..|b| - 1];
      var last := b[|b| - 1];
      var x, v := BitsToNat(init), BitsToNat(b);
      assert v == 2 * x + (if last then 1 else 0);
      assert v / 2 == x && (v % 2 == 1) == last;
      assert UintBits(v, |b|) == UintBits(x, |b| - 1) + [last];
      UintBitsOfBitsToNat(init);
      assert b == init + [last];
    }
  }

  lemma UintBitsInjective(v: nat, w: nat, n: nat)
    requires v < Pow2(n) && w < Pow2(n)
    requires UintBits(v, n) == UintBits(w, n)
    ensures v == w
  {
    BitsToNatOfUintBits(v, n);
    BitsToNatOfUintBits(w, n);
  }

  /** `v` fits an `n`-bit two's-complement field. */
  predicate FitsInt(v: int, n: nat)
  {
    if n == 0 then v == 0 else 0 - Pow2(n - 1) as int <= v < Pow2(n - 1)
  }

  /** `n`-bit signed field in the layout of ton-core's `writeInt`: a sign bit, then the
      remaining `n - 1` bits of `v`, negative values offset by `2^(n-1)`. */
  function IntBits(v: int, n: nat): (r: Bits)
    requires FitsInt(v, n)
    ensures |r| == n
    ensures n > 0 ==> r[0] == (v < 0)
  {
    if n == 0 then []
    else [v < 0] + UintBits(if v < 0 then v + Pow2(n - 1) else v, n - 1)
  }

  /** The number of binary digits of `v` (0 for 0), as `v.toString(2).length` gives for
      `v > 0`. */
  function BitLength(v: nat): (r: nat)
    ensures v < Pow2(r)
    ensures v > 0 ==> r > 0 && Pow2(r - 1) <= v
  {
    if v == 0 then 0 else 1 + BitLength(v / 2)
  }

  /** The minimal number of bytes that hold `v`: `ceil(bitLength / 8)`, and 0 for 0. */
  function ByteLen(v: nat): (r: nat)
    ensures v < Pow2(8 * r)
    ensures r > 0 ==> Pow2(8 * (r - 1)) <= v
    ensures v == 0 <==> r == 0
  {
    var bl := BitLength(v);
    var r := (bl + 7) / 8;
    Pow2Monotone(bl, 8 * r);
    if r > 0 then
      Pow2Monotone(8 * (r - 1), bl - 1);
      r
    else
      r
  }

  /** A coins length prefix is 4 bits wide, so at most 15 bytes of magnitude fit:
      the amount must be below `2^120`. */
  lemma ByteLenBound(v: nat)
    ensures ByteLen(v) < 16 <==> v < Pow2(120)
  {
    var r := ByteLen(v);
    if r < 16 {
      Pow2Monotone(8 * r, 120);
    } else {
      Pow2Monotone(120, 8 * (r - 1));
    }
  }
}
