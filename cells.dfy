/** A minimal model of the part of the ton-core library that the contract wrapper uses to
    build cells: the `Cell` value, the `Builder` returned by `beginCell()` with its
    `storeUint`, `storeAddress`, `storeCoins` and `endCell`, and the `Address` value.
    The field layouts follow TON's block.tlb schema: `addr_std$10` for an internal
    address and `VarUInteger 16` for `Grams` (coins). The `Load*` functions are the
    reading side of each layout, used to state that every stored field reads back. */
module Cells {
  import opened Bits
  import opened Results

  /** Capacity of an ordinary TVM cell. */
  const MaxBits: nat := 1023
  const MaxRefs: nat := 4

  /** A TVM cell: a bit string and an ordered list of child references. */
  datatype Cell = Cell(bits: Bits, refs: seq<Cell>)

  ghost predicate WellFormed(c: Cell)
  {
    && |c.bits| <= MaxBits
    && |c.refs| <= MaxRefs
    && forall i :: 0 <= i < |c.refs| ==> WellFormed(c.refs[i])
  }

  /** The 256-bit account id of an address (a 32-byte buffer in ton-core). */
  type Hash = h: nat | h < Pow2(256)

  /** An internal address: a workchain id and an account hash. ton-core does not check
      the workchain when an address is made; writing it as `int8` does. */
  datatype Address = Address(workchain: int, hash: Hash)

  /** `addr_std$10 anycast:(Maybe Anycast) workchain_id:int8 address:bits256`, written
      without anycast: tag `10`, a `0` bit, the workchain as int8, the hash. */
  function AddressBits(a: Address): (r: Bits)
    requires FitsInt(a.workchain, 8)
    ensures |r| == 2 + 1 + 8 + 256
  {
    UintBits(2, 2) + UintBits(0, 1) + IntBits(a.workchain, 8) + UintBits(a.hash, 256)
  }

  /** `VarUInteger 16`: a 4-bit byte count, then the amount in that many bytes, using
      the fewest bytes that hold it. */
  function CoinsBits(v: nat): (r: Bits)
    requires v < Pow2(120)
    ensures |r| == 4 + 8 * ByteLen(v)
  {
    ByteLenBound(v);
    UintBits(ByteLen(v), 4) + UintBits(v, 8 * ByteLen(v))
  }

  /** The builder that `beginCell()` returns. The library's builder is a mutable object,
      but the wrapper only ever chains calls on a fresh one and drops it after `endCell()`
      or a throw, so each store is modelled as a function from builder to builder. */
  datatype Builder = Builder(bits: Bits) {

    predicate Valid()
    {
      |bits| <= MaxBits
    }

    /** `storeUint(v, n)`: `n` big-endian bits; rejects (never truncates) a value that
        does not fit, and rejects a write past the cell capacity. */
    function StoreUint(v: int, n: nat): (r: Result<Builder>)
      requires Valid()
      ensures r.Ok? <==> 0 <= v < Pow2(n) && |bits| + n <= MaxBits
      ensures !(0 <= v < Pow2(n)) ==> r == Err(OutOfRange)
      ensures 0 <= v < Pow2(n) && |bits| + n > MaxBits ==> r == Err(Overflow)
      ensures r.Ok? ==> r.value.bits == bits + UintBits(v, n)
    {
      if n == 0 then
        if v != 0 then Err(OutOfRange) else Ok(this)
      else if v < 0 || v >= Pow2(n) then Err(OutOfRange)
      else if |bits| + n > MaxBits then Err(Overflow)
      else Ok(Builder(bits + UintBits(v, n)))
    }

    /** `storeBit(b)`. */
    function StoreBit(b: bool): (r: Result<Builder>)
      requires Valid()
      ensures r.Ok? <==> |bits| + 1 <= MaxBits
      ensures r.Err? ==> r.error == Overflow
      ensures r.Ok? ==> r.value.bits == bits + [b]
    {
      if |bits| + 1 > MaxBits then Err(Overflow) else Ok(Builder(bits + [b]))
    }

    /** `storeInt(v, n)`: a sign bit, then `n - 1` bits of `v` offset by `2^(n-1)` when
        negative; zero- and one-bit fields are special cases, as in the library. */
    function StoreInt(v: int, n: nat): (r: Result<Builder>)
      requires Valid()
      ensures r.Ok? <==> FitsInt(v, n) && |bits| + n <= MaxBits
      ensures !FitsInt(v, n) ==> r == Err(OutOfRange)
      ensures r.Ok? ==> r.value.bits == bits + IntBits(v, n)
    {
      if n == 0 then
        if v != 0 then Err(OutOfRange) else Ok(this)
      else if n == 1 then
        if v != -1 && v != 0 then Err(OutOfRange) else StoreBit(v == -1)
      else if !FitsInt(v, n) then Err(OutOfRange)
      else
        var b :- StoreBit(v < 0);
        var x := if v < 0 then Pow2(n - 1) + v else v;
        var r := b.StoreUint(x, n - 1);
        assert r.Ok? ==> r.value.bits == bits + IntBits(v, n) by {
          if r.Ok? {
            AppendAssoc(bits, [v < 0], UintBits(x, n - 1));
          }
        }
        r
    }

    /** `storeAddress(a)` for an internal address: `addr_std` with no anycast, 267 bits.
        Only a workchain outside int8 can make it fail, or a full cell. */
    function StoreAddress(a: Address): (r: Result<Builder>)
      requires Valid()
      ensures r.Ok? <==> FitsInt(a.workchain, 8) && |bits| + 267 <= MaxBits
      ensures !FitsInt(a.workchain, 8) && |bits| + 3 <= MaxBits ==> r == Err(OutOfRange)
      ensures FitsInt(a.workchain, 8) && r.Err? ==> r.error == Overflow
      ensures r.Ok? ==> r.value.bits == bits + AddressBits(a)
    {
      var b1 :- StoreUint(2, 2);
      var b2 :- b1.StoreUint(0, 1);
      var b3 :- b2.StoreInt(a.workchain, 8);
      var r := b3.StoreUint(a.hash, 256);
      assert r.Ok? ==> r.value.bits == bits + AddressBits(a) by {
        if r.Ok? {
          AppendAssoc4(bits, UintBits(2, 2), UintBits(0, 1), IntBits(a.workchain, 8), UintBits(a.hash, 256));
        }
      }
      r
    }

    /** `storeCoins(v)`, the library's `writeVarUint(v, 4)`: a negative amount is
        refused; zero is four zero bits; otherwise the byte count then the bytes. A
        count of 16 or more does not fit the 4-bit prefix. */
    function StoreCoins(v: int): (r: Result<Builder>)
      requires Valid()
      ensures v < 0 ==> r == Err(NegativeAmount)
      ensures v >= 0 && v >= Pow2(120) ==> r == Err(OutOfRange)
      ensures r.Ok? <==> 0 <= v < Pow2(120) && |bits| + 4 + 8 * ByteLen(v) <= MaxBits
      ensures r.Ok? ==> r.value.bits == bits + CoinsBits(v)
    {
      if v < 0 then Err(NegativeAmount)
      else
        ByteLenBound(v);
        if v == 0 then
          assert ByteLen(v) == 0 && CoinsBits(v) == UintBits(0, 4) + [];
          StoreUint(0, 4)
        else
          var len := ByteLen(v);
          assert 0 <= len < Pow2(4) <==> v < Pow2(120);
          var b :- StoreUint(len, 4);
          var r := b.StoreUint(v, 8 * len);
          assert r.Ok? ==> r.value.bits == bits + CoinsBits(v) by {
            if r.Ok? {
              AppendAssoc(bits, UintBits(len, 4), UintBits(v, 8 * len));
            }
          }
          r
    }

    /** `endCell()`: the finished cell holds exactly the bits written and no refs. */
    function EndCell(): (c: Cell)
      requires Valid()
      ensures WellFormed(c) && c.bits == bits && c.refs == []
    {
      Cell(bits, [])
    }
  }

  /** `beginCell()`. */
  function BeginCell(): (b: Builder)
    ensures b.Valid() && b.bits == []
  {
    Builder([])
  }

  // The reading side of each field layout.

  /** Splits an `n`-bit unsigned field off the front of `s`. */
  function LoadUint(s: Bits, n: nat): (r: Option<(nat, Bits)>)
    ensures r.Some? <==> n <= |s|
    ensures r.Some? ==> r.value.0 < Pow2(n) && UintBits(r.value.0, n) + r.value.1 == s
  {
    if |s| < n then None
    else
      UintBitsOfBitsToNat(s[..n]);
      assert s == s[..n] + s[n..];
      Some((BitsToNat(s[..n]), s[n..]))
  }

  /** Splits an `n`-bit signed field off the front of `s`. */
  function LoadInt(s: Bits, n: nat): (r: Option<(int, Bits)>)
    ensures r.Some? <==> n <= |s|
    ensures r.Some? ==> FitsInt(r.value.0, n) && IntBits(r.value.0, n) + r.value.1 == s
  {
    if n == 0 then Some((0, s))
    else if |s| < n then None
    else
      var x := BitsToNat(s[1..n]);
      var v := x - (if s[0] then Pow2(n - 1) else 0);
      UintBitsOfBitsToNat(s[1..n]);
      assert s == [s[0]] + s[1..n] + s[n..];
      Some((v, s[n..]))
  }

  /** Reads an `addr_std` internal address without anycast. */
  function LoadAddress(s: Bits): (r: Option<(Address, Bits)>)
  {
    var tag :- LoadUint(s, 2);
    if tag.0 != 2 then None
    else
      var anycast :- LoadUint(tag.1, 1);
      if anycast.0 != 0 then None
      else
        var wc :- LoadInt(anycast.1, 8);
        var hash :- LoadUint(wc.1, 256);
        Some((Address(wc.0, hash.0), hash.1))
  }

  /** Reads a `VarUInteger 16` amount. */
  function LoadCoins(s: Bits): (r: Option<(nat, Bits)>)
  {
    var len :- LoadUint(s, 4);
    var v :- LoadUint(len.1, 8 * len.0);
    Some((v.0, v.1))
  }

  lemma LoadUintRoundTrip(v: nat, n: nat, rest: Bits)
    requires v < Pow2(n)
    ensures LoadUint(UintBits(v, n) + rest, n) == Some((v, rest))
  {
    var s := UintBits(v, n) + rest;
    assert s[..n] == UintBits(v, n);
    assert s[n..] == rest;
    BitsToNatOfUintBits(v, n);
  }

  lemma LoadIntRoundTrip(v: int, n: nat, rest: Bits)
    requires FitsInt(v, n)
    ensures LoadInt(IntBits(v, n) + rest, n) == Some((v, rest))
  {
    var s := IntBits(v, n) + rest;
    if n > 0 {
      var x := if v < 0 then v + Pow2(n - 1) else v;
      assert s[1..n] == UintBits(x, n - 1);
      assert s[n..] == rest;
      BitsToNatOfUintBits(x, n - 1);
    } else {
      assert s == rest;
    }
  }

  /** Every internal address whose workchain fits int8 reads back from its 267 bits,
      whatever follows them. */
  lemma LoadAddressRoundTrip(a: Address, rest: Bits)
    requires FitsInt(a.workchain, 8)
    ensures LoadAddress(AddressBits(a) + rest) == Some((a, rest))
  {
    var wcBits := IntBits(a.workchain, 8);
    var hashBits := UintBits(a.hash, 256);
    var s3 := hashBits + rest;
    var s2 := wcBits + s3;
    var s1 := UintBits(0, 1) + s2;
    var s := UintBits(2, 2) + s1;
    assert AddressBits(a) + rest == s;
    LoadUintRoundTrip(2, 2, s1);
    LoadUintRoundTrip(0, 1, s2);
    LoadIntRoundTrip(a.workchain, 8, s3);
    LoadUintRoundTrip(a.hash, 256, rest);
  }

  /** Every amount below `2^120` reads back from its coins field, whatever follows it. */
  lemma LoadCoinsRoundTrip(v: nat, rest: Bits)
    requires v < Pow2(120)
    ensures LoadCoins(CoinsBits(v) + rest) == Some((v, rest))
  {
    ByteLenBound(v);
    var len := ByteLen(v);
    var s1 := UintBits(v, 8 * len) + rest;
    assert CoinsBits(v) + rest == UintBits(len, 4) + s1;
    LoadUintRoundTrip(len, 4, s1);
    LoadUintRoundTrip(v, 8 * len, rest);
  }
}
