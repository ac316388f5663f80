/** Byte sizes and 512-byte quota blocks. The source goes through a 64-bit float, so the
    conversion is modelled with its rounding. */
module Quota {

  const BLOCK: nat := 512
  const MANTISSA: nat := 0x20_0000_0000_0000 // 2^53

  // ---------------------------------------------------------------- float64

  /** The spacing of floats around `x`: the power of two that brings `x` below 2^53. */
  function Ulp(x: nat): (u: nat)
    ensures u > 0
  {
    if x < MANTISSA then 1 else 2 * Ulp(x / 2)
  }

  /** float64 of a whole number: nearest multiple of the spacing, ties to the even one. */
  function Float64(x: nat): nat {
    var u := Ulp(x);
    var q, r := x / u, x % u;
    if 2 * r < u || (2 * r == u && q % 2 == 0) then q * u else (q + 1) * u
  }

  /** The float is a nearest multiple of its spacing, the even one of two equally near; and the spacing is 1
      below 2^53 and doubles with the number. */
  lemma FloatNearest(x: nat) returns (q: nat)
    ensures Float64(x) == q * Ulp(x)
    ensures 2 * x <= 2 * Float64(x) + Ulp(x) && 2 * Float64(x) <= 2 * x + Ulp(x)
    ensures 2 * Float64(x) == 2 * x + Ulp(x) || 2 * x == 2 * Float64(x) + Ulp(x) ==> q % 2 == 0
    ensures Ulp(x) == if x < 9007199254740992 then 1 else 2 * Ulp(x / 2)
  {
    var u := Ulp(x);
    var r := x % u;
    q := x / u;
    DivMod(x, u);
    assert (q + 1) * u == q * u + u;
    if !(2 * r < u || (2 * r == u && q % 2 == 0)) {
      q := q + 1;
    }
  }

  lemma DivMod(x: nat, u: nat)
    requires u > 0
    ensures x == x / u * u + x % u && x % u < u
  {
  }

  /** Whole numbers up to 2^53 are exact. */
  lemma FloatExact(x: nat)
    requires x <= MANTISSA
    ensures Float64(x) == x
  {
    if x == MANTISSA {
      assert Ulp(MANTISSA / 2) == 1;
      assert Ulp(x) == 2;
    }
  }

  // ---------------------------------------------------------------- blocks

  /** The ceiling of a float divided by the block size; halving a float is exact. */
  function CeilBlocks(f: nat): nat {
    (f + BLOCK - 1) / BLOCK
  }

  /** setProjectQuota's block limit for a byte size. */
  function BlocksFor(bytes: nat): nat {
    CeilBlocks(Float64(bytes))
  }

  /** getQuota's byte size for a block limit. */
  function BytesOf(blocks: nat): nat {
    blocks * BLOCK
  }

  /** Up to 2^53 bytes the limit that is set covers the request by less than one block, and it is
      the smallest such limit. */
  lemma LimitCovers(bytes: nat)
    requires bytes <= MANTISSA
    ensures bytes <= BytesOf(BlocksFor(bytes)) < bytes + BLOCK
    ensures bytes <= 512 * BlocksFor(bytes) < bytes + 512
    ensures forall blocks: nat :: bytes <= BytesOf(blocks) ==> BlocksFor(bytes) <= blocks
  {
    FloatExact(bytes);
  }

  /** Reading the limit back gives the request exactly if it is a whole number of blocks, so the
      check for an unchanged quota only ever succeeds for such sizes. */
  lemma ReadBack(bytes: nat)
    requires bytes <= MANTISSA
    ensures BytesOf(BlocksFor(bytes)) == bytes <==> bytes % 512 == 0
  {
    FloatExact(bytes);
  }

  /** A larger request never gets a smaller limit. */
  lemma LimitMonotone(a: nat, b: nat)
    requires a <= b <= MANTISSA
    ensures BlocksFor(a) <= BlocksFor(b)
  {
    LimitCovers(a);
    LimitCovers(b);
  }

  /** For any size at all: the limit covers the request exactly if the float stays above the
      last whole block before it. */
  lemma LimitCoversExactly(bytes: nat)
    ensures bytes <= BytesOf(BlocksFor(bytes)) <==>
            bytes == 0 || (bytes - 1) / 512 * 512 < Float64(bytes)
    ensures 512 * BlocksFor(bytes) - 512 < Float64(bytes) <= 512 * BlocksFor(bytes)
  {
    if bytes > 0 {
      var f, below := Float64(bytes), (bytes - 1) / BLOCK;
      assert below * BLOCK < bytes <= below * BLOCK + BLOCK;
      assert CeilBlocks(f) > below <==> below * BLOCK < f;
    }
  }

  /** One byte past 2^53 the limit falls short of the request. */
  lemma LimitFallsShort()
    ensures BytesOf(BlocksFor(MANTISSA + 1)) < MANTISSA + 1
  {
    assert (MANTISSA + 1) / 2 == MANTISSA / 2 < MANTISSA;
    assert Ulp((MANTISSA + 1) / 2) == 1;
    assert Ulp(MANTISSA + 1) == 2;
    assert Float64(MANTISSA + 1) == MANTISSA;
  }
}
