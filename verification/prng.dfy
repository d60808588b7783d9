/**
  The coordinate-seeded pseudo-random stream of a star system generator:
  packing a sector coordinate into a 32-bit seed, the fixed step that advances
  the 32-bit accumulator, the two multiply-and-fold mixing rounds that turn the
  accumulator into a draw, and the reductions of a draw to an integer range
  (with C++ unsigned arithmetic) and to a real range.

  Unsigned 32-bit values are integers of the newtype `u32`; every wrap-around
  is written out as a reduction modulo 2^32. The mixing rounds work on 64-bit
  bit-vectors, as the C++ code does.
 */
module Prng {

  /** A C++ `uint32_t`. */
  newtype u32 = v: int | 0 <= v < 0x1_0000_0000

  /** Whether `v` is a value of a 32-bit two's-complement `int`. */
  predicate IsInt32(v: int) {
    -0x8000_0000 <= v < 0x8000_0000
  }

  /**
    The seed of sector (x, y): the low 16 bits of `x` shifted above the low 16
    bits of `y`. On unsigned values, masking with 0xFFFF is reduction modulo
    2^16, the shift by 16 of a value below 2^16 is multiplication by 2^16, and
    the `|` of the two disjoint bit ranges is their sum.
   */
  function Seed(x: u32, y: u32): (s: u32)
    ensures s as int / 0x1_0000 == x as int % 0x1_0000
    ensures s as int % 0x1_0000 == y as int % 0x1_0000
  {
    ((x as int % 0x1_0000) * 0x1_0000 + y as int % 0x1_0000) as u32
  }

  /** Two sectors have the same seed exactly when their low halves agree. */
  lemma SeedLowHalves(x: u32, y: u32, x': u32, y': u32)
    ensures Seed(x, y) == Seed(x', y') <==>
            (x as int % 0x1_0000 == x' as int % 0x1_0000 && y as int % 0x1_0000 == y' as int % 0x1_0000)
  {
  }

  /** Packing is order-sensitive: swapping components whose low halves differ changes the seed. */
  lemma SeedOrderSensitive(x: u32, y: u32)
    requires x as int % 0x1_0000 != y as int % 0x1_0000
    ensures Seed(x, y) != Seed(y, x)
  {
    SeedLowHalves(x, y, y, x);
  }

  /**
    The accumulator after one draw: the increment 0xe120fc15 added modulo
    2^32. The sum wraps around exactly when it reaches 2^32, and then loses
    2^32 once.
   */
  function Next(s: u32): (t: u32)
    ensures s as int + 0xe120fc15 < 0x1_0000_0000 ==> t as int == s as int + 0xe120fc15
    ensures s as int + 0xe120fc15 >= 0x1_0000_0000 ==> t as int == s as int + 0xe120fc15 - 0x1_0000_0000
  {
    ((s as int + 0xe120fc15) % 0x1_0000_0000) as u32
  }

  /**
    One multiply-and-fold round: the 64-bit product shifted right by 32,
    xored with itself, truncated to 32 bits. That is the xor of the product's
    high half with its low half.
   */
  function Fold(t: bv64): (m: bv32)
    ensures m == (t >> 32) as bv32 ^ (t & 0xFFFF_FFFF) as bv32
  {
    (((t >> 32) ^ t) & 0xFFFF_FFFF) as bv32
  }

  /** The two mixing rounds on the bits of an (already advanced) accumulator. */
  function MixBits(s: bv32): (m: bv32) {
    var m1 := Fold((s as bv64) * 0x4a39b70d);
    Fold((m1 as bv64) * 0x12fad5c9)
  }

  /** The value drawn from an (already advanced) accumulator. */
  function Mix(s: u32): (r: u32) {
    MixBits(s as bv32) as u32
  }

  /** The accumulator after `k` draws from `s`. */
  function StateAfter(s: u32, k: nat): (t: u32) {
    if k == 0 then s else Next(StateAfter(s, k - 1))
  }

  /** The value of the `k`-th draw (counting from 1) from the accumulator `s`. */
  function Draw(s: u32, k: nat): (r: u32) {
    Mix(StateAfter(s, k))
  }

  /** After `k` draws the accumulator is `s + k * 0xe120fc15` modulo 2^32. */
  lemma {:induction false} StateAfterClosedForm(s: u32, k: nat)
    ensures StateAfter(s, k) as int == (s as int + k * 0xe120fc15) % 0x1_0000_0000
  {
    if k > 0 {
      StateAfterClosedForm(s, k - 1);
      ModAddLeft(s as int + (k - 1) * 0xe120fc15, 0xe120fc15);
    }
  }

  lemma ModAddLeft(a: int, b: int)
    ensures (a % 0x1_0000_0000 + b) % 0x1_0000_0000 == (a + b) % 0x1_0000_0000
  {
  }

  /** Drawing `j` times and then `k` times is drawing `j + k` times. */
  lemma {:induction false} StateAfterAdd(s: u32, j: nat, k: nat)
    ensures StateAfter(StateAfter(s, j), k) == StateAfter(s, j + k)
  {
    if k > 0 {
      StateAfterAdd(s, j, k - 1);
    }
  }

  /**
    C++ conversion of an `int` to `unsigned int`: the unsigned value congruent
    to `v` modulo 2^32. Values already in range are kept; a value one period
    below or above the range is shifted by 2^32 once.
   */
  function ToUnsigned(v: int): (u: u32)
    ensures (v - u as int) % 0x1_0000_0000 == 0
    ensures 0 <= v < 0x1_0000_0000 ==> u as int == v
    ensures -0x1_0000_0000 <= v < 0 ==> u as int == v + 0x1_0000_0000
    ensures 0x1_0000_0000 <= v < 0x2_0000_0000 ==> u as int == v - 0x1_0000_0000
  {
    (v % 0x1_0000_0000) as u32
  }

  /** C++ conversion of an `unsigned int` back to `int` (two's complement). */
  function ToSigned(u: u32): (v: int)
    ensures IsInt32(v)
    ensures ToUnsigned(v) == u
  {
    if (u as int) < 0x8000_0000 then u as int else u as int - 0x1_0000_0000
  }

  /**
    `rndInt(min, max)` applied to the draw `r`: the difference `max - min` is
    converted to unsigned for the remainder, `min` is converted to unsigned
    for the addition (which wraps), and the sum is converted back to `int`.
    The callers pass `min < max` with a difference that does not overflow.
   */
  function RndIntOf(r: u32, min: int, max: int): (v: int)
    requires IsInt32(min) && IsInt32(max) && min < max && IsInt32(max - min)
    ensures min <= v < max
    ensures v == min + r as int % (max - min)
  {
    var d := ToUnsigned(max - min) as int;
    assert d == max - min;
    var q := r as int % d;
    WrapBack(q, min, max);
    ToSigned(ToUnsigned(q + ToUnsigned(min) as int))
  }

  /** Adding `min` in unsigned arithmetic and converting back is plain signed addition. */
  lemma WrapBack(q: int, min: int, max: int)
    requires IsInt32(min) && IsInt32(max) && 0 <= q < max - min
    ensures ToSigned(ToUnsigned(q + ToUnsigned(min) as int)) == q + min
  {
    var u := ToUnsigned(q + ToUnsigned(min) as int);
    ModAddLeft(min, q);
    assert u as int == (q + min) % 0x1_0000_0000;
    if q + min < 0 {
      assert u as int == q + min + 0x1_0000_0000;
    } else {
      assert u as int == q + min;
    }
  }

  /**
    `rndDouble(min, max)` applied to the draw `r`, over exact reals: the draw
    divided by 2^31 - 1 (not 2^32 - 1), scaled to the width of the range and
    shifted by `min`. The result never falls below `min`; it stays
    at or below `max` only for draws below 2^31 (see `RndDoubleOvershoots`).
   */
  function RndDoubleOf(r: u32, min: real, max: real): (v: real)
    ensures min <= max ==> min <= v
    ensures min <= max && (r as int) < 0x8000_0000 ==> v <= max
  {
    var w := max - min;
    var f := (r as int) as real / 2147483647.0;
    DrawFraction(r);
    ProductBounds(f, w);
    assert min <= max && (r as int) < 0x8000_0000 ==> f * w + min <= max;
    f * w + min
  }

  /** A draw divided by 2^31 - 1 is non-negative, and at most 1 for draws below 2^31. */
  lemma DrawFraction(r: u32)
    ensures 0.0 <= (r as int) as real / 2147483647.0
    ensures (r as int) < 0x8000_0000 ==> (r as int) as real / 2147483647.0 <= 1.0
  {
    if (r as int) < 0x8000_0000 {
      assert (r as int) as real <= 2147483647.0;
    }
  }

  lemma ProductBounds(f: real, w: real)
    requires 0.0 <= f
    ensures 0.0 <= w ==> 0.0 <= f * w
    ensures 0.0 <= w && f <= 1.0 ==> f * w <= w
  {
  }

  /** The largest draw scaled to [0, 1) lands above 2: the nominal range is exceeded. */
  lemma RndDoubleOvershoots()
    ensures RndDoubleOf(0xFFFF_FFFF, 0.0, 1.0) > 2.0
    ensures RndDoubleOf(0x8000_0000, 0.0, 1.0) > 1.0
  {
  }

  /** The origin sector has seed 0. */
  lemma OriginSeed()
    ensures Seed(0, 0) == 0
  {
  }

  /** The first accumulator drawn from seed 0 is the increment itself. */
  lemma OriginFirstState()
    ensures StateAfter(0, 1) == 0xe120fc15
  {
  }

  /** The mixing rounds turn the origin's first accumulator into 0x1322d6d0, which is 0 modulo 20. */
  lemma OriginFirstDraw()
    ensures MixBits(0xe120fc15) == 0x1322d6d0
    ensures RndIntOf(0x1322d6d0, 0, 20) == 0
  {
  }

  /** The origin's first accumulator, read as 32 bits. */
  lemma BitsOfFirstState()
    ensures (0xe120fc15 as u32) as bv32 == 0xe120fc15
  {
  }

  /** The origin's first mixed value, read back as an unsigned integer. */
  lemma ValueOfFirstDraw()
    ensures (0x1322d6d0 as bv32) as u32 == 0x1322d6d0
  {
  }

  /** The first draw from seed 0 is 0x1322d6d0. */
  lemma OriginFirstDrawValue()
    ensures Draw(0, 1) == 0x1322d6d0
  {
    hide MixBits;
    OriginFirstState();
    BitsOfFirstState();
    OriginFirstDraw();
    ValueOfFirstDraw();
  }
}
