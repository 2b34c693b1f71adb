/** Generic memory: a power-of-two region from which objects are carved upwards from a watermark. */
module GenericAllocator {
  import opened Arithmetic
  import opened Common

  const WORD: nat := 0x1_0000_0000_0000_0000

  type Word64 = x: nat | x < WORD

  /** Unsigned 64-bit arithmetic drops what does not fit. */
  function Wrap(x: nat): Word64 { x % WORD }

  /** `1 << bits`; the amount of a 64-bit shift is taken modulo 64. */
  function UnitSize(bits: nat): (u: Word64)
    ensures u > 0
  {
    UnitDivides(bits);
    Pow2(bits % 64)
  }

  function AlignValue(value: Word64, base: Word64): Word64 {
    if base == 0 then 0 else FloorTo(Wrap(value + base - 1), base)
  }

  datatype Info = Info(base: Word64, sizeBits: nat, watermark: Word64)
  {
    function End(): Word64 { Wrap(base + UnitSize(sizeBits)) }
  }

  predicate IsAllocatable(g: Info, bits: nat, count: nat) {
    Wrap(AlignValue(g.watermark, UnitSize(bits)) + Wrap(UnitSize(bits) * count)) <= g.End()
  }

  /** The address of the new block, and the region with the watermark behind it. */
  function TryAllocate(g: Info, bits: nat): Option<(Word64, Info)> {
    var unit := UnitSize(bits);
    var start := AlignValue(g.watermark, unit);
    if Wrap(start + unit) > g.End() then None else Some((start, g.(watermark := Wrap(start + unit))))
  }

  // ---------------------------------------------------------------- multiples

  /** The largest multiple of `u` that is not above `v`. */
  function FloorTo(v: nat, u: nat): (r: nat)
    requires u > 0
    ensures r <= v < r + u
    decreases v
  {
    if v < u then 0 else u + FloorTo(v - u, u)
  }

  lemma {:induction false} FloorIsMultiple(v: nat, u: nat)
    requires u > 0
    ensures Multiple(FloorTo(v, u), u)
    decreases v
  {
    if v < u {
      assert 0 == 0 * u;
    } else {
      FloorIsMultiple(v - u, u);
      var k: nat :| FloorTo(v - u, u) == k * u;
      assert FloorTo(v, u) == (k + 1) * u;
    }
  }

  /** Rounding down is what dividing and multiplying back computes. */
  lemma FloorIsDivision(v: nat, u: nat)
    requires u > 0
    ensures FloorTo(v, u) == v / u * u
  {
    Quotient(v, u);
    FloorIs(v, u, v / u * u);
  }

  ghost predicate Multiple(x: nat, u: nat) {
    exists k: nat :: x == k * u
  }

  lemma FloorIs(v: nat, u: nat, x: nat)
    requires u > 0 && Multiple(x, u) && x <= v < x + u
    ensures FloorTo(v, u) == x
  {
    var k: nat :| x == k * u;
    FloorIsMultiple(v, u);
    var q: nat :| FloorTo(v, u) == q * u;
    if q < k { MulStrict(q, k, u); } else if k < q { MulStrict(k, q, u); }
  }

  lemma WordIsPower()
    ensures Pow2(64) == WORD && Pow2(63) == WORD / 2
  {
    assert Pow2(4) == 16;
    PowAdds(4, 4);
    assert Pow2(8) == 256;
    PowAdds(8, 8);
    assert Pow2(16) == 0x10000;
    PowAdds(16, 16);
    assert Pow2(32) == 0x1_0000_0000;
    PowAdds(32, 32);
    assert Pow2(64) == 2 * Pow2(63);
  }

  /** Every unit divides the word size, and is at most half of it. */
  lemma UnitDivides(bits: nat)
    ensures Multiple(WORD, Pow2(bits % 64)) && 2 * Pow2(bits % 64) <= WORD
  {
    var b := bits % 64;
    WordIsPower();
    PowAdds(64 - b, b);
    assert WORD == Pow2(64 - b) * Pow2(b);
    PowAdds(63 - b, b);
    assert Pow2(63) == Pow2(63 - b) * Pow2(b);
    assert Pow2(63 - b) * Pow2(b) >= 1 * Pow2(b);
  }

  /** The least multiple of `u` that is not below `x`, as if numbers were unbounded. */
  ghost function AlignUp(x: nat, u: nat): (r: nat)
    requires u > 0
    ensures x <= r < x + u && Multiple(r, u)
  {
    FloorIsMultiple(x + u - 1, u);
    FloorTo(x + u - 1, u)
  }

  lemma AlignedStays(x: nat, u: nat)
    requires u > 0 && Multiple(x, u)
    ensures AlignUp(x, u) == x
  {
    FloorIs(x + u - 1, u, x);
  }

  // ---------------------------------------------------------------- one allocation

  /** The region ends inside the address space and the watermark lies in it. */
  ghost predicate Sane(g: Info) {
    g.base + UnitSize(g.sizeBits) < WORD && g.base <= g.watermark <= g.base + UnitSize(g.sizeBits)
  }

  /** `h` is `g` with the aligned block at `start` taken between the old and the new watermark. */
  ghost predicate Takes(g: Info, bits: nat, start: nat, h: Info) {
    && g.watermark <= start && Multiple(start, UnitSize(bits))
    && h.base == g.base && h.sizeBits == g.sizeBits && h.watermark == start + UnitSize(bits) && Sane(h)
  }

  /** A request either fails or takes a block of the region above the watermark. */
  ghost predicate Sound(g: Info, bits: nat) {
    var r := TryAllocate(g, bits);
    r.Some? ==> Takes(g, bits, r.value.0, r.value.1)
  }

  /** The next block, aligned, does not reach the end of the address space. */
  ghost predicate NoWrap(g: Info, bits: nat) {
    AlignUp(g.watermark, UnitSize(bits)) + UnitSize(bits) < WORD
  }

  lemma AlignsWithoutWrap(x: Word64, u: Word64)
    requires u > 0 && AlignUp(x, u) < WORD
    requires Multiple(WORD, u)
    ensures AlignValue(x, u) == AlignUp(x, u)
  {
    if x + u - 1 >= WORD {
      FloorIs(x + u - 1, u, WORD);
    } else {
      Small(x + u - 1);
    }
  }

  /** Rounding past the end of the address space gives address zero. */
  lemma AlignsToZero(x: Word64, u: Word64)
    requires u > 0 && AlignUp(x, u) >= WORD && Multiple(WORD, u)
    ensures AlignValue(x, u) == 0
  {
    assert x + u - 1 >= WORD;
    assert 0 == 0 * u;
    FloorIs(x + u - 1 - WORD, u, 0);
  }

  lemma SoundWithoutWrap(g: Info, bits: nat)
    requires Sane(g) && NoWrap(g, bits)
    ensures TryAllocate(g, bits).Some? <==> AlignUp(g.watermark, UnitSize(bits)) + UnitSize(bits) <= g.base + UnitSize(g.sizeBits)
    ensures TryAllocate(g, bits).Some? ==> TryAllocate(g, bits).value.0 == AlignUp(g.watermark, UnitSize(bits))
    ensures Sound(g, bits)
  {
    var unit := UnitSize(bits);
    var up := AlignUp(g.watermark, unit);
    assert Multiple(up, unit);
    UnitDivides(bits);
    AlignsWithoutWrap(g.watermark, unit);
    Small(up + unit);
    Small(g.base + UnitSize(g.sizeBits));
    assert TryAllocate(g, bits) ==
      if up + unit > g.base + UnitSize(g.sizeBits) then None else Some((up, g.(watermark := up + unit)));
  }

  lemma Small(x: nat)
    requires x < WORD
    ensures Wrap(x) == x
  {
  }

  /** A block that ends with the address space resets the watermark to zero. */
  lemma UnsoundAtTheEnd(g: Info, bits: nat)
    requires Sane(g) && AlignUp(g.watermark, UnitSize(bits)) + UnitSize(bits) == WORD
    ensures !Sound(g, bits)
  {
    UnitDivides(bits);
    AlignsWithoutWrap(g.watermark, UnitSize(bits));
    Small(g.base + UnitSize(g.sizeBits));
    assert Wrap(WORD) == 0;
    assert TryAllocate(g, bits).value.1.watermark == 0;
  }

  /** Rounding past the end hands out a block at address zero. */
  lemma UnsoundPastTheEnd(g: Info, bits: nat)
    requires Sane(g) && AlignUp(g.watermark, UnitSize(bits)) >= WORD
    ensures !Sound(g, bits)
  {
    var unit := UnitSize(bits);
    UnitDivides(bits);
    AlignsToZero(g.watermark, unit);
    Small(unit);
    Small(g.base + UnitSize(g.sizeBits));
    assert g.watermark > WORD - unit >= unit;
    assert TryAllocate(g, bits).value.0 == 0;
  }

  /** Allocation is sound exactly when its arithmetic does not wrap. */
  lemma SoundIff(g: Info, bits: nat)
    requires Sane(g)
    ensures Sound(g, bits) <==> NoWrap(g, bits)
  {
    var unit := UnitSize(bits);
    var up := AlignUp(g.watermark, unit);
    if NoWrap(g, bits) {
      SoundWithoutWrap(g, bits);
    } else if up < WORD {
      UnitDivides(bits);
      NearEnd(up, unit);
      UnsoundAtTheEnd(g, bits);
    } else {
      UnsoundPastTheEnd(g, bits);
    }
  }

  lemma NearEnd(x: nat, u: nat)
    requires u > 0 && Multiple(x, u) && Multiple(WORD, u) && x < WORD <= x + u
    ensures x + u == WORD
  {
    var k: nat :| x == k * u;
    var m: nat :| WORD == m * u;
    if k + 1 < m { MulStrict(k + 1, m, u); }
    if m <= k { MulStrict(m, k + 1, u); }
  }

  // ---------------------------------------------------------------- many allocations

  /** All `count` successive requests take blocks of the region. */
  ghost predicate AllTaken(g: Info, bits: nat, count: nat)
    decreases count
  {
    count == 0 || (
      var r := TryAllocate(g, bits);
      r.Some? && Takes(g, bits, r.value.0, r.value.1) && AllTaken(r.value.1, bits, count - 1))
  }

  /** Where `count` aligned blocks would end. */
  ghost function Reach(g: Info, bits: nat, count: nat): (r: nat)
    ensures r >= AlignUp(g.watermark, UnitSize(bits))
  {
    Product(UnitSize(bits), count);
    AlignUp(g.watermark, UnitSize(bits)) + UnitSize(bits) * count
  }

  lemma Product(u: nat, n: nat)
    ensures u * n >= 0 && (n > 0 ==> u * n == u + u * (n - 1) && u * n >= u)
  {
  }

  ghost predicate Fits(g: Info, bits: nat, count: nat) {
    Reach(g, bits, count) <= g.base + UnitSize(g.sizeBits)
  }

  /** One block later the rest reaches equally far. */
  lemma SameReach(g: Info, bits: nat, count: nat, h: Info)
    requires count > 0 && h.watermark == AlignUp(g.watermark, UnitSize(bits)) + UnitSize(bits)
    ensures Reach(h, bits, count - 1) == Reach(g, bits, count)
  {
    var u := UnitSize(bits);
    var k: nat :| AlignUp(g.watermark, u) == k * u;
    assert h.watermark == (k + 1) * u;
    AlignedStays(h.watermark, u);
    Product(u, count);
  }

  lemma {:induction false} AllTakenIff(g: Info, bits: nat, count: nat)
    requires Sane(g) && count > 0
    ensures AllTaken(g, bits, count) <==> Fits(g, bits, count)
    decreases count
  {
    SoundIff(g, bits);
    ReachGrows(g, bits, count);
    if NoWrap(g, bits) {
      SoundWithoutWrap(g, bits);
      if TryAllocate(g, bits).Some? {
        var h := TryAllocate(g, bits).value.1;
        SameReach(g, bits, count, h);
        if count > 1 { AllTakenIff(h, bits, count - 1); } else { AlignedReach(g, bits, h); }
      }
    }
  }

  lemma ReachGrows(g: Info, bits: nat, count: nat)
    requires count > 0
    ensures Reach(g, bits, count) >= AlignUp(g.watermark, UnitSize(bits)) + UnitSize(bits)
  {
    Product(UnitSize(bits), count);
  }

  lemma AlignedReach(g: Info, bits: nat, h: Info)
    ensures Reach(g, bits, 1) == AlignUp(g.watermark, UnitSize(bits)) + UnitSize(bits)
  {
    Product(UnitSize(bits), 1);
  }

  lemma AcceptedIffFits(g: Info, bits: nat, count: nat)
    requires Sane(g) && Reach(g, bits, count) < WORD
    ensures IsAllocatable(g, bits, count) <==> Fits(g, bits, count)
  {
    var unit := UnitSize(bits);
    var total := unit * count;
    UnitDivides(bits);
    Product(unit, count);
    AlignsWithoutWrap(g.watermark, unit);
    Small(total);
    Small(AlignUp(g.watermark, unit) + total);
    Small(g.base + UnitSize(g.sizeBits));
  }

  /** Whatever could be carved is accepted; what is accepted can be carved exactly if nothing wraps. */
  lemma AcceptedIff(g: Info, bits: nat, count: nat)
    requires Sane(g) && count > 0
    ensures AllTaken(g, bits, count) ==> IsAllocatable(g, bits, count)
    ensures IsAllocatable(g, bits, count) ==> (AllTaken(g, bits, count) <==> Reach(g, bits, count) < WORD)
  {
    AllTakenIff(g, bits, count);
    if Reach(g, bits, count) < WORD { AcceptedIffFits(g, bits, count); }
  }

  /** A request for 2^52 pages of a one-gigabyte region is accepted, because its size wraps to zero. */
  lemma AcceptedButImpossible()
    ensures var g := Info(0x4000_0000, 30, 0x4000_0000);
      Sane(g) && IsAllocatable(g, 12, 0x10_0000_0000_0000) && !AllTaken(g, 12, 0x10_0000_0000_0000)
  {
    var g := Info(0x4000_0000, 30, 0x4000_0000);
    SmallPowers();
    assert Multiple(0x4000_0000, 0x1000) by { assert 0x4000_0000 == 0x4_0000 * 0x1000; }
    FloorIs(0x4000_0FFF, 0x1000, 0x4000_0000);
    assert UnitSize(12) * 0x10_0000_0000_0000 == WORD;
    AcceptedIff(g, 12, 0x10_0000_0000_0000);
  }

  lemma SmallPowers()
    ensures UnitSize(12) == 0x1000 && UnitSize(30) == 0x4000_0000
  {
    assert Pow2(5) == 32 && Pow2(6) == 64;
    PowAdds(6, 6);
    PowAdds(12, 12);
    PowAdds(24, 6);
  }

  // ---------------------------------------------------------------- blocks

  /** The memory of one object made by CONVERT. */
  datatype Block = Block(start: nat, bits: nat)
  {
    function Stop(): nat { start + UnitSize(bits) }
  }

  /** The block lies in the region below the watermark, aligned to its size. */
  ghost predicate Inside(g: Info, b: Block) {
    g.base <= b.start && b.Stop() <= g.watermark && Multiple(b.start, UnitSize(b.bits))
  }

  ghost predicate Apart(a: Block, b: Block) {
    a.Stop() <= b.start || b.Stop() <= a.start
  }

  lemma TakenApart(g: Info, bits: nat, start: nat, h: Info, b: Block)
    requires Sane(g) && Takes(g, bits, start, h)
    ensures Inside(h, Block(start, bits))
    ensures Inside(g, b) ==> Inside(h, b) && Apart(b, Block(start, bits))
  {
  }
}
