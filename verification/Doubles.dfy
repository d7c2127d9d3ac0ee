/** A 64-bit count read into a JavaScript number: a double, rounded to the nearest with ties to even. */
module Doubles {
  /** Up to here every integer is a double. */
  const EXACT: nat := 0x20_0000_0000_0000
  const U64: nat := 0x1_0000_0000_0000_0000

  /** The distance between neighbouring doubles at `v`. */
  function Spacing(v: nat): (g: nat)
    ensures g > 0
  {
    if v < EXACT then 1 else 2 * Spacing(v / 2)
  }

  function Number(v: nat): (r: nat)
    ensures v < EXACT ==> r == v
  {
    var g := Spacing(v);
    var low := v - v % g;
    if 2 * (v % g) < g || (2 * (v % g) == g && v / g % 2 == 0) then low else low + g
  }

  /** The result is one of the two doubles around `v`, no further from it than half the spacing. */
  lemma NumberIsNearest(v: nat)
    ensures Number(v) in {v / Spacing(v) * Spacing(v), v / Spacing(v) * Spacing(v) + Spacing(v)}
    ensures 2 * (Number(v) - v) <= Spacing(v) && 2 * (v - Number(v)) <= Spacing(v)
  {
    Remainder(v, Spacing(v));
  }

  lemma Remainder(v: nat, g: nat)
    requires g > 0
    ensures v - v % g == v / g * g && 0 <= v % g < g
  {}

  lemma {:induction false} SpacingGrows(a: nat, b: nat)
    requires a <= b
    ensures Spacing(a) <= Spacing(b)
    decreases b
  {
    if a >= EXACT { SpacingGrows(a / 2, b / 2); }
  }

  /** At the magnitude of a boot time in nanoseconds the spacing is 256; for any 64-bit count it is at most 2048. */
  lemma SpacingOfCounts(v: nat)
    ensures 0x1000_0000_0000_0000 <= v < 0x2000_0000_0000_0000 ==> Spacing(v) == 256
    ensures v < U64 ==> Spacing(v) <= 2048
  {
    assert Pow2(3) == 8 && Pow2(6) == 64 && Pow2(8) == 256 && Pow2(11) == 2048;
    if 0x1000_0000_0000_0000 <= v < 0x2000_0000_0000_0000 { SpacingAt(v, 8); }
    if v < U64 { SpacingGrows(v, U64 - 1); SpacingAt(U64 - 1, 11); }
  }

  function Pow2(k: nat): (p: nat)
    ensures p > 0
  {
    if k == 0 then 1 else 2 * Pow2(k - 1)
  }

  lemma {:induction false} SpacingAt(v: nat, k: nat)
    requires EXACT * Pow2(k) <= 2 * v < 2 * (EXACT * Pow2(k))
    ensures Spacing(v) == Pow2(k)
    decreases k
  {
    if k > 0 { SpacingAt(v / 2, k - 1); }
  }

  /** Counts further apart than the spacing stay apart, and in order. */
  lemma NumbersApart(a: nat, b: nat)
    requires a + Spacing(b) < b
    ensures Number(a) < Number(b)
  {
    NumberIsNearest(a);
    NumberIsNearest(b);
    SpacingGrows(a, b);
  }

  lemma NumberIsPositive(v: nat)
    requires v > 0
    ensures Number(v) > 0
  {
    if v >= EXACT {
      SpacingIsSmaller(v);
      NumberIsNearest(v);
    }
  }

  lemma {:induction false} SpacingIsSmaller(v: nat)
    requires v > 0
    ensures Spacing(v) <= v
    decreases v
  {
    if v >= EXACT { SpacingIsSmaller(v / 2); }
  }

  /** The spacing is needed: two counts of the size of a boot time, half of it apart, become one number. */
  lemma HalfSpacingCollapses()
    ensures Number(0x1000_0000_0000_0000) == Number(0x1000_0000_0000_0080)
  {
    SpacingOfCounts(0x1000_0000_0000_0000);
    SpacingOfCounts(0x1000_0000_0000_0080);
  }
}
