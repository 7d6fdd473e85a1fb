/**
 * The generic linear range mapping of the package, for its integer
 * instantiations: `val` in the source range is carried to the destination
 * range with Go's truncating integer division.
 */
module Mapping {
  import opened GoTypes

  /**
   * Map: `dstMin + (val - srcMin) * (dstMax - dstMin) / (srcMax - srcMin)`,
   * the product formed first. An empty source range is a division by zero
   * in Go, so it is excluded.
   */
  function Map(val: int, srcMin: int, srcMax: int, dstMin: int, dstMax: int): (r: int)
    requires srcMax != srcMin
    ensures var num, den := (val - srcMin) * (dstMax - dstMin), srcMax - srcMin;
      && Abs((r - dstMin) * den) <= Abs(num)
      && Abs(num - (r - dstMin) * den) < Abs(den)
      && (num - (r - dstMin) * den == 0 || (num - (r - dstMin) * den < 0 <==> num < 0))
  {
    dstMin + Quot((val - srcMin) * (dstMax - dstMin), srcMax - srcMin)
  }

  /** The start of the source range goes to the start of the destination range. */
  lemma MapAtMin(srcMin: int, srcMax: int, dstMin: int, dstMax: int)
    requires srcMax != srcMin
    ensures Map(srcMin, srcMin, srcMax, dstMin, dstMax) == dstMin
  {
    QuotExact(0, srcMax - srcMin);
  }

  /** The end of the source range goes exactly to the end of the destination range: the division leaves no remainder. */
  lemma MapAtMax(srcMin: int, srcMax: int, dstMin: int, dstMax: int)
    requires srcMax != srcMin
    ensures Map(srcMax, srcMin, srcMax, dstMin, dstMax) == dstMax
  {
    var s, d := srcMax - srcMin, dstMax - dstMin;
    assert s * d == d * s;
    QuotExact(d, s);
  }

  /** A value inside an increasing source range lands between the two ends of the destination range. */
  lemma MapInRange(val: int, srcMin: int, srcMax: int, dstMin: int, dstMax: int)
    requires srcMin <= val <= srcMax && srcMin < srcMax
    ensures var r := Map(val, srcMin, srcMax, dstMin, dstMax);
      if dstMin <= dstMax then dstMin <= r <= dstMax else dstMax <= r <= dstMin
  {
    var s, v := srcMax - srcMin, val - srcMin;
    if dstMin <= dstMax {
      ScaleUp(v, s, dstMax - dstMin);
    } else {
      ScaleDown(v, s, dstMin - dstMax);
    }
  }

  /** A fraction `v / s` of a non-negative span `d` lies in `[0, d]`. */
  lemma ScaleUp(v: nat, s: nat, d: nat)
    requires v <= s && 0 < s
    ensures 0 <= Quot(v * d, s) <= d
  {
    ScaledWithin(v, s, d);
    QuotOfNatural(v * d, s);
    DivideBelow(v * d, s, d);
  }

  /** A fraction `v / s` of a negative span `-d` lies in `[-d, 0]`, the quotient truncated toward zero. */
  lemma ScaleDown(v: nat, s: nat, d: int)
    requires v <= s && 0 < s && 0 <= d
    ensures -d <= Quot(v * -d, s) <= 0
  {
    ScaledWithin(v, s, d);
    assert v * -d == -(v * d);
    QuotOfNegative(-(v * d), s);
    DivideBelow(v * d, s, d);
  }

  lemma ScaledWithin(v: nat, s: nat, d: nat)
    requires v <= s
    ensures 0 <= v * d <= s * d
  {
    MultiplyMonotone(v, s, d);
  }

  /** With a non-decreasing destination range, Map does not decrease. */
  lemma MapMonotone(v1: int, v2: int, srcMin: int, srcMax: int, dstMin: int, dstMax: int)
    requires srcMin <= v1 <= v2 && srcMin < srcMax && dstMin <= dstMax
    ensures Map(v1, srcMin, srcMax, dstMin, dstMax) <= Map(v2, srcMin, srcMax, dstMin, dstMax)
  {
    var s, d := srcMax - srcMin, dstMax - dstMin;
    MultiplyMonotone(v1 - srcMin, v2 - srcMin, d);
    QuotOfNatural((v1 - srcMin) * d, s);
    QuotOfNatural((v2 - srcMin) * d, s);
    DivideMonotone((v1 - srcMin) * d, (v2 - srcMin) * d, s);
  }

  lemma DivideMonotone(x: nat, y: nat, d: nat)
    requires x <= y && 0 < d
    ensures x / d <= y / d
  {
    var qx, qy := x / d, y / d;
    assert x == qx * d + x % d && y == qy * d + y % d;
    if qx > qy {
      MultiplyMonotone(qy + 1, qx, d);
    }
  }
}
