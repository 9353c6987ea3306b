/** `Math.round` applied to a quotient, computed exactly on integers. */
module Rounding {

  /** `Math.round(p / q)` for a positive `q`: the integer nearest to `p / q`, a half rounded up
      (towards positive infinity, as `Math.round` does). The quotient is exact here, where the
      source divides in floating point. */
  function RoundRatio(p: int, q: int): (r: int)
    requires q > 0
    ensures 2 * q * r - q <= 2 * p < 2 * q * r + q
  {
    (2 * p + q) / (2 * q)
  }

  /** The characterisation in `RoundRatio`'s contract fixes its result: no other integer is within
      half of `p / q` with ties resolved upwards. */
  lemma RoundRatioUnique(p: int, q: int, r: int)
    requires q > 0
    requires 2 * q * r - q <= 2 * p < 2 * q * r + q
    ensures RoundRatio(p, q) == r
  {
    var s := RoundRatio(p, q);
    if s < r {
      // 2qs + q <= 2qr - q, yet 2qr - q <= 2p < 2qs + q
      assert 2 * q * s + 2 * q <= 2 * q * r by { ScaleLessThan(q, s, r); }
    } else if r < s {
      assert 2 * q * r + 2 * q <= 2 * q * s by { ScaleLessThan(q, r, s); }
    }
  }

  lemma ScaleLessThan(q: int, a: int, b: int)
    requires q > 0 && a < b
    ensures 2 * q * a + 2 * q <= 2 * q * b
  {
    assert 2 * q * b - 2 * q * a == 2 * q * (b - a);
    assert b - a >= 1;
    assert 2 * q * (b - a) >= 2 * q * 1;
  }

  /** A larger numerator never rounds to a smaller integer. */
  lemma RoundRatioMonotone(p1: int, p2: int, q: int)
    requires q > 0 && p1 <= p2
    ensures RoundRatio(p1, q) <= RoundRatio(p2, q)
  {
    var r1, r2 := RoundRatio(p1, q), RoundRatio(p2, q);
    if r2 < r1 {
      ScaleLessThan(q, r2, r1);
    }
  }

  /** A quotient between `lo` and `hi` rounds to an integer between `lo` and `hi`. */
  lemma RoundRatioBetween(p: int, q: int, lo: int, hi: int)
    requires q > 0 && lo * q <= p <= hi * q
    ensures lo <= RoundRatio(p, q) <= hi
  {
    var r := RoundRatio(p, q);
    if r < lo {
      ScaleLessThan(q, r, lo);
    }
    if hi < r {
      ScaleLessThan(q, hi, r);
    }
  }

  /** A whole-number quotient is returned as it is. */
  lemma RoundRatioExact(k: int, q: int)
    requires q > 0
    ensures RoundRatio(k * q, q) == k
  {
    assert 2 * q * k == 2 * (k * q);
    RoundRatioUnique(k * q, q, k);
  }
}
