/**
 Small numeric helpers shared by every component: an Option type for the
 estimator's "no estimate" result, JavaScript's Math.floor / Math.ceil /
 Math.round on exact reals, the Math.max(lo, Math.min(hi, v)) clamp and the
 first-order low-pass step `a += (b - a) * k` that the tracker uses
 everywhere.
 */
module Basics {

  datatype Option<+T> = None | Some(value: T)

  /** Math.floor: the greatest integer not above x. */
  function Floor(x: real): (r: int)
    ensures r as real <= x < r as real + 1.0
  {
    x.Floor
  }

  /** Math.ceil: the least integer not below x. */
  function Ceil(x: real): (r: int)
    ensures x <= r as real < x + 1.0
  {
    -((-x).Floor)
  }

  /** Math.round: the nearest integer, halves rounded towards +infinity. */
  function Round(x: real): (r: int)
    ensures x - 0.5 < r as real <= x + 0.5
  {
    (x + 0.5).Floor
  }

  function MaxInt(a: int, b: int): (r: int)
    ensures r >= a && r >= b && (r == a || r == b)
  {
    if a >= b then a else b
  }

  function MinInt(a: int, b: int): (r: int)
    ensures r <= a && r <= b && (r == a || r == b)
  {
    if a <= b then a else b
  }

  /** x lies on the closed segment between a and b, in either order. */
  predicate Between(a: real, x: real, b: real)
  {
    (a <= x <= b) || (b <= x <= a)
  }

  /**
   Math.max(lo, Math.min(hi, v)). When hi < lo the result is lo, so the
   result never falls below lo.
   */
  function Clamp(lo: real, hi: real, v: real): (r: real)
    ensures lo <= r
    ensures r <= hi || r == lo
    ensures lo <= v <= hi ==> r == v
    ensures v < lo ==> r == lo
    ensures lo <= hi < v ==> r == hi
  {
    if hi <= v then (if lo <= hi then hi else lo)
    else if lo <= v then v
    else lo
  }

  /**
   One low-pass step `a + (b - a) * k`: for a gain in [0,1] the result lies
   between the old value and the goal, and the remaining gap to the goal
   shrinks by the factor 1 - k.
   */
  function Approach(a: real, b: real, k: real): (r: real)
    ensures 0.0 <= k <= 1.0 ==> Between(a, r, b)
    ensures b - r == (1.0 - k) * (b - a)
  {
    ApproachFacts(a, b, k);
    a + (b - a) * k
  }

  lemma ApproachFacts(a: real, b: real, k: real)
    ensures b - (a + (b - a) * k) == (1.0 - k) * (b - a)
    ensures 0.0 <= k <= 1.0 ==> Between(a, a + (b - a) * k, b)
  {
    var d := b - a;
    assert (1.0 - k) * d == d - k * d;
    assert d * k == k * d;
    if 0.0 <= k <= 1.0 {
      if d >= 0.0 {
        assert k * d >= 0.0;
        assert (1.0 - k) * d >= 0.0;
      } else {
        assert k * (-d) >= 0.0;
        assert (1.0 - k) * (-d) >= 0.0;
      }
    }
  }
}
