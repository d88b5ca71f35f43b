/** `Math.min`, `Math.max` and the `Math.max(lo, Math.min(hi, x))` clamp the handlers share. */
module Numbers {
  function Min(a: real, b: real): (r: real)
    ensures r <= a && r <= b && (r == a || r == b)
  {
    if a <= b then a else b
  }

  function Max(a: real, b: real): (r: real)
    ensures r >= a && r >= b && (r == a || r == b)
  {
    if a >= b then a else b
  }

  /** `Math.max(lo, Math.min(hi, x))`: within `[lo, hi]` when that range is not empty. */
  function Clamp(x: real, lo: real, hi: real): (r: real)
    ensures lo <= r && (lo <= hi ==> r <= hi)
    ensures lo <= x <= hi ==> r == x
    ensures x < lo ==> r == lo
    ensures lo <= hi < x ==> r == hi
  {
    Max(lo, Min(hi, x))
  }

  /** Clamping keeps the order of its inputs and clamping twice is clamping once. */
  lemma ClampMonotone(x: real, y: real, lo: real, hi: real)
    requires lo <= hi && x <= y
    ensures Clamp(x, lo, hi) <= Clamp(y, lo, hi)
    ensures Clamp(Clamp(x, lo, hi), lo, hi) == Clamp(x, lo, hi)
  {
  }
}
