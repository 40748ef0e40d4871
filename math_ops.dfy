/** `Math.min`, `Math.max` and the `Math.max(lo, Math.min(hi, v))` clamp
    idiom, over reals (IEEE-754 rounding and NaN are not modelled). */
module MathOps {

  function Min(a: real, b: real): (r: real)
    ensures r <= a && r <= b
    ensures r == a || r == b
  {
    if a <= b then a else b
  }

  function Max(a: real, b: real): (r: real)
    ensures r >= a && r >= b
    ensures r == a || r == b
  {
    if a >= b then a else b
  }

  /** `Math.max(lo, Math.min(hi, v))`. */
  function Clamp(lo: real, hi: real, v: real): (r: real)
    requires lo <= hi
    ensures lo <= r <= hi
    ensures lo <= v <= hi ==> r == v
    ensures v < lo ==> r == lo
    ensures v > hi ==> r == hi
  {
    Max(lo, Min(hi, v))
  }

  /** A length as a percentage of a positive size (`length / size * 100`). */
  function Percent(length: real, size: real): real
    requires size > 0.0
  {
    length / size * 100.0
  }

  /** Taking a percentage of a positive size and reading it back as a
      percentage of that size gives the percentage. */
  lemma PercentOfPercent(size: real, percent: real)
    requires size > 0.0
    ensures Percent(percent / 100.0 * size, size) == percent
  {
    var f := percent / 100.0;
    assert (f * size) / size == f;
  }
}
