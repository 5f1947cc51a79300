/** Real numbers limited to the unit interval, and the few functions on reals that several modules need. */
module UnitIntervals {

  predicate IsUnit(x: real) { 0.0 <= x <= 1.0 }

  function Min(a: real, b: real): real { if b < a then b else a }
  function Max(a: real, b: real): real { if a < b then b else a }
  function Abs(a: real): real { if a < 0.0 then -a else a }

  function Clamp(lo: real, hi: real, x: real): real {
    Min(Max(x, lo), hi)
  }

  /** Values are limited to the unit interval. */
  function Limit(x: real): real {
    if x > 1.0 then 1.0 else if x < 0.0 then 0.0 else x
  }

  function Sum(xs: seq<real>): real {
    if xs == [] then 0.0 else Sum(xs[..|xs| - 1]) + xs[|xs| - 1]
  }
}
