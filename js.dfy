/** JavaScript numbers as the model sees them: exact reals, plus NaN where the source can produce it. */
module Js {

  /** A JavaScript number that is either finite (`Num`) or NaN. Infinities and -0 are not modelled. */
  datatype Number = Num(value: real) | NaN

  /** The value of `Math.PI`, as the positive real constant it is treated as. */
  const PI: real := 3.141592653589793

  /** `Math.round`: the nearest integer, halves rounded towards positive infinity. */
  function Round(x: real): (r: int)
    ensures x - 0.5 < r as real <= x + 0.5
  {
    (x + 0.5).Floor
  }

  /** `Math.ceil`. */
  function Ceil(x: real): (r: int)
    ensures x <= r as real < x + 1.0
  {
    -((-x).Floor)
  }

  function Abs(x: real): real { if x < 0.0 then -x else x }

  function Min(a: real, b: real): real { if a <= b then a else b }

  function Max(a: real, b: real): real { if a >= b then a else b }

  /** `Math.min(a, b)`: NaN if either argument is NaN. */
  function NumMin(a: Number, b: Number): (r: Number)
    ensures r.NaN? <==> a.NaN? || b.NaN?
    ensures r.Num? ==> r.value <= a.value && r.value <= b.value && (r.value == a.value || r.value == b.value)
  {
    if a.NaN? || b.NaN? then NaN else Num(Min(a.value, b.value))
  }

  /** `Math.max(a, b)`: NaN if either argument is NaN. */
  function NumMax(a: Number, b: Number): (r: Number)
    ensures r.NaN? <==> a.NaN? || b.NaN?
    ensures r.Num? ==> r.value >= a.value && r.value >= b.value && (r.value == a.value || r.value == b.value)
  {
    if a.NaN? || b.NaN? then NaN else Num(Max(a.value, b.value))
  }

  /** `Math.min(upper, Math.max(lower, x))`. */
  function Clamp(lower: Number, upper: Number, x: Number): Number
  {
    NumMin(upper, NumMax(lower, x))
  }

  /** What `Clamp` gives: NaN exactly when an argument is NaN; otherwise a value in
    * [lower, upper] when that range is not empty, `x` itself when it is already inside, and
    * `upper` when the range is empty. */
  lemma ClampFacts(lower: Number, upper: Number, x: Number)
    ensures Clamp(lower, upper, x).NaN? <==> lower.NaN? || upper.NaN? || x.NaN?
    ensures var r := Clamp(lower, upper, x);
      r.Num? && lower.value <= upper.value ==> lower.value <= r.value <= upper.value
    ensures x.Num? && lower.Num? && upper.Num? && lower.value <= x.value <= upper.value ==>
      Clamp(lower, upper, x) == x
    ensures lower.Num? && upper.Num? && x.Num? && lower.value > upper.value ==>
      Clamp(lower, upper, x) == upper
  {
  }

  /** Clamping a clamped value changes nothing. */
  lemma ClampIdempotent(lower: Number, upper: Number, x: Number)
    ensures Clamp(lower, upper, Clamp(lower, upper, x)) == Clamp(lower, upper, x)
  {
  }

  /** JavaScript's `===` on numbers: NaN equals nothing, not even itself. */
  predicate StrictEquals(a: Number, b: Number)
  {
    a.Num? && b.Num? && a.value == b.value
  }
}
