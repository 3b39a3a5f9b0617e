/**
 * The OKLCH demo's number inputs: each stores
 * `Math.max(lo, Math.min(hi, Number(value)))`.
 * A JavaScript number is a real, an infinity or NaN; rounding of finite
 * doubles is not modelled.
 */
module Oklch {
  datatype JsNumber = Finite(value: real) | Infinity(positive: bool) | NaN

  /** Order on the non-NaN numbers, infinities at the ends. */
  predicate LessEq(a: JsNumber, b: JsNumber)
    requires !a.NaN? && !b.NaN?
  {
    match (a, b)
    case (Finite(x), Finite(y)) => x <= y
    case (Infinity(p), _) => !p || b == Infinity(true)
    case (_, Infinity(q)) => q
  }

  /** `Math.min(a, b)`: NaN if either is NaN. */
  function Min(a: JsNumber, b: JsNumber): (m: JsNumber)
    ensures m.NaN? <==> a.NaN? || b.NaN?
    ensures !m.NaN? ==> (m == a || m == b) && LessEq(m, a) && LessEq(m, b)
  {
    if a.NaN? || b.NaN? then NaN else if LessEq(a, b) then a else b
  }

  /** `Math.max(a, b)`: NaN if either is NaN. */
  function Max(a: JsNumber, b: JsNumber): (m: JsNumber)
    ensures m.NaN? <==> a.NaN? || b.NaN?
    ensures !m.NaN? ==> (m == a || m == b) && LessEq(a, m) && LessEq(b, m)
  {
    if a.NaN? || b.NaN? then NaN else if LessEq(a, b) then b else a
  }

  /** `Math.max(lo, Math.min(hi, x))`. */
  function Clamp(lo: real, hi: real, x: JsNumber): (r: JsNumber)
    ensures r.NaN? <==> x.NaN?
    ensures lo <= hi && !x.NaN? ==> r.Finite? && lo <= r.value <= hi
    ensures x.Finite? && lo <= x.value <= hi ==> r == x
    ensures lo <= hi && (x == Infinity(false) || (x.Finite? && x.value < lo)) ==> r == Finite(lo)
    ensures lo <= hi && (x == Infinity(true) || (x.Finite? && x.value > hi)) ==> r == Finite(hi)
    ensures lo > hi && !x.NaN? ==> r == Finite(lo)
  {
    Max(Finite(lo), Min(Finite(hi), x))
  }

  /** The lightness input, in percent. */
  function SetLightness(x: JsNumber): (v: JsNumber)
    ensures v.NaN? <==> x.NaN?
    ensures !x.NaN? ==> v.Finite? && 0.0 <= v.value <= 100.0
    ensures x.Finite? && 0.0 <= x.value <= 100.0 ==> v == x
  {
    Clamp(0.0, 100.0, x)
  }

  /** The chroma input. */
  function SetChroma(x: JsNumber): (v: JsNumber)
    ensures v.NaN? <==> x.NaN?
    ensures !x.NaN? ==> v.Finite? && 0.0 <= v.value <= 1.0
    ensures x.Finite? && 0.0 <= x.value <= 1.0 ==> v == x
  {
    Clamp(0.0, 1.0, x)
  }

  /** The hue input, in degrees. */
  function SetHue(x: JsNumber): (v: JsNumber)
    ensures v.NaN? <==> x.NaN?
    ensures !x.NaN? ==> v.Finite? && 0.0 <= v.value <= 360.0
    ensures x.Finite? && 0.0 <= x.value <= 360.0 ==> v == x
  {
    Clamp(0.0, 360.0, x)
  }

  /** Clamping twice is clamping once. */
  lemma ClampIdempotent(lo: real, hi: real, x: JsNumber)
    requires lo <= hi
    ensures Clamp(lo, hi, Clamp(lo, hi, x)) == Clamp(lo, hi, x)
  {
  }
}
