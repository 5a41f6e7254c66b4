/**
 * JavaScript numbers as far as the option handling of the routes needs them.
 * A finite double is modelled by the real it denotes (no rounding); NaN and the
 * two infinities are kept apart because `Number.isFinite`, `Math.max`/`Math.min`
 * and `Array.prototype.slice` treat them specially.
 */
module JsNumber {
  import opened Wrappers

  datatype Number = Finite(x: real) | NaN | PosInf | NegInf

  /** `Number.isFinite(v)` of an optional property: false for `undefined` and for non-numbers. */
  predicate IsFinite(v: Option<Number>) {
    v.Some? && v.value.Finite?
  }

  function MaxReal(a: real, b: real): (r: real)
    ensures r >= a && r >= b && (r == a || r == b)
  {
    if a >= b then a else b
  }

  function MinReal(a: real, b: real): (r: real)
    ensures r <= a && r <= b && (r == a || r == b)
  {
    if a <= b then a else b
  }

  /** `Math.max(a, b)`: NaN as soon as one argument is NaN. */
  function Max(a: Number, b: Number): (r: Number)
    ensures r.NaN? <==> a.NaN? || b.NaN?
  {
    if a.NaN? || b.NaN? then NaN
    else if a.PosInf? || b.PosInf? then PosInf
    else if a.NegInf? then b
    else if b.NegInf? then a
    else Finite(MaxReal(a.x, b.x))
  }

  /** `Math.min(a, b)`: NaN as soon as one argument is NaN. */
  function Min(a: Number, b: Number): (r: Number)
    ensures r.NaN? <==> a.NaN? || b.NaN?
  {
    if a.NaN? || b.NaN? then NaN
    else if a.NegInf? || b.NegInf? then NegInf
    else if a.PosInf? then b
    else if b.PosInf? then a
    else Finite(MinReal(a.x, b.x))
  }

  /** Rounding toward zero. */
  function Trunc(x: real): (n: int)
    ensures x >= 0.0 ==> 0 <= n && n as real <= x < n as real + 1.0
    ensures x < 0.0 ==> n <= 0 && n as real - 1.0 < x <= n as real
  {
    if x >= 0.0 then x.Floor else -((-x).Floor)
  }

  /** The end index `slice(0, end)` stops at on an array of length `len` (ToIntegerOrInfinity, then clamping). */
  function SliceEnd(len: nat, end: Number): (r: nat)
    ensures r <= len
    ensures end.Finite? && end.x >= 0.0 ==> r == if Trunc(end.x) <= len then Trunc(end.x) else len
  {
    match end
      case NaN => 0
      case NegInf => 0
      case PosInf => len
      case Finite(x) =>
        var n := Trunc(x);
        if n < 0 then (if len + n < 0 then 0 else len + n)
        else if n <= len then n else len
  }
}
