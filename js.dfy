/** JavaScript value semantics the storefront relies on: optional fields,
    `a || b` defaulting, and the numbers `Number(...)` can produce. */
module Js {

  datatype Option<+T> = None | Some(value: T)

  /** A JavaScript number as far as this model needs it: a finite value or NaN. */
  datatype JsNumber = Finite(n: real) | NaN {
    /** `x || 0` on a number: NaN and 0 are falsy. */
    function OrZero(): (r: real)
      ensures Finite? && n != 0.0 ==> r == n
      ensures NaN? ==> r == 0.0
    {
      if Finite? then n else 0.0
    }

    /** `Math.max(this, other)`: NaN if either operand is NaN. */
    function Max(other: JsNumber): (r: JsNumber)
      ensures r.NaN? <==> NaN? || other.NaN?
      ensures r.Finite? ==> r.n >= n && r.n >= other.n && (r.n == n || r.n == other.n)
    {
      if NaN? || other.NaN? then NaN
      else if n >= other.n then this else other
    }

    /** `this + k`. */
    function Plus(k: real): (r: JsNumber)
      ensures r.NaN? <==> NaN?
      ensures r.Finite? ==> r.n == n + k
    {
      if NaN? then NaN else Finite(n + k)
    }

    /** `this + other`. */
    function Add(other: JsNumber): (r: JsNumber)
      ensures r.NaN? <==> NaN? || other.NaN?
      ensures r.Finite? ==> r.n == n + other.n
    {
      if NaN? || other.NaN? then NaN else Finite(n + other.n)
    }

    /** `this * k`. */
    function Times(k: real): (r: JsNumber)
      ensures r.NaN? <==> NaN?
      ensures r.Finite? ==> r.n == n * k
    {
      if NaN? then NaN else Finite(n * k)
    }

    /** `this * other` on two numbers: NaN when either side is. */
    function Mul(other: JsNumber): (r: JsNumber)
      ensures r.NaN? <==> NaN? || other.NaN?
      ensures r.Finite? ==> r.n == n * other.n
    {
      if NaN? || other.NaN? then NaN else Finite(n * other.n)
    }
  }

  /** Truthiness of an optional number field: absent and 0 are falsy. */
  predicate TruthyNum(x: Option<real>) {
    x.Some? && x.value != 0.0
  }

  /** `x || fallback` for an optional number field. */
  function OrNum(x: Option<real>, fallback: real): (r: real)
    ensures TruthyNum(x) ==> r == x.value
    ensures !TruthyNum(x) ==> r == fallback
  {
    if TruthyNum(x) then x.value else fallback
  }

  /** Truthiness of an optional string field: absent and the empty string are falsy. */
  predicate TruthyStr(x: Option<string>) {
    x.Some? && x.value != ""
  }

  /** `x || fallback` for an optional string field. */
  function OrStr(x: Option<string>, fallback: string): (r: string)
    ensures TruthyStr(x) ==> r == x.value
    ensures !TruthyStr(x) ==> r == fallback
  {
    if TruthyStr(x) then x.value else fallback
  }

  /** `s || fallback` for a string that is always present. */
  function OrText(s: string, fallback: string): (r: string)
    ensures s != "" ==> r == s
    ensures s == "" ==> r == fallback
  {
    if s != "" then s else fallback
  }

  /** `Math.max(a, b)` on finite numbers. */
  function MaxReal(a: real, b: real): (r: real)
    ensures r >= a && r >= b && (r == a || r == b)
  {
    if a >= b then a else b
  }

  /** `Math.min(a, b)` on finite numbers. */
  function MinReal(a: real, b: real): (r: real)
    ensures r <= a && r <= b && (r == a || r == b)
  {
    if a <= b then a else b
  }
}
