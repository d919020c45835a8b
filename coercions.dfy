/**
 * JavaScript's `String(x)`, `Number(x)` and `x || 0` on the values a record
 * holds. Formatting a number as text and parsing text as a number are
 * floating-point routines; they are parameters of the model (a `Coercion`),
 * and everything else about the two conversions is fixed here.
 */
module Coercions {
  import opened Wrappers
  import opened Types

  /** The engine's number formatting and number parsing. */
  datatype Coercion = Coercion(numberToString: Number -> string, stringToNumber: string -> Number)

  const Zero: Number := Finite(0.0)

  /** `String(x)` for a property read `x` (None is `undefined`). */
  function Text(js: Coercion, x: Option<Value>): (r: string)
    ensures x == None ==> r == "undefined"
    ensures x.Some? && x.value.Str? ==> r == x.value.s
  {
    match x
    case None => "undefined"
    case Some(Str(s)) => s
    case Some(Num(n)) => js.numberToString(n)
  }

  /** `Number(x)` for a property read `x`: `undefined` is NaN, a number passes through. */
  function ToNumber(js: Coercion, x: Option<Value>): (r: Number)
    ensures x == None ==> r == NaN
    ensures x.Some? && x.value.Num? ==> r == x.value.n
  {
    match x
    case None => NaN
    case Some(Num(n)) => n
    case Some(Str(s)) => js.stringToNumber(s)
  }

  /** The falsy numbers: NaN and zero. */
  predicate FalsyNumber(n: Number)
  {
    n == NaN || n == Zero
  }

  /** The falsy property reads: `undefined`, `""`, NaN and zero. */
  predicate Falsy(x: Option<Value>)
  {
    x == None || x == Some(Str("")) || (x.Some? && x.value.Num? && FalsyNumber(x.value.n))
  }

  /** `found?.y || 0`: a found number unless it is missing or falsy, and never NaN. */
  function NumberOrZero(found: Option<Number>): (r: Number)
    ensures r != NaN
    ensures found.Some? && !FalsyNumber(found.value) ==> r == found.value
    ensures found == None || FalsyNumber(found.value) ==> r == Zero
  {
    if found.Some? && !FalsyNumber(found.value) then found.value else Zero
  }

  /** `found?.value || 0` on a raw property read. */
  function ValueOrZero(found: Option<Value>): (r: Value)
    ensures r != Num(NaN) && r != Str("")
    ensures !Falsy(found) ==> Some(r) == found
    ensures Falsy(found) ==> r == Num(Zero)
  {
    if Falsy(found) then Num(Zero) else found.value
  }
}
