/** JavaScript values as the plugin uses them: a field that may be `undefined`,
    truthiness of strings, and the `a || b` operator on optional strings. */
module JsValues {

  /** A value that may be `undefined` (or `null`, which the plugin treats alike). */
  datatype Option<+T> = None | Some(value: T)

  /** A string value is truthy exactly when it is defined and not empty. */
  predicate Truthy(s: Option<string>)
  {
    s.Some? && s.value != ""
  }

  /** `a || b`: the first operand when it is truthy, otherwise the second. */
  function Or(a: Option<string>, b: Option<string>): (r: Option<string>)
    ensures Truthy(a) ==> r == a
    ensures !Truthy(a) ==> r == b
    ensures Truthy(r) <==> Truthy(a) || Truthy(b)
  {
    if Truthy(a) then a else b
  }

  /** The few primitive values the deletion filter compares. */
  datatype Primitive = Undefined | Boolean(b: bool) | Number(n: int)

  /** `!v`: a boolean, true exactly when `v` is falsy (`undefined`, `false`, `0`). */
  function Not(v: Primitive): (r: Primitive)
    ensures r.Boolean?
  {
    match v
    case Undefined => Boolean(true)
    case Boolean(b) => Boolean(!b)
    case Number(n) => Boolean(n == 0)
  }

  /** `a === b`: same type and same value. */
  predicate StrictEquals(a: Primitive, b: Primitive)
  {
    match (a, b)
    case (Undefined, Undefined) => true
    case (Boolean(x), Boolean(y)) => x == y
    case (Number(x), Number(y)) => x == y
    case _ => false
  }
}
