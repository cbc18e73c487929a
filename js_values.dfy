/** JavaScript values as they arrive from parsed JSON, and the pieces of
    JavaScript semantics the dashboard leans on: `??`, array reads past the
    end, Boolean() and Number(). */
module JsValues {

  datatype Option<+T> = None | Some(value: T)

  /** A JSON scalar in a numeric slot: the upstream API sends numbers either as
      numbers or as numeric strings. `Undefined` stands for a field that is
      absent or null, and for an array element read past the end. */
  datatype JsValue = Undefined | Num(n: real) | Str(s: string)

  /** `a[i]` on a JSON array: `undefined` past the end. */
  function At(a: seq<JsValue>, i: nat): (v: JsValue)
    ensures i < |a| ==> v == a[i]
    ensures |a| <= i ==> v.Undefined?
  {
    if i < |a| then a[i] else Undefined
  }

  /** `a ?? b`: the right operand exactly when the left one is null or undefined. */
  function Coalesce(a: JsValue, b: JsValue): JsValue {
    if a.Undefined? then b else a
  }

  /** `Boolean(x)` on an optional boolean field: an absent flag is false. */
  function Boolean(x: Option<bool>): bool {
    x == Some(true)
  }

  /** JavaScript's Number() is a parameter of the model (string parsing is not
      modelled); a faithful coercion gives every number back unchanged. */
  ghost predicate NumberKeepsNumbers(number: JsValue -> real) {
    forall x: real :: number(Num(x)) == x
  }
}
