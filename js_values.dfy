/**
 * The part of JavaScript's value model that the event builder depends on:
 * the kinds of value a parsed plan object can hold, the ToBoolean
 * conversion behind `if (x)` and `||`, and the two wrapper datatypes used
 * for optional object keys and thrown errors.
 */
module JsValues {

  /** A key that may or may not have been assigned on an object. */
  datatype Option<+T> = None | Some(value: T)

  /** A completed call: a returned value, or an exception thrown out of it. */
  datatype Result<+T, +E> = Success(value: T) | Failure(error: E)

  /**
   * A JavaScript value. Numbers are finite and held exactly (`real`);
   * `NaN` is kept apart because it is falsy. Objects are their own
   * properties by name; arrays are their elements in order.
   */
  datatype Value =
    | Undefined
    | Null
    | Bool(b: bool)
    | Number(n: real)
    | NaN
    | Str(s: string)
    | Array(elements: seq<Value>)
    | Object(properties: map<string, Value>)

  /**
   * ToBoolean, section 7.1.2 of ECMA-262: undefined, null, false, +0, -0,
   * NaN and the empty string are falsy; every other value, including an
   * empty array or an empty object, is truthy.
   */
  predicate Truthy(v: Value) {
    match v
    case Undefined | Null | NaN => false
    case Bool(b) => b
    case Number(n) => n != 0.0
    case Str(s) => s != ""
    case Array(_) | Object(_) => true
  }

  /**
   * The exception a property read on undefined or null throws: the value
   * read from and the name of the property asked for.
   */
  datatype TypeError = TypeError(receiver: Value, property: string)

  /** The two values whose property reads throw a TypeError. */
  predicate Nullish(v: Value) {
    v.Undefined? || v.Null?
  }

  /**
   * The logical OR operator `a || b` (section 13.13 of ECMA-262): the
   * result is one of the operands, it is truthy exactly when one of them
   * is, and the left one wins whenever it is truthy.
   */
  function Or(a: Value, b: Value): (r: Value)
    ensures r == a || r == b
    ensures Truthy(r) <==> Truthy(a) || Truthy(b)
    ensures Truthy(a) ==> r == a
    ensures !Truthy(a) ==> r == b
  {
    if Truthy(a) then a else b
  }
}
