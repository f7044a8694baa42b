/**
 * The JavaScript values a bunyan record and the stream's options are made of,
 * with the three pieces of JavaScript semantics the stream relies on:
 * truthiness (the `||` defaults of the constructor), `typeof` tests, and
 * String() conversion (template literals and property-name lookups).
 */
module JsValues {
  import opened Wrappers
  import Decimal

  /**
   * A JSON-like JavaScript value. Numbers are integral; `Date` is a Date
   * object holding milliseconds since the epoch.
   */
  datatype Value =
    | Undefined
    | Null
    | Bool(b: bool)
    | Num(n: int)
    | Str(s: string)
    | Arr(items: seq<Value>)
    | Obj(fields: map<string, Value>)
    | Date(ms: int)

  /** JavaScript's ToBoolean. */
  predicate Truthy(v: Value) {
    match v
    case Undefined => false
    case Null => false
    case Bool(b) => b
    case Num(n) => n != 0
    case Str(s) => s != ""
    case _ => true
  }

  /** The value of `a || b`. */
  function Or(a: Value, b: Value): Value {
    if Truthy(a) then a else b
  }

  /**
   * JavaScript's String(v). A Date prints in the host's local time zone,
   * which this model does not fix, so its text (and that of an array holding
   * one) is left unknown: None. Numbers print as `Decimal.IntText` does, so
   * not in exponent form. Values hold no functions, so an object prints as
   * "[object Object]"; an object whose own `toString` or `valueOf` is not
   * callable, for which JavaScript throws a TypeError, is not told apart.
   */
  function Text(v: Value): Option<string>
    decreases v
  {
    match v
    case Undefined => Some("undefined")
    case Null => Some("null")
    case Bool(b) => Some(if b then "true" else "false")
    case Num(n) => Some(Decimal.IntText(n))
    case Str(s) => Some(s)
    case Arr(items) => Join(items)
    case Obj(_) => Some("[object Object]")
    case Date(_) => None
  }

  /** Array.prototype.join(","): null and undefined elements print as "". */
  function Join(items: seq<Value>): Option<string>
    decreases items
  {
    if items == [] then Some("")
    else
      var head := if items[0].Undefined? || items[0].Null? then Some("") else Text(items[0]);
      if |items| == 1 then head
      else
        var tail := Join(items[1..]);
        if head.Some? && tail.Some? then Some(head.value + "," + tail.value) else None
  }
}
