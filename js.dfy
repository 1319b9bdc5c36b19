/**
 * The JavaScript values the build callback handler meets: what `JSON.parse`
 * can produce, plus `undefined`, which is what reading a property the body
 * does not have yields.
 */
module Js {

  datatype Value =
    | Undefined
    | Null
    | Bool(b: bool)
    | Num(n: real)                      // the finite value of a parsed IEEE double; JSON has no NaN
    | Str(s: string)
    | Arr(elems: seq<Value>)
    | Obj(props: map<string, Value>)    // own properties, after duplicate keys were resolved by the parser

  /** JavaScript's ToBoolean, as used by `!x` and `if (x)`. */
  predicate Truthy(v: Value) {
    match v
    case Undefined => false
    case Null => false
    case Bool(b) => b
    case Num(n) => n != 0.0
    case Str(s) => s != ""
    case Arr(_) => true
    case Obj(_) => true
  }

  /**
   * Reading `v.key` from a value that is neither `null` nor `undefined`: an
   * object's own property, and `undefined` for anything else. This holds for
   * the keys the handler reads, none of which is defined by the prototype of
   * a primitive, an array or a plain object.
   */
  function Property(v: Value, key: string): Value
    requires !v.Undefined? && !v.Null?
  {
    if v.Obj? && key in v.props then v.props[key] else Undefined
  }

  /** The falsy values are exactly `undefined`, `null`, `false`, `0` and `""`. */
  lemma FalsyValues(v: Value)
    ensures !Truthy(v) <==> v in {Undefined, Null, Bool(false), Num(0.0), Str("")}
  {
  }
}
