/**
 * The slice of JavaScript's value model that the core relies on: primitive values,
 * truthiness, and plain objects whose own enumerable properties are updated in place.
 */
module Js {

  /** A plain object. `props` holds its own enumerable properties, by key. */
  class JsObject {
    var props: map<string, Value>

    constructor (props: map<string, Value>)
      ensures this.props == props
    {
      this.props := props;
    }
  }

  /**
   * A JavaScript value. Numbers are integers here; `Fn(id)` is a function value,
   * told apart from other functions by its identity `id`.
   */
  datatype Value =
    | Undefined
    | Null
    | Bool(b: bool)
    | Num(n: int)
    | Str(s: string)
    | Fn(id: nat)
    | Obj(o: JsObject)

  /** JavaScript's `!!v`: everything is truthy except undefined, null, false, 0 and "". */
  predicate Truthy(v: Value)
  {
    match v
    case Undefined => false
    case Null => false
    case Bool(b) => b
    case Num(n) => n != 0
    case Str(s) => s != ""
    case Fn(_) => true
    case Obj(_) => true
  }

  /** `typeof v === 'object'` for a truthy `v` (null is the one falsy object). */
  predicate IsObject(v: Value)
  {
    v.Obj?
  }

  /** The objects whose properties an operation on `v` may read or write. */
  function Footprint(v: Value): set<JsObject>
  {
    if v.Obj? then {v.o} else {}
  }

  /** `v[key]` for an object, `undefined` for a missing key or a value that is not an object. */
  function Field(v: Value, key: string): Value
    reads Footprint(v)
  {
    if v.Obj? && key in v.o.props then v.o.props[key] else Undefined
  }
}
