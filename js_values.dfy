/** JavaScript values as the two field builders see them: the arguments the
    GraphQL engine hands to a resolver, the payload objects user callbacks
    return, and the settled outcome of a deferred (promise) value. */
module JsValues {

  /** A JavaScript value. Numbers are modelled as integers; functions, symbols
      and prototypes do not occur in the data the builders touch. */
  datatype Value =
    | Undefined
    | Null
    | Bool(b: bool)
    | Number(n: int)
    | Str(s: string)
    | Array(elems: seq<Value>)
    | Object(props: map<string, Value>)

  /** Property read `o[key]`: a missing key reads as `undefined`. */
  function Get(props: map<string, Value>, key: string): (v: Value)
    ensures key in props ==> v == props[key]
    ensures key !in props ==> v == Undefined
  {
    if key in props then props[key] else Undefined
  }

  /** The causes with which a resolver's deferred value can be rejected. */
  datatype Error =
    /** a user callback threw, or its promise rejected, with this reason */
    | Rejected(reason: Value)
    /** the plural field's batch argument was not an array; carries the value */
    | NotAnArray(actual: Value)

  /** The settled state of a promise: fulfilled with a value, or rejected. */
  datatype Result<T> = Success(value: T) | Failure(error: Error)

  /** A JavaScript object with identity whose properties are written in place. */
  class JsObject {
    var props: map<string, Value>

    /** An object literal with the given properties. */
    constructor (props: map<string, Value>)
      ensures this.props == props
    {
      this.props := props;
    }

    /** `o[key] = v`: sets one property, every other property unchanged. */
    method SetProperty(key: string, v: Value)
      modifies this
      ensures props == old(props)[key := v]
      ensures key in props && props[key] == v
      ensures forall k :: k != key ==> (k in props <==> k in old(props))
      ensures forall k :: k != key && k in old(props) ==> props[k] == old(props)[k]
    {
      props := props[key := v];
    }
  }
}
