/** The JavaScript values that the credential key store holds, and JavaScript truthiness. */
module JsValues {

  /**
   * A stored key value. Key records are objects or byte buffers; `null` (a deleted key)
   * and the other falsy primitives can also end up in the store.
   */
  datatype JsValue =
    | Undefined
    | Null
    | Bool(b: bool)
    | Number(n: int)
    | Str(s: string)
    | Bytes(octets: seq<bv8>)
    | Object(props: map<string, JsValue>)

  /** JavaScript truthiness: `undefined`, `null`, `false`, `0` and `""` are falsy; every object is truthy. */
  predicate Truthy(v: JsValue) {
    match v
    case Undefined => false
    case Null => false
    case Bool(b) => b
    case Number(n) => n != 0
    case Str(s) => s != ""
    case Bytes(_) => true
    case Object(_) => true
  }
}
