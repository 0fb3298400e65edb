/**
 * JSON-like Python values as they travel through messages, metadata and
 * configuration, with Python's truthiness and `dict.get`, and the exceptions
 * the modelled code can raise.
 */
module Values {

  /** A JSON value: None, bool, int, str, list or dict (floats are not modelled). */
  datatype Value =
    | Null
    | Bool(b: bool)
    | Int(i: int)
    | Str(s: string)
    | Arr(items: seq<Value>)
    | Obj(fields: map<string, Value>)

  /** A Python `Dict[str, Any]` as stored in records. */
  type Metadata = map<string, Value>

  /** Python truthiness: None, False, 0, "" and empty containers are falsy. */
  predicate Truthy(v: Value)
  {
    match v
    case Null => false
    case Bool(b) => b
    case Int(i) => i != 0
    case Str(s) => s != ""
    case Arr(items) => items != []
    case Obj(fields) => fields != map[]
  }

  /** `m.get(key, default)`. */
  function GetOr(m: map<string, Value>, key: string, default: Value): (r: Value)
    ensures key in m ==> r == m[key]
    ensures key !in m ==> r == default
  {
    if key in m then m[key] else default
  }

  /** The Python exceptions that the modelled code raises or catches. */
  datatype Fault =
    | KeyError(key: Value)
    | ValueError(what: string)
    | TypeError(what: string)
    | AttributeError(what: string)
    /** An exception raised by a library or service outside the model (LLM, embedding, FAISS, I/O). */
    | ExternalError(what: string)
}
