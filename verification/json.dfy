/**
 * Parsed JSON documents as the exporter sees them after `response.json()`,
 * together with the Python notions the mappers rely on: `None`, truthiness,
 * and `dict.get`.
 */
module JsonValues {

  datatype Option<+T> = None | Some(value: T)

  /** A parsed JSON value. `JNull` is Python's `None`. */
  datatype Json =
    | JNull
    | JBool(b: bool)
    | JNum(x: real)
    | JStr(s: string)
    | JArr(items: seq<Json>)
    | JObj(fields: map<string, Json>)

  /** Python truthiness of a parsed JSON value: empty containers, empty
      strings, zero, `False` and `None` are false. */
  predicate JTruthy(j: Json) {
    match j
    case JNull => false
    case JBool(b) => b
    case JNum(x) => x != 0.0
    case JStr(s) => |s| > 0
    case JArr(items) => |items| > 0
    case JObj(fields) => |fields| > 0
  }

  /** The exceptions the mapping code can raise. */
  datatype Error =
    | AttributeError  // `.get` on something that is not a dict
    | TypeError       // `strptime` given something that is not a string
    | ValueError      // `strptime` given a string not in the expected format

  /** A computation that either returns a value or raises. */
  datatype Result<+T> = Ok(value: T) | Raised(error: Error) {
    predicate IsFailure() {
      Raised?
    }

    function PropagateFailure<U>(): Result<U>
      requires Raised?
    {
      Raised(error)
    }

    function Extract(): T
      requires Ok?
    {
      value
    }
  }

  /** A Python value that ends up in a metric sample or a label: a JSON value
      (where `JNull` is `None`), the float `nan`, or an integer constant. */
  datatype Value = Raw(j: Json) | NaN | Int(i: int)

  const PyNone: Value := Raw(JNull)
  const EmptyDict: Value := Raw(JObj(map[]))

  /** Python truthiness of a value (`nan` is truthy). */
  predicate Truthy(v: Value) {
    match v
    case Raw(j) => JTruthy(j)
    case NaN => true
    case Int(i) => i != 0
  }

  /** The fetched document is Python's `None`: either the fetch failed or the
      body was the JSON literal `null`. */
  predicate IsNone(data: Option<Json>) {
    data.None? || data.value.JNull?
  }

  /** `d.get(key, default)` on a dict `d`. */
  function Lookup(d: map<string, Json>, key: string, default: Value): Value {
    if key in d then Raw(d[key]) else default
  }

  /** `o.get(key, default)` on an arbitrary value `o`: only a dict has `get`. */
  function Get(o: Value, key: string, default: Value): Result<Value>
  {
    match o
    case Raw(JObj(d)) => Ok(Lookup(d, key, default))
    case _ => Raised(AttributeError)
  }

  /** `d.get(key, {})` read as a nested section: a missing section is an empty
      dict, and a present one must itself be a dict for the next `.get`. */
  function Section(d: map<string, Json>, key: string): Result<map<string, Json>>
  {
    if key !in d then Ok(map[])
    else match d[key]
      case JObj(m) => Ok(m)
      case _ => Raised(AttributeError)
  }
}
