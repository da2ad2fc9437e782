/** JSON values as the relay handles them, with JavaScript truthiness made explicit. */
module Json {
  import opened Wrappers

  /**
   * A parsed JSON value. A property that is not there (JavaScript
   * `undefined`) is not a `Value`: it is `None` in an `Option<Value>`.
   * Numbers are integers; fractions and NaN are not modelled.
   */
  datatype Value =
    | Null
    | Bool(b: bool)
    | Num(n: int)
    | Str(s: string)
    | Arr(items: seq<Value>)
    | Obj(fields: map<string, Value>)

  /** JavaScript truthiness: `null`, `false`, `0` and `""` are falsy; arrays and objects never are. */
  predicate Truthy(v: Value) {
    match v
    case Null => false
    case Bool(b) => b
    case Num(n) => n != 0
    case Str(s) => s != ""
    case Arr(_) => true
    case Obj(_) => true
  }

  /** Truthiness of a value that may be `undefined`. */
  predicate Present(v: Option<Value>) {
    v.Some? && Truthy(v.value)
  }

  /** Property read `v[key]`: only objects have the properties the relay reads. */
  function Prop(v: Value, key: string): Option<Value> {
    if v.Obj? && key in v.fields then Some(v.fields[key]) else None
  }

  /** The body `{error: message}` every handler uses for its own errors. */
  function ErrorObject(message: string): Value {
    Obj(map["error" := Str(message)])
  }
}
