/**
 * The loosely typed documents the handlers receive and store: a parsed JSON value.
 * An `Option<Value>` is a value that may be `undefined`; the helpers below give
 * JavaScript's optional chaining, `typeof` tests and truthiness on it.
 */
module Json {
  import opened Wrappers

  datatype Value =
    | JNull
    | JBool(b: bool)
    | JNum(n: real)
    | JStr(s: string)
    | JArr(items: seq<Value>)
    | JObj(fields: map<string, Value>)

  /** Optional property access: the property of an object, and absent for an absent value, `null`, a non-object or a missing key. */
  function Prop(o: Option<Value>, key: string): Option<Value> {
    if o.Some? && o.value.JObj? && key in o.value.fields then Some(o.value.fields[key]) else None
  }

  /** The value is present and a string. */
  predicate IsString(o: Option<Value>) {
    o.Some? && o.value.JStr?
  }

  /** The value is present and a number. */
  predicate IsNumber(o: Option<Value>) {
    o.Some? && o.value.JNum?
  }

  /** The value is present and a boolean. */
  predicate IsBoolean(o: Option<Value>) {
    o.Some? && o.value.JBool?
  }

  /** The value is present and an array. */
  predicate IsArray(o: Option<Value>) {
    o.Some? && o.value.JArr?
  }

  /** JavaScript truthiness: `undefined`, `null`, `false`, `0` and `''` are falsy. */
  predicate Truthy(o: Option<Value>) {
    match o
    case None => false
    case Some(v) =>
      match v
      case JNull => false
      case JBool(b) => b
      case JNum(n) => n != 0.0
      case JStr(s) => s != ""
      case JArr(_) => true
      case JObj(_) => true
  }

  /** The value when it is a string, else absent. */
  function StringOrUndefined(o: Option<Value>): (r: Option<string>)
    ensures r.Some? <==> IsString(o)
    ensures r.Some? ==> o == Some(JStr(r.value))
  {
    if IsString(o) then Some(o.value.s) else None
  }
}
