/**
 * The values a request body can hold once Express has parsed it as JSON, and the
 * two JavaScript operations the handlers apply to them before anything else:
 * truthiness (`!x`) and property access (`x.k`).
 */
module Json {
  import opened Wrappers

  /** A JSON value. Numbers are exact reals: JSON has no NaN or infinity. */
  datatype Value =
    | Null
    | Bool(b: bool)
    | Num(n: real)
    | Str(s: string)
    | Arr(elems: seq<Value>)
    | Obj(fields: map<string, Value>)

  /** JavaScript truthiness of a value that may be `undefined` (`None`). */
  predicate Truthy(v: Option<Value>) {
    match v
    case None => false
    case Some(Null) => false
    case Some(Bool(b)) => b
    case Some(Num(n)) => n != 0.0
    case Some(Str(s)) => s != ""
    case Some(_) => true
  }

  /** `undefined` or `null`: the values on which `?.` stops and `.k` throws. */
  predicate Nullish(v: Option<Value>) {
    v.None? || v.value.Null?
  }

  /** `v.k` on a value that is neither null nor undefined: an own field of an
      object, `undefined` for every other kind of value. */
  function Get(v: Value, k: string): (r: Option<Value>)
    ensures r.Some? ==> v.Obj? && k in v.fields && r.value == v.fields[k]
    ensures v.Obj? && k in v.fields ==> r.Some?
  {
    if v.Obj? && k in v.fields then Some(v.fields[k]) else None
  }

  /** `v.k` where `v` itself may be `undefined`, as for the destructured fields of a body
      that was not an object. */
  function Field(v: Option<Value>, k: string): Option<Value> {
    if v.Some? then Get(v.value, k) else None
  }
}
