/** The JavaScript values that come out of `JSON.parse` (plus `undefined`, which is what reading
    a missing property yields), and the two JavaScript operations the request handlers apply
    to them: truthiness tests and property reads. */
module Json {

  datatype JsValue =
    | Undefined
    | Null
    | Bool(b: bool)
    | Num(n: real)
    | Str(s: string)
    | Arr(items: seq<JsValue>)
    | Obj(fields: map<string, JsValue>)

  /** JavaScript truthiness. `undefined`, `null`, `false`, `0` and `""` are falsy; every
      other value, including empty arrays and objects, is truthy. (`NaN` cannot come out
      of JSON, so it has no representation here.) */
  predicate Truthy(v: JsValue) {
    match v
    case Undefined => false
    case Null => false
    case Bool(b) => b
    case Num(n) => n != 0.0
    case Str(s) => s != ""
    case Arr(_) => true
    case Obj(_) => true
  }

  /** `v` is something a property can be read from without a TypeError. */
  predicate Readable(v: JsValue) {
    !v.Undefined? && !v.Null?
  }

  /** `v[key]` on a readable value: the field of an object, `undefined` otherwise (none of
      the property names read by the handlers is a built-in property of arrays, strings,
      numbers or booleans). */
  function Field(v: JsValue, key: string): (r: JsValue)
    requires Readable(v)
    ensures !v.Obj? ==> r == Undefined
    ensures v.Obj? && key !in v.fields ==> r == Undefined
    ensures v.Obj? && key in v.fields ==> r == v.fields[key]
  {
    if v.Obj? && key in v.fields then v.fields[key] else Undefined
  }

  /** Every truthy value can have its properties read. */
  lemma TruthyIsReadable(v: JsValue)
    ensures Truthy(v) ==> Readable(v)
  {
  }
}
