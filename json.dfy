/** The JavaScript values a QR payload can decode to, and the two things the scan screens do with them:
    read a property and test it for truthiness. */
module Json {
  import opened Search

  /** A value `JSON.parse` can return (numbers restricted to integers), plus `undefined`,
      which is what reading a missing property gives. */
  datatype JsValue =
    | Undefined
    | Null
    | Bool(b: bool)
    | Num(n: int)
    | Str(s: string)
    | Arr(elements: seq<JsValue>)
    | Obj(fields: map<string, JsValue>)

  /** JavaScript truthiness: `undefined`, `null`, `false`, `0` and `""` are falsy, everything else is truthy. */
  predicate Truthy(v: JsValue): (b: bool)
    ensures !b <==> (v == Undefined || v == Null || v == Bool(false) || v == Num(0) || v == Str([]))
  {
    match v
    case Undefined => false
    case Null => false
    case Bool(b) => b
    case Num(n) => n != 0
    case Str(s) => s != []
    case Arr(_) => true
    case Obj(_) => true
  }

  /** `v.key` for a data key such as `type` or `qr_code_id`, which no primitive or array inherits:
      `None` is the TypeError thrown when `v` is `null` or `undefined`; a key the value does not have
      reads as `undefined`. */
  function Prop(v: JsValue, key: string): (r: Option<JsValue>)
    ensures r.None? <==> v.Null? || v.Undefined?
    ensures r.Some? && !v.Obj? ==> r.value == Undefined
    ensures v.Obj? && key in v.fields ==> r == Some(v.fields[key])
    ensures v.Obj? && key !in v.fields ==> r == Some(Undefined)
  {
    match v
    case Undefined => None
    case Null => None
    case Obj(fields) => Some(if key in fields then fields[key] else Undefined)
    case _ => Some(Undefined)
  }

  /** Writing one key of an object leaves every other key's reading unchanged. */
  lemma PropOtherKey(fields: map<string, JsValue>, written: string, value: JsValue, key: string)
    requires key != written
    ensures Prop(Obj(fields[written := value]), key) == Prop(Obj(fields), key)
  {
  }

  /** What `JSON.parse(data)` did: returned a value, or threw because `data` is not JSON. */
  datatype ParseResult = Parsed(value: JsValue) | NotJson
}
