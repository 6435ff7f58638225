/**
 * The JavaScript values the normalizer can observe: what it tests them for
 * (truthiness, `_.isArray`, `_.isPlainObject`) and the property reads it does.
 */
module JsValues {
  import opened Wrappers

  /**
   * A JavaScript value. Numbers are only ever tested for truthiness, so an
   * integer stands for them. `OtherObj` is any object that is not a plain
   * object and not an array (a class instance, a function, a Date, ...);
   * its `fields` give what reading each property returns, whether the
   * value is its own or comes from a getter on its prototype.
   */
  datatype Value =
    | Undefined
    | Null
    | Bool(b: bool)
    | Num(n: int)
    | Str(s: string)
    | Arr(elems: seq<Value>)
    | PlainObj(fields: map<string, Value>)
    | OtherObj(fields: map<string, Value>)

  /** The exception JavaScript raises when a property of `null` or `undefined` is read. */
  datatype JsError = TypeError

  /** JavaScript truthiness: exactly the five falsy values below are false. */
  predicate Truthy(v: Value)
    ensures !Truthy(v) <==> v == Undefined || v == Null || v == Bool(false) || v == Num(0) || v == Str("")
  {
    match v
    case Undefined => false
    case Null => false
    case Bool(b) => b
    case Num(n) => n != 0
    case Str(s) => |s| > 0
    case Arr(_) => true
    case PlainObj(_) => true
    case OtherObj(_) => true
  }

  /** `null` or `undefined`: the values a property read throws on. */
  predicate Nullish(v: Value) {
    v.Undefined? || v.Null?
  }

  /** `_.isArray` */
  predicate IsArray(v: Value) {
    v.Arr?
  }

  /** `_.isPlainObject` */
  predicate IsPlainObject(v: Value) {
    v.PlainObj?
  }

  /** A missing own property reads as `undefined`. */
  function Lookup(fields: map<string, Value>, key: string): (r: Value)
    ensures key !in fields ==> r == Undefined
    ensures key in fields ==> r == fields[key]
  {
    if key in fields then fields[key] else Undefined
  }

  /**
   * The read of `v.id` or `v.type`: it throws on `null` and `undefined`, looks
   * the key up in an object, and gives `undefined` for primitives and arrays,
   * which carry no own `id` or `type`. Other keys (a string's `length`, say)
   * are not modelled.
   */
  function GetProperty(v: Value, key: string): (r: Result<Value, JsError>)
    requires key == "id" || key == "type"
    ensures r.Err? <==> Nullish(v)
    ensures (v.PlainObj? || v.OtherObj?) ==> r == Ok(Lookup(v.fields, key))
    ensures !(v.PlainObj? || v.OtherObj?) && r.Ok? ==> r.value == Undefined
  {
    match v
    case Undefined => Err(TypeError)
    case Null => Err(TypeError)
    case PlainObj(fields) => Ok(Lookup(fields, key))
    case OtherObj(fields) => Ok(Lookup(fields, key))
    case _ => Ok(Undefined)
  }
}
