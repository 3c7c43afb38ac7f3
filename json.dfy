/**
 * The JavaScript values that cross the boundaries of the modelled code: request
 * payloads, handler callback arguments, stored records and environment variables.
 */
module Json {
  import opened Wrappers

  /** A JavaScript value. Numbers are finite (NaN and the infinities are not modelled). */
  datatype Value =
    | Undefined
    | Null
    | Bool(b: bool)
    | Num(n: real)
    | Str(s: string)
    | Arr(items: seq<Value>)
    | Obj(fields: map<string, Value>)

  /** The literal `{}`. */
  const EmptyObject: Value := Obj(map[])

  /** The `typeof` operator: one name per kind of value, with `null` and arrays reported as `"object"`. */
  function TypeOf(v: Value): (r: string)
    ensures r == "undefined" <==> v.Undefined?
    ensures r == "boolean" <==> v.Bool?
    ensures r == "number" <==> v.Num?
    ensures r == "string" <==> v.Str?
    ensures r == "object" <==> v.Null? || v.Arr? || v.Obj?
  {
    match v
    case Undefined => "undefined"
    case Null => "object"
    case Bool(_) => "boolean"
    case Num(_) => "number"
    case Str(_) => "string"
    case Arr(_) => "object"
    case Obj(_) => "object"
  }

  /**
   * JavaScript truthiness, as used by `if (x)`, `&&` and `||`: every value is
   * truthy except the falsy ones (NaN is not modelled).
   */
  predicate Truthy(v: Value)
    ensures Truthy(v) <==> v !in {Undefined, Null, Bool(false), Num(0.0), Str("")}
  {
    match v
    case Undefined => false
    case Null => false
    case Bool(b) => b
    case Num(n) => n != 0.0
    case Str(s) => s != []
    case Arr(_) => true
    case Obj(_) => true
  }

  /**
   * Property access `v.name`. `None` stands for the TypeError thrown when `v` is
   * `null` or `undefined`; a property an object does not own reads as `undefined`.
   * Only the names the handlers read are meant here (the five registration
   * fields): no primitive or array owns one of those, and inherited properties
   * are not modelled (see README, Left out). Strings and arrays do own `length`
   * and their indices, which this function does not give.
   */
  function Property(v: Value, name: string): (r: Option<Value>)
    ensures r.None? <==> v.Null? || v.Undefined?
    ensures v.Obj? && name in v.fields ==> r == Some(v.fields[name])
    ensures v.Obj? && name !in v.fields ==> r == Some(Undefined)
    ensures !v.Obj? && !v.Null? && !v.Undefined? ==> r == Some(Undefined)
  {
    match v
    case Undefined => None
    case Null => None
    case Obj(fields) => Some(if name in fields then fields[name] else Undefined)
    case _ => Some(Undefined)
  }
}
