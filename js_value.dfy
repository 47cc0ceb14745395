/** Dynamically typed JavaScript values as they flow through the chat pipeline: filter maps
    produced by the intent detector or by the language model, records returned by the store,
    and the few coercions the core applies to them (truthiness, `typeof`, `String(v)`). */
module JsValue {
  import opened Text

  /** A JavaScript value; numbers are integers in this model. */
  datatype Value =
    | Undefined
    | Null
    | Bool(b: bool)
    | Num(n: int)
    | Str(s: string)
    | Arr(items: seq<Value>)
    | Obj(fields: map<string, Value>)

  /** JavaScript truthiness. */
  predicate Truthy(v: Value)
  {
    match v
    case Undefined => false
    case Null => false
    case Bool(b) => b
    case Num(n) => n != 0
    case Str(s) => s != ""
    case Arr(_) => true
    case Obj(_) => true
  }

  /** `v == null` (loose equality): null or undefined. */
  predicate IsNullish(v: Value) { v.Undefined? || v.Null? }

  /** `typeof v === "object"`: null, arrays and plain objects. */
  predicate IsObjectType(v: Value) { v.Null? || v.Arr? || v.Obj? }

  /** `v.key` on a value that is not null or undefined, and `v?.key` on any value:
      own fields of plain objects, `undefined` otherwise. */
  function Prop(v: Value, key: string): Value
  {
    if v.Obj? && key in v.fields then v.fields[key] else Undefined
  }

  /** `a || b`. */
  function Or(a: Value, b: Value): Value
  {
    if Truthy(a) then a else b
  }

  const EMPTY_OBJECT: Value := Obj(map[])

  /** `String(v)` (and template-literal interpolation). */
  function ToJsString(v: Value): string
    decreases v, 1
  {
    match v
    case Undefined => "undefined"
    case Null => "null"
    case Bool(b) => if b then "true" else "false"
    case Num(n) => IntToString(n)
    case Str(s) => s
    case Arr(_) => ItemsToString(v, 0)
    case Obj(_) => "[object Object]"
  }

  /** `String(array)`: elements from index `i` on, comma-separated, null and undefined as "". */
  function ItemsToString(v: Value, i: nat): string
    requires v.Arr? && i <= |v.items|
    decreases v, 0, |v.items| - i
  {
    if i == |v.items| then ""
    else
      var e := v.items[i];
      (if i > 0 then "," else "") + (if IsNullish(e) then "" else ToJsString(e)) + ItemsToString(v, i + 1)
  }
}
