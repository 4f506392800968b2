/** JavaScript values as the renderer meets them in a parameter's free-form
    `props` bag, with the truthiness, `||`, property-read and string-conversion
    rules the components rely on. */
module JsValue {
  import JsString

  datatype Option<+T> = None | Some(value: T)

  /** A JSON-shaped JavaScript value. `Undefined` is what reading a property
      that is not there gives; numbers are integers in this model. */
  datatype Value =
    | Undefined
    | Null
    | Bool(b: bool)
    | Num(n: int)
    | Str(s: string)
    | Arr(items: seq<Value>)
    | Obj(fields: map<string, Value>)

  /** The values on which reading a property throws a TypeError. */
  predicate Nullish(v: Value) {
    v.Undefined? || v.Null?
  }

  /** JavaScript truthiness. */
  predicate Truthy(v: Value)
    ensures Truthy(v) ==> !Nullish(v)
  {
    match v
    case Undefined => false
    case Null => false
    case Bool(b) => b
    case Num(n) => n != 0
    case Str(s) => s != ""
    case Arr(_) => true
    case Obj(_) => true
  }

  /** `a || b` */
  function Or(a: Value, b: Value): (r: Value)
    ensures r == a || r == b
    ensures Truthy(r) <==> Truthy(a) || Truthy(b)
    ensures !Nullish(b) ==> !Nullish(r)
  {
    if Truthy(a) then a else b
  }

  /** `v.k` for a property name `k` that is neither an array index nor `length`
      nor a built-in method name: an object gives its own entry, every other
      non-nullish value gives `undefined`. Reading from a nullish value throws,
      so it is excluded. */
  function Field(v: Value, k: string): Value
    requires !Nullish(v)
  {
    match v
    case Obj(m) => if k in m then m[k] else Undefined
    case _ => Undefined
  }

  /** `v?.k` */
  function OptField(v: Value, k: string): (r: Value)
    ensures Nullish(v) ==> r == Undefined
  {
    if Nullish(v) then Undefined else Field(v, k)
  }

  /** `m[k]` on a plain record held as a map. */
  function Get(m: map<string, Value>, k: string): (r: Value)
    ensures k !in m ==> r == Undefined
  {
    if k in m then m[k] else Undefined
  }

  /** The own enumerable entries `{...v}` copies: those of an object, none for
      the other values that carry no indexed entries. */
  function Spread(v: Value): map<string, Value> {
    if v.Obj? then v.fields else map[]
  }

  /** `String(v)`, the conversion a value undergoes when it is used as a
      property key in `controller[v]`. */
  function ToKey(v: Value): string
    decreases v
  {
    match v
    case Undefined => "undefined"
    case Null => "null"
    case Bool(b) => if b then "true" else "false"
    case Num(n) => JsString.IntToString(n)
    case Str(s) => s
    case Arr(items) => JoinKeys(items)
    case Obj(_) => "[object Object]"
  }

  /** `items.join(',')`, where a nullish element contributes the empty string. */
  function JoinKeys(items: seq<Value>): string
    decreases items
  {
    if items == [] then ""
    else
      var first := if Nullish(items[0]) then "" else ToKey(items[0]);
      if |items| == 1 then first else first + "," + JoinKeys(items[1..])
  }
}
