/** JavaScript values as the relay and the browser components see them, with the
    three operations the source relies on: member access (which throws a TypeError
    on null and undefined), truthiness for `||`, and conversion with String(). */
module Js {
  import opened Text

  /** A JavaScript value. Numbers are integers here; objects are their own
      enumerable properties. */
  datatype Value =
    | Undefined
    | Null
    | Bool(b: bool)
    | Num(n: int)
    | Str(s: string)
    | Arr(items: seq<Value>)
    | Obj(fields: map<string, Value>)

  /** The result of reading a property: its value, or the message of the TypeError thrown. */
  datatype Access = Got(value: Value) | Thrown(message: string)

  predicate Nullish(v: Value) {
    v.Undefined? || v.Null?
  }

  /** False exactly for the values `||` skips: undefined, null, false, 0 and "". */
  predicate Truthy(v: Value) {
    match v
    case Undefined => false
    case Null => false
    case Bool(b) => b
    case Num(n) => n != 0
    case Str(s) => s != ""
    case Arr(_) => true
    case Obj(_) => true
  }

  /** `v.key`: throws exactly when `v` is null or undefined; a missing property is undefined. */
  function Member(v: Value, key: string): (r: Access)
    ensures r.Thrown? <==> Nullish(v)
    ensures v.Obj? && key in v.fields ==> r == Got(v.fields[key])
    ensures v.Obj? && key !in v.fields ==> r == Got(Undefined)
  {
    match v
    case Undefined => Thrown("Cannot read properties of undefined (reading '" + key + "')")
    case Null => Thrown("Cannot read properties of null (reading '" + key + "')")
    case Str(s) => Got(if key == "length" then Num(|s|) else Undefined)
    case Arr(items) => Got(if key == "length" then Num(|items|) else Undefined)
    case Obj(fields) => Got(if key in fields then fields[key] else Undefined)
    case _ => Got(Undefined)
  }

  /** `v?.key`: never throws; undefined when `v` is null or undefined. */
  function OptionalMember(v: Value, key: string): (r: Value)
    ensures Nullish(v) ==> r == Undefined
    ensures !Nullish(v) ==> Member(v, key) == Got(r)
  {
    if Nullish(v) then Undefined else Member(v, key).value
  }

  /** `v || fallback`. */
  function Or(v: Value, fallback: Value): (r: Value)
    ensures Truthy(fallback) ==> Truthy(r)
    ensures Truthy(v) ==> r == v
    ensures !Truthy(v) ==> r == fallback
  {
    if Truthy(v) then v else fallback
  }

  /** String(v). Inside an array, null and undefined elements become "". */
  function ToStr(v: Value): (r: string)
    ensures v.Str? ==> r == v.s
    ensures v.Undefined? ==> r == "undefined"
    ensures v.Null? ==> r == "null"
    ensures v.Obj? ==> r == "[object Object]"
    ensures v.Arr? && |v.items| == 0 ==> r == ""
    ensures v.Arr? && |v.items| == 1 && !Nullish(v.items[0]) ==> r == ToStr(v.items[0])
    decreases v
  {
    match v
    case Undefined => "undefined"
    case Null => "null"
    case Bool(b) => if b then "true" else "false"
    case Num(n) => IntToString(n)
    case Str(s) => s
    case Arr(items) =>
      Join(seq(|items|, i requires 0 <= i < |items| =>
        if Nullish(items[i]) then "" else ToStr(items[i])), ",")
    case Obj(_) => "[object Object]"
  }
}
