/**
 * JavaScript values as `JSON.parse` produces them (plus `undefined`), with the
 * property access, truthiness and template-literal conversion the handlers
 * rely on.
 */
module Json {
  import opened Wrappers
  import opened Text

  datatype Value =
    | Undefined
    | Null
    | Bool(b: bool)
    | Num(r: real)
    | Str(s: string)
      /** an array: its elements and any named (non-index) properties */
    | Arr(items: seq<Value>, props: map<string, Value>)
    | Obj(fields: map<string, Value>)

  predicate IsNullish(v: Value) { v.Undefined? || v.Null? }

  /** `typeof v === "object" && v !== null` */
  predicate IsObject(v: Value) { v.Arr? || v.Obj? }

  predicate IsInteger(r: real) { r.Floor as real == r }

  /** `v[key]` for a non-index key; None where JavaScript throws a TypeError. */
  function Get(v: Value, key: string): Option<Value>
  {
    match v
    case Undefined => None
    case Null => None
    case Obj(fields) => Some(if key in fields then fields[key] else Undefined)
    case Arr(_, props) => Some(if key in props then props[key] else Undefined)
    case _ => Some(Undefined)
  }

  /** `v[i]`; None where JavaScript throws a TypeError. */
  function Index(v: Value, i: nat): Option<Value>
  {
    match v
    case Undefined => None
    case Null => None
    case Arr(items, _) => Some(if i < |items| then items[i] else Undefined)
    case Str(s) => Some(if i < |s| then Str([s[i]]) else Undefined)
    case Obj(fields) =>
      var k := NatToString(i);
      Some(if k in fields then fields[k] else Undefined)
    case _ => Some(Undefined)
  }

  /** The property read of an object value (never throws). */
  function Field(v: Value, key: string): Value
    requires IsObject(v)
  {
    Get(v, key).value
  }

  /** JavaScript truthiness. */
  predicate Truthy(v: Value)
  {
    match v
    case Undefined => false
    case Null => false
    case Bool(b) => b
    case Num(r) => r != 0.0
    case Str(s) => s != ""
    case _ => true
  }

  function NumberToString(r: real): string
  {
    if r >= 0.0 then NatToString(r.Floor) else "-" + NatToString((-r).Floor)
  }

  /** `${v}` inside a template literal (String(v)). */
  function ToStr(v: Value): string
    decreases v, 1
  {
    match v
    case Undefined => "undefined"
    case Null => "null"
    case Bool(b) => if b then "true" else "false"
    case Num(r) => NumberToString(r)
    case Str(s) => s
    case Obj(_) => "[object Object]"
    case Arr(items, _) => JoinFrom(v, 0)
  }

  /** `Array.prototype.join(",")` from index i: null and undefined elements become "". */
  function JoinFrom(a: Value, i: nat): string
    requires a.Arr? && i <= |a.items|
    decreases a, 0, |a.items| - i
  {
    if i == |a.items| then ""
    else
      var x := a.items[i];
      (if i == 0 then "" else ",") + (if IsNullish(x) then "" else ToStr(x)) + JoinFrom(a, i + 1)
  }

  /** Reading a property of a present object never throws, and a missing key reads as undefined. */
  lemma GetOnObject(v: Value, key: string)
    requires IsObject(v)
    ensures Get(v, key).Some?
    ensures v.Obj? && key !in v.fields ==> Get(v, key) == Some(Undefined)
  {
  }

  /** Interpolating a string value yields the string itself; an absent one yields "undefined". */
  lemma ToStrOfStrings(s: string)
    ensures ToStr(Str(s)) == s && ToStr(Undefined) == "undefined"
  {
  }
}
