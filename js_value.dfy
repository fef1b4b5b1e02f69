/**
 * Dynamically typed field values of work items (`fields: { [key: string]: any }`)
 * and JavaScript truthiness, as used by `x || 0` and `a || b || 0`.
 */
module JsValue {
  import opened Wrappers
  import opened JsText

  /** A JSON-like value; `Other` stands for objects and arrays. Numbers are integral. */
  datatype Value = Undefined | Null | Bool(b: bool) | Num(n: int) | Str(s: string) | Other

  /** ECMAScript ToBoolean: `undefined`, `null`, `false`, `0` and `''` are falsy. */
  predicate Truthy(v: Value)
  {
    match v
    case Undefined => false
    case Null => false
    case Bool(b) => b
    case Num(n) => n != 0
    case Str(s) => s != ""
    case Other => true
  }

  /** `a || b`. */
  function Or(a: Value, b: Value): (r: Value)
    ensures Truthy(r) <==> Truthy(a) || Truthy(b)
    ensures r == a || r == b
  {
    if Truthy(a) then a else b
  }

  /** The number a value contributes as `(v || 0)` to a numeric sum; non-numbers count as 0. */
  function NumberOr0(v: Value): (n: int)
    ensures !Truthy(v) ==> n == 0
    ensures v.Num? ==> n == v.n
  {
    if v.Num? then v.n else 0
  }

  /** Property read `fields[key]` on a plain object: `undefined` when the key is absent. */
  function Get(fields: map<string, Value>, key: string): (v: Value)
    ensures key !in fields ==> v == Undefined
    ensures key in fields ==> v == fields[key]
  {
    if key in fields then fields[key] else Undefined
  }

  /** The text of a string-valued field; a missing or non-string value reads as the empty string. */
  function Text(fields: map<string, Value>, key: string): (s: string)
    ensures key in fields && fields[key].Str? ==> s == fields[key].s
    ensures s != "" ==> key in fields && fields[key] == Str(s)
  {
    var v := Get(fields, key);
    if v.Str? then v.s else ""
  }

  /** `String(v)`, as a template literal prints a value; objects print as `[object Object]`. */
  function ValueText(v: Value): (t: string)
    ensures v.Str? ==> t == v.s
    ensures v.Num? ==> ParseInt(t) == Some(v.n)
    ensures v.Undefined? ==> t == "undefined"
  {
    match v
    case Undefined => "undefined"
    case Null => "null"
    case Bool(b) => if b then "true" else "false"
    case Num(n) => ParseIntOfIntToString(n); IntToString(n)
    case Str(s) => s
    case Other => "[object Object]"
  }
}
