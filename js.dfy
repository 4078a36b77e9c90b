/**
 * The JavaScript values a parsed analysis report is made of, and the few
 * language operations the report views apply to them: truthiness, property
 * reads, object spread and numeric conversion for `<`.
 */
module Js {
  import opened Wrappers
  import opened Text

  /** A JSON value as `JSON.parse` produces it. */
  datatype Value =
    | Null
    | Bool(b: bool)
    | Num(n: real)
    | Str(s: string)
    | Arr(items: seq<Value>)
    | Obj(fields: map<string, Value>)

  /** Truthiness of a property read; `None` stands for `undefined`. */
  predicate Truthy(v: Option<Value>) {
    match v
    case None => false
    case Some(Null) => false
    case Some(Bool(b)) => b
    case Some(Num(n)) => n != 0.0
    case Some(Str(s)) => s != ""
    case Some(Arr(_)) => true
    case Some(Obj(_)) => true
  }

  /** `v[key]`: an own property of an object, `undefined` for anything else. */
  function Get(v: Value, key: string): Option<Value> {
    if v.Obj? && key in v.fields then Some(v.fields[key]) else None
  }

  /** `v?.[key]` on a value that may itself be missing. */
  function GetOpt(v: Option<Value>, key: string): Option<Value> {
    if v.Some? then Get(v.value, key) else None
  }

  /**
   * The entries `{ ...v }` copies from `v`: the fields of an object, none from
   * `undefined`, `null`, booleans and numbers. Strings and arrays, whose index
   * entries JavaScript would copy, also contribute none here.
   */
  function Spread(v: Option<Value>): map<string, Value> {
    if v.Some? && v.value.Obj? then v.value.fields else map[]
  }

  /** The result of JavaScript's numeric conversion. */
  datatype Numeric = NaN | Finite(x: real)

  /** A non-empty run of decimal digits. */
  predicate IsDigits(s: string) {
    |s| > 0 && forall i | 0 <= i < |s| :: '0' <= s[i] <= '9'
  }

  /** The number a run of decimal digits denotes. */
  function DigitsValue(s: string): nat
    requires forall i | 0 <= i < |s| :: '0' <= s[i] <= '9'
  {
    if s == [] then 0
    else DigitsValue(s[..|s| - 1]) * 10 + (s[|s| - 1] as int - '0' as int)
  }

  /**
   * `Number(s)` on a string: it is trimmed, and is 0 when empty, its value
   * when it is a run of decimal digits, NaN otherwise.
   */
  function StringToNumber(s: string): Numeric {
    var t := Trim(s);
    if t == "" then Finite(0.0)
    else if IsDigits(t) then Finite(DigitsValue(t) as real)
    else NaN
  }

  /**
   * `Number(a)` on an array: it goes through the array's string form, which
   * is empty for `[]`, that of the single element for a one-element array
   * (empty for `null`), and holds a comma for longer arrays.
   */
  function ArrayToNumber(items: seq<Value>): Numeric
    decreases items
  {
    if items == [] then Finite(0.0)
    else if |items| > 1 then NaN
    else match items[0]
      case Null => Finite(0.0)
      case Bool(_) => NaN
      case Num(n) => Finite(n)
      case Str(s) => StringToNumber(s)
      case Arr(inner) => ArrayToNumber(inner)
      case Obj(_) => NaN
  }

  /**
   * `Number(v)` as the relational operators apply it: `undefined` is NaN,
   * `null` is 0, booleans are 0 or 1, strings and arrays convert as above,
   * and objects are NaN.
   */
  function ToNumber(v: Option<Value>): Numeric {
    match v
    case None => NaN
    case Some(Null) => Finite(0.0)
    case Some(Bool(b)) => Finite(if b then 1.0 else 0.0)
    case Some(Num(n)) => Finite(n)
    case Some(Str(s)) => StringToNumber(s)
    case Some(Arr(items)) => ArrayToNumber(items)
    case Some(Obj(_)) => NaN
  }

  /** `v < bound` for a numeric `bound`: false whenever `v` converts to NaN. */
  predicate LessThan(v: Option<Value>, bound: real) {
    var n := ToNumber(v);
    n.Finite? && n.x < bound
  }
}
