/**
 * The JavaScript values that arrive as parsed JSON, with the operators the
 * modelled code applies to them: truthiness, `a || b`, `a ?? b`, property
 * access, optional indexing `v?.[i]` and `String(v)`. Numbers are integers
 * here; NaN and fractions are not part of this model.
 */
module JsValues {
  import Text

  datatype JsValue =
    | Undefined
    | Null
    | Bool(b: bool)
    | Num(n: int)
    | Str(s: string)
    | Arr(items: seq<JsValue>)
    | Obj(fields: map<string, JsValue>)

  /** `undefined` and `null`, the values `??` and `?.` skip. */
  predicate Nullish(v: JsValue) {
    v.Undefined? || v.Null?
  }

  /** JavaScript's truthiness: everything except undefined, null, false, 0 and "". */
  predicate Truthy(v: JsValue) {
    match v
    case Undefined => false
    case Null => false
    case Bool(b) => b
    case Num(n) => n != 0
    case Str(s) => s != ""
    case Arr(_) => true
    case Obj(_) => true
  }

  lemma NullishIsFalsy(v: JsValue)
    requires Nullish(v)
    ensures !Truthy(v)
  {
  }

  /** `a || b` */
  function Or(a: JsValue, b: JsValue): JsValue {
    if Truthy(a) then a else b
  }

  /** `a ?? b` */
  function Coalesce(a: JsValue, b: JsValue): JsValue {
    if Nullish(a) then b else a
  }

  /** `||` skips every falsy value that `??` keeps: the two differ exactly on false, 0 and "". */
  lemma OrVersusCoalesce(a: JsValue, b: JsValue)
    ensures Or(a, b) != Coalesce(a, b) ==> a in {Bool(false), Num(0), Str("")} && a != b
  {
  }

  /**
   * `v.key` on a value that is not null or undefined (on those it throws, and
   * every caller models that case itself). Only objects carry the fields read here.
   */
  function Prop(v: JsValue, key: string): (r: JsValue)
    requires !Nullish(v)
    ensures !v.Obj? ==> r == Undefined
    ensures v.Obj? && key !in v.fields ==> r == Undefined
    ensures v.Obj? && key in v.fields ==> r == v.fields[key]
  {
    match v
    case Obj(fields) => if key in fields then fields[key] else Undefined
    case _ => Undefined
  }

  /** `v?.[i]`: undefined on null or undefined, otherwise element (or character) `i`. */
  function OptIndex(v: JsValue, i: nat): (r: JsValue)
    ensures Nullish(v) ==> r == Undefined
    ensures v.Arr? && i < |v.items| ==> r == v.items[i]
    ensures v.Arr? && i >= |v.items| ==> r == Undefined
  {
    match v
    case Arr(items) => if i < |items| then items[i] else Undefined
    case Str(s) => if i < |s| then Str([s[i]]) else Undefined
    case Obj(fields) =>
      var key := Text.NatToString(i);
      if key in fields then fields[key] else Undefined
    case _ => Undefined
  }

  /** `String(v)`; arrays join their elements with ",", printing null and undefined as "". */
  function ToStr(v: JsValue): string
    decreases v
  {
    match v
    case Undefined => "undefined"
    case Null => "null"
    case Bool(b) => if b then "true" else "false"
    case Num(n) => Text.IntToString(n)
    case Str(s) => s
    case Arr(items) =>
      JoinWithComma(seq(|items|, i requires 0 <= i < |items| =>
        if Nullish(items[i]) then "" else ToStr(items[i])))
    case Obj(_) => "[object Object]"
  }

  function JoinWithComma(parts: seq<string>): string
    decreases |parts|
  {
    if parts == [] then ""
    else if |parts| == 1 then parts[0]
    else parts[0] + "," + JoinWithComma(parts[1..])
  }

  /** `String(x)` is the identity on strings and prints integers in decimal. */
  lemma ToStrOfScalars(s: string, n: int)
    ensures ToStr(Str(s)) == s
    ensures ToStr(Num(n)) == Text.IntToString(n)
  {
  }
}
