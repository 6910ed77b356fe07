/** The dynamically shaped values the JavaScript code passes around: JSON-like values, objects as
    maps from key to value, and the truthiness rules that `||`, `!x` and `x ? a : b` follow. */
module Js {
  import opened Text

  datatype Value =
    | Undefined
    | Null
    | NaN
    | Bool(b: bool)
    | Num(n: int)
    | Str(s: string)
    | Arr(items: seq<Value>)
    | Obj(fields: map<string, Value>)

  /** A plain object; a missing key reads as `undefined`. */
  type Record = map<string, Value>

  function Get(r: Record, k: string): Value {
    if k in r then r[k] else Undefined
  }

  /** `v.k` on any value: only objects have fields here. */
  function Field(v: Value, k: string): Value {
    if v.Obj? then Get(v.fields, k) else Undefined
  }

  /** JavaScript truthiness: `undefined`, `null`, `false`, `0` and `""` are falsy. */
  predicate Truthy(v: Value) {
    match v
    case Undefined => false
    case Null => false
    case NaN => false
    case Bool(b) => b
    case Num(n) => n != 0
    case Str(s) => s != ""
    case Arr(_) => true
    case Obj(_) => true
  }

  /** `a || b`: one of the two operands, truthy exactly when either operand is. */
  function Or(a: Value, b: Value): (r: Value)
    ensures r == a || r == b
    ensures Truthy(r) <==> Truthy(a) || Truthy(b)
  {
    if Truthy(a) then a else b
  }

  /** A chain `a || b || c` means the same however it is grouped, and a falsy left operand
      contributes nothing: the fallback chains of the migration rely on both. */
  lemma OrAssociative(a: Value, b: Value, c: Value)
    ensures Or(Or(a, b), c) == Or(a, Or(b, c))
    ensures !Truthy(a) ==> Or(a, Or(b, c)) == Or(b, c)
  {
  }

  /** `parseInt(text) || fallback`, where `parsed` is `None` when parseInt gives NaN: either the
      parsed number or the fallback, and never 0 unless the fallback is. */
  function IntOr(parsed: Option<int>, fallback: int): (r: int)
    ensures r == fallback || parsed == Some(r)
    ensures fallback != 0 ==> r != 0
    ensures parsed.Some? && parsed.value != 0 ==> r == parsed.value
  {
    if parsed.Some? && parsed.value != 0 then parsed.value else fallback
  }

  /** `{...a, ...b}`: every key of `b` wins over the same key of `a`. */
  function Spread(a: Record, b: Record): (r: Record)
    ensures r.Keys == a.Keys + b.Keys
    ensures forall k :: k in b ==> r[k] == b[k]
    ensures forall k :: k in a && k !in b ==> r[k] == a[k]
  {
    a + b
  }

  /** `a === b` on the values here: `NaN` equals nothing, everything else compares by value
      (objects and arrays compare structurally, where JavaScript compares references). */
  predicate StrictEquals(a: Value, b: Value) {
    a == b && !a.NaN?
  }

  /** `Number(v)` for a value that `+` does not turn into a string; `None` is `NaN`. */
  function ToNumber(v: Value): Option<int>
    requires !IsTextual(v)
  {
    match v
    case Undefined => None
    case Null => Some(0)
    case NaN => None
    case Bool(b) => Some(if b then 1 else 0)
    case Num(n) => Some(n)
  }

  /** Strings, arrays and objects: the operands that make `+` concatenate. */
  predicate IsTextual(v: Value) {
    v.Str? || v.Arr? || v.Obj?
  }

  /** `a + b`: concatenation of the printed forms when either side is textual, otherwise the
      numeric sum, `NaN` when either side has no number. */
  function Plus(a: Value, b: Value): (r: Value)
    ensures r.Str? || r.Num? || r.NaN?
    ensures r.Str? <==> IsTextual(a) || IsTextual(b)
    ensures a.Num? && b.Num? ==> r == Num(a.n + b.n)
    ensures IsTextual(a) || IsTextual(b) ==> r == Str(ToJsString(a) + ToJsString(b))
    ensures (a.Undefined? || a.NaN?) && !IsTextual(b) ==> r == NaN
    ensures (b.Undefined? || b.NaN?) && !IsTextual(a) ==> r == NaN
  {
    if IsTextual(a) || IsTextual(b) then Str(ToJsString(a) + ToJsString(b))
    else if ToNumber(a).Some? && ToNumber(b).Some? then Num(ToNumber(a).value + ToNumber(b).value)
    else NaN
  }

  /** Without a textual operand `+` is addition: it commutes, and adding 0 to a number keeps it. */
  lemma PlusCommutesOnNumbers(a: Value, b: Value)
    requires !IsTextual(a) && !IsTextual(b)
    ensures Plus(a, b) == Plus(b, a)
    ensures a.Num? ==> Plus(a, Num(0)) == a
  {
  }

  /** `{...v}`: the own fields of an object; spreading `undefined` or `null` gives `{}`. */
  function OwnFields(v: Value): Record {
    if v.Obj? then v.fields else map[]
  }

  /** `String(v)`, as a template literal prints a value. */
  function ToJsString(v: Value): string
    decreases v, 1
  {
    match v
    case Undefined => "undefined"
    case Null => "null"
    case NaN => "NaN"
    case Bool(b) => if b then "true" else "false"
    case Num(n) => IntToDecimal(n)
    case Str(s) => s
    case Arr(items) => JoinItems(items, v)
    case Obj(_) => "[object Object]"
  }

  /** `items.join(",")`, where `null` and `undefined` elements print as nothing. */
  function JoinItems(items: seq<Value>, ghost whole: Value): string
    requires forall x :: x in items ==> x < whole
    decreases whole, 0, |items|
  {
    if items == [] then ""
    else
      assert items[0] in items;
      assert forall x :: x in items[1..] ==> x in items;
      var first := if items[0].Undefined? || items[0].Null? then "" else ToJsString(items[0]);
      if |items| == 1 then first else first + "," + JoinItems(items[1..], whole)
  }
}
