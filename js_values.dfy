/** The JavaScript values that reach the URL helpers: `undefined`, `null`,
    integer numbers, strings and arrays; with `String(value)` and the text
    `JSON.stringify` would give, as a canonical value. */
module JsValues {
  import opened Js
  import opened Strings

  datatype JsValue = UndefinedValue | NullValue | Num(n: int) | Str(s: string) | Arr(items: seq<JsValue>) {
    predicate IsUnset() {
      UndefinedValue? || NullValue?
    }
  }

  /** A string list as a JavaScript array of strings. */
  function StrList(xs: seq<string>): (v: JsValue)
    ensures v.Arr? && |v.items| == |xs|
    ensures forall i :: 0 <= i < |xs| ==> v.items[i] == Str(xs[i])
  {
    Arr(seq(|xs|, i requires 0 <= i < |xs| => Str(xs[i])))
  }

  /** A slot holding a number, as a value. */
  function NumSlot(x: Nullable<int>): (v: JsValue)
    ensures x.Undefined? <==> v.UndefinedValue?
    ensures x.Null? <==> v.NullValue?
    ensures x.Val? ==> v == Num(x.value)
  {
    match x
    case Undefined => UndefinedValue
    case Null => NullValue
    case Val(n) => Num(n)
  }

  /** A slot holding a string, as a value. */
  function StrSlot(x: Nullable<string>): (v: JsValue)
    ensures x.Undefined? <==> v.UndefinedValue?
    ensures x.Null? <==> v.NullValue?
    ensures x.Val? ==> v == Str(x.value)
  {
    match x
    case Undefined => UndefinedValue
    case Null => NullValue
    case Val(s) => Str(s)
  }

  /** A slot holding a string list, as a value. */
  function ListSlot(x: Nullable<seq<string>>): (v: JsValue)
    ensures x.Undefined? <==> v.UndefinedValue?
    ensures x.Null? <==> v.NullValue?
    ensures x.Val? ==> v == StrList(x.value)
  {
    match x
    case Undefined => UndefinedValue
    case Null => NullValue
    case Val(xs) => StrList(xs)
  }

  /** `String(v)`; an array is joined with "," and its `undefined` and
      `null` elements become empty text. */
  function ToText(v: JsValue): string
    decreases v
  {
    match v
    case UndefinedValue => "undefined"
    case NullValue => "null"
    case Num(n) => IntToString(n)
    case Str(s) => s
    case Arr(items) =>
      Join(seq(|items|, i requires 0 <= i < |items| => if items[i].IsUnset() then "" else ToText(items[i])), ',')
  }

  /** `String` of a string array is its comma join. */
  lemma StrListText(xs: seq<string>)
    ensures ToText(StrList(xs)) == Join(xs, ',')
  {
    var items := StrList(xs).items;
    var texts := seq(|items|, i requires 0 <= i < |items| => if items[i].IsUnset() then "" else ToText(items[i]));
    assert texts == xs;
  }

  /** What `JSON.stringify` makes of a value, as a value: inside arrays,
      `undefined` is written as `null`; equal texts are equal canonical
      values. */
  function JsonCanon(v: JsValue): JsValue
    decreases v
  {
    match v
    case Arr(items) =>
      Arr(seq(|items|, i requires 0 <= i < |items| =>
        if items[i].UndefinedValue? then NullValue else JsonCanon(items[i])))
    case _ => v
  }

  /** No `undefined` inside any array: `JSON.stringify` keeps such a value
      exactly. */
  predicate JsonSafe(v: JsValue)
    decreases v
  {
    match v
    case Arr(items) => forall i :: 0 <= i < |items| ==> !items[i].UndefinedValue? && JsonSafe(items[i])
    case _ => true
  }

  lemma {:induction false} JsonCanonOfSafe(v: JsValue)
    requires JsonSafe(v)
    ensures JsonCanon(v) == v
    decreases v
  {
    if v.Arr? {
      var items := v.items;
      forall i | 0 <= i < |items|
        ensures JsonCanon(items[i]) == items[i]
      {
        JsonCanonOfSafe(items[i]);
      }
      assert JsonCanon(v).items == items;
    }
  }

  lemma StrListIsJsonSafe(xs: seq<string>)
    ensures JsonSafe(StrList(xs))
  {
  }

  /** JavaScript truthiness: `undefined`, `null`, `0` and `""` are falsy,
      every array is truthy. */
  predicate Truthy(v: JsValue) {
    match v
    case UndefinedValue => false
    case NullValue => false
    case Num(n) => n != 0
    case Str(s) => s != ""
    case Arr(_) => true
  }
}
