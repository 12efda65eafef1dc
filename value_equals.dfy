/** `valueEquals(value, baseValue)`: whether a value may be left out of a URL
    because it adds nothing to its base. */
module ValueEquality {
  import opened JsValues
  import Strings

  /** An unset value always "equals"; an array (an object) is compared by its
      JSON text; any other value with `===`. */
  function ValueEquals(value: JsValue, base: JsValue): (r: bool)
    ensures value.IsUnset() ==> r
    ensures r && !value.IsUnset() ==> base.Arr? == value.Arr?
  {
    if value.IsUnset() then true
    else if value.Arr? then base.Arr? && JsonCanon(value) == JsonCanon(base)
    else value == base
  }

  /** For values whose JSON text loses nothing, `valueEquals` is "unset or
      identical". */
  lemma ValueEqualsIsIdentity(value: JsValue, base: JsValue)
    requires JsonSafe(value) && JsonSafe(base)
    ensures ValueEquals(value, base) <==> value.IsUnset() || value == base
  {
    if value.Arr? && base.Arr? {
      JsonCanonOfSafe(value);
      JsonCanonOfSafe(base);
    }
  }

  /** Arrays are compared element by element, in order: the same strings in
      another order are different. */
  lemma ArraysCompareInOrder(xs: seq<string>, ys: seq<string>)
    ensures ValueEquals(StrList(xs), StrList(ys)) <==> xs == ys
  {
    ValueEqualsIsIdentity(StrList(xs), StrList(ys));
    if StrList(xs) == StrList(ys) {
      assert forall i :: 0 <= i < |xs| ==> StrList(xs).items[i] == Str(xs[i]);
      assert xs == ys;
    }
  }

  /** JSON text does not tell `undefined` from `null` inside an array. */
  lemma UndefinedElementEqualsNull()
    ensures ValueEquals(Arr([UndefinedValue]), Arr([NullValue]))
  {
    assert JsonCanon(Arr([UndefinedValue])).items == [NullValue];
    assert JsonCanon(Arr([NullValue])).items == [NullValue];
  }

  /** The relation is not symmetric: a defined number does not equal
      `undefined`, but `undefined` equals anything. */
  lemma NotSymmetric()
    ensures !ValueEquals(Num(1), UndefinedValue)
    ensures ValueEquals(UndefinedValue, Num(1))
  {
  }

  /** A number never equals its own decimal text: `===` does not convert. */
  lemma NoNumberStringCoercion(n: int)
    ensures !ValueEquals(Num(n), Str(Strings.IntToString(n)))
  {
  }
}
