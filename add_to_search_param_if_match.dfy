/** `addToSearchParamIfMatch`: the inverted helper, which writes a key only
    when the value is equal to (or adds nothing to) its base. */
module AddToSearchParamIfMatch {
  import opened JsValues
  import opened ValueEquality
  import opened SearchParams

  /** The parameters after `addToSearchParamIfMatch`. */
  function WithIfEqual(entries: map<string, string>, key: string, value: JsValue, base: JsValue)
    : (r: map<string, string>)
    ensures key in r <==> key in entries || ValueEquals(value, base)
    ensures key in r ==> r[key] == if ValueEquals(value, base) then ToText(value) else entries[key]
    ensures forall k :: k != key ==> (k in r <==> k in entries)
    ensures forall k :: k != key && k in r ==> r[k] == entries[k]
  {
    if ValueEquals(value, base) then entries[key := ToText(value)] else entries
  }

  /** `addToSearchParamIfMatch(params, key, value, baseValue)` */
  method AddToSearchParamIfMatch(params: UrlSearchParams, key: string, value: JsValue, base: JsValue)
    modifies params
    ensures params.entries == WithIfEqual(old(params.entries), key, value, base)
  {
    if ValueEquals(value, base) {
      params.Set(key, ToText(value));
    }
  }

  /** An unset value always matches, so it is written as the text
      "undefined" or "null". */
  lemma UnsetIsWrittenAsText(entries: map<string, string>, key: string, value: JsValue, base: JsValue)
    requires value.IsUnset()
    ensures WithIfEqual(entries, key, value, base)[key] == if value.UndefinedValue? then "undefined" else "null"
  {
  }

  /** A defined value that differs from its base is never written. */
  lemma DifferentValueIsNotWritten(entries: map<string, string>, key: string, value: JsValue, base: JsValue)
    requires JsonSafe(value) && JsonSafe(base)
    requires !value.IsUnset() && value != base
    ensures WithIfEqual(entries, key, value, base) == entries
  {
    ValueEqualsIsIdentity(value, base);
  }
}
