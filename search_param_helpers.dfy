/** `addIfMatch` and `addIfNoMatch`: write `key = String(value)` into a
    `URLSearchParams` depending on whether `value` equals one of the
    alternatives given as the base. */
module SearchParamHelpers {
  import opened Js
  import opened JsValues
  import opened ValueEquality
  import opened SearchParams

  /** An array base is a list of alternatives; any other base is the only
      alternative. */
  function Alternatives(base: JsValue): (alts: seq<JsValue>)
    ensures !base.Arr? ==> alts == [base]
  {
    if base.Arr? then base.items else [base]
  }

  /** `alts.some(b => valueEquals(value, b))` */
  function MatchesSome(value: JsValue, alts: seq<JsValue>): (r: bool)
    ensures r <==> exists i :: 0 <= i < |alts| && ValueEquals(value, alts[i])
    decreases |alts|
  {
    if |alts| == 0 then false
    else ValueEquals(value, alts[0]) || MatchesSome(value, alts[1..])
  }

  /** `value` matches the base, read as alternatives. */
  predicate Matches(value: JsValue, base: JsValue) {
    MatchesSome(value, Alternatives(base))
  }

  /** The parameters after `addIfMatch`. */
  function WithIfMatch(entries: map<string, string>, key: string, value: JsValue, base: JsValue)
    : (r: map<string, string>)
    ensures key in r <==> key in entries || Matches(value, base)
    ensures key in r ==> r[key] == if Matches(value, base) then ToText(value) else entries[key]
    ensures forall k :: k != key ==> (k in r <==> k in entries)
    ensures forall k :: k != key && k in r ==> r[k] == entries[k]
  {
    if Matches(value, base) then entries[key := ToText(value)] else entries
  }

  /** The parameters after `addIfNoMatch`. */
  function WithIfNoMatch(entries: map<string, string>, key: string, value: JsValue, base: JsValue)
    : (r: map<string, string>)
    ensures key in r <==> key in entries || !Matches(value, base)
    ensures key in r ==> r[key] == if Matches(value, base) then entries[key] else ToText(value)
    ensures forall k :: k != key ==> (k in r <==> k in entries)
    ensures forall k :: k != key && k in r ==> r[k] == entries[k]
  {
    if Matches(value, base) then entries else entries[key := ToText(value)]
  }

  /** `addIfMatch(params, key, value, baseValue)` */
  method AddIfMatch(params: UrlSearchParams, key: string, value: JsValue, base: JsValue)
    modifies params
    ensures params.entries == WithIfMatch(old(params.entries), key, value, base)
  {
    var alternatives := Alternatives(base);
    var matches := MatchesSome(value, alternatives);
    if matches {
      params.Set(key, ToText(value));
    }
  }

  /** `addIfNoMatch(params, key, value, baseValue)` */
  method AddIfNoMatch(params: UrlSearchParams, key: string, value: JsValue, base: JsValue)
    modifies params
    ensures params.entries == WithIfNoMatch(old(params.entries), key, value, base)
  {
    var alternatives := Alternatives(base);
    var matches := MatchesSome(value, alternatives);
    if !matches {
      params.Set(key, ToText(value));
    }
  }

  /** On the same inputs exactly one of the two writes the key: one leaves
      the parameters as they were and the other sets `key`. */
  lemma ExactlyOneWrites(entries: map<string, string>, key: string, value: JsValue, base: JsValue)
    ensures var written := entries[key := ToText(value)];
      (WithIfMatch(entries, key, value, base) == written && WithIfNoMatch(entries, key, value, base) == entries) ||
      (WithIfMatch(entries, key, value, base) == entries && WithIfNoMatch(entries, key, value, base) == written)
  {
  }

  /** `addIfNoMatch` never writes `undefined` or `null` as long as there is
      at least one alternative to compare with. */
  lemma UnsetIsNeverWritten(entries: map<string, string>, key: string, value: JsValue, base: JsValue)
    requires value.IsUnset()
    requires |Alternatives(base)| > 0
    ensures WithIfNoMatch(entries, key, value, base) == entries
  {
    assert ValueEquals(value, Alternatives(base)[0]);
  }

  /** With an empty array as base there is nothing to match, so even an
      unset value is written, as the text "undefined". */
  lemma EmptyBaseWritesUndefined(entries: map<string, string>, key: string)
    ensures WithIfNoMatch(entries, key, UndefinedValue, Arr([])) == entries[key := "undefined"]
  {
  }

  /** An array base is read as alternatives, not as a value: an array never
      matches a base holding the same strings. */
  lemma ArrayBaseIsAlternatives(x: string)
    ensures !Matches(StrList([x]), StrList([x]))
  {
    assert Alternatives(StrList([x])) == [Str(x)];
  }

  /** The callers' pattern `[undefined, b]`: a value matches exactly when it
      is unset or `valueEquals` the base value `b`. */
  lemma MatchesUnsetOrBase(value: JsValue, b: JsValue)
    ensures Matches(value, Arr([UndefinedValue, b])) <==> value.IsUnset() || ValueEquals(value, b)
  {
    var alts := [UndefinedValue, b];
    assert Alternatives(Arr(alts)) == alts;
    assert MatchesSome(value, alts) == (ValueEquals(value, UndefinedValue) || MatchesSome(value, alts[1..]));
    assert alts[1..] == [b];
  }

  /** `if (value) params.set(key, value)`, with a list joined by ",". */
  function SetIfTruthy(e: map<string, string>, key: string, v: JsValue): (r: map<string, string>)
    ensures Lookup(r, key) == if Truthy(v) then Some(ToText(v)) else Lookup(e, key)
    ensures forall k :: k != key ==> Lookup(r, k) == Lookup(e, k)
  {
    if Truthy(v) then e[key := ToText(v)] else e
  }

  /** A string field as it reads back after being written when truthy. */
  function TextReadBack(x: Nullable<string>): (r: Nullable<string>)
    ensures r.Val? <==> Truthy(StrSlot(x))
    ensures r.Val? ==> r == x
  {
    if x.Val? && x.value != "" then x else Null
  }
}
