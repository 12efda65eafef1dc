/** `overrideValues(original, overrides)`: the shallow merge
    `{...original, ...overrides}` over records given as property maps. */
module OverrideValues {
  import opened JsValues

  /** A record: its own enumerable properties. A property that is present
      with the value `undefined` is a key mapped to `UndefinedValue`. */
  type Record = map<string, JsValue>

  function OverrideValues(original: Record, overrides: Record): (r: Record)
    ensures r.Keys == original.Keys + overrides.Keys
    ensures forall k :: k in overrides ==> r[k] == overrides[k]
    ensures forall k :: k in original && k !in overrides ==> r[k] == original[k]
  {
    original + overrides
  }

  /** Merging the same overrides twice is merging them once. */
  lemma OverrideIdempotent(original: Record, overrides: Record)
    ensures OverrideValues(OverrideValues(original, overrides), overrides) == OverrideValues(original, overrides)
  {
  }

  /** Merging `{}` gives back a record equal to the original. */
  lemma OverrideWithNothing(original: Record)
    ensures OverrideValues(original, map[]) == original
  {
  }

  /** A property given as `undefined` replaces the original value. */
  lemma ExplicitUndefinedReplaces(original: Record, k: string)
    requires k in original && original[k] != UndefinedValue
    ensures OverrideValues(original, map[k := UndefinedValue])[k] == UndefinedValue
  {
  }
}
