/** The Archipelago connection settings of `src/lib/archipelago/config.ts`:
    server url, slot names and password, carried in the URL under `ap-url`,
    `ap-slots` (comma-joined) and `ap-password`. */
module ArchipelagoParams {
  import opened Js
  import opened Strings
  import opened JsValues
  import opened ValueEquality
  import opened SearchParams
  import opened SearchParamHelpers
  import OV = OverrideValues

  /** The settings record; `src/lib/archipelagoConnection.ts` keeps one of
      the same shape. */
  datatype ArchipelagoConfig = ArchipelagoConfig(
    url: Nullable<string>,
    slots: Nullable<seq<string>>,
    password: Nullable<string>)

  /** A `Partial<ArchipelagoInstance>`: `None` is a key left out, `Some(x)`
      a key given (possibly as `undefined` or `null`). */
  datatype ArchipelagoPatch = ArchipelagoPatch(
    url: Option<Nullable<string>>,
    slots: Option<Nullable<seq<string>>>,
    password: Option<Nullable<string>>)

  /** The settings before anything is read: all three unset. */
  function InitialConfig(): (c: ArchipelagoConfig)
    ensures c.url.Undefined? && c.slots.Undefined? && c.password.Undefined?
  {
    ArchipelagoConfig(Undefined, Undefined, Undefined)
  }

  /** `deconstructArchipelagoParams(params)`: url and password are the
      parameters or `null`; slots is always a list. */
  function Deconstruct(params: map<string, string>): (c: ArchipelagoConfig)
    ensures c.url == (if "ap-url" in params then Val(params["ap-url"]) else Null)
    ensures c.password == (if "ap-password" in params then Val(params["ap-password"]) else Null)
    ensures c.slots.Val? && ("ap-slots" !in params <==> c.slots.value == [])
  {
    ArchipelagoConfig(
      FromGet(Lookup(params, "ap-url")),
      Val(SplitOrEmpty(Lookup(params, "ap-slots"), ',')),
      FromGet(Lookup(params, "ap-password")))
  }

  /** `constructArchipelagoParams(params)`: `addIfNoMatch` with the bases
      `[undefined, ""]` and `[undefined, []]`. */
  function Construct(c: ArchipelagoConfig, entries: map<string, string>): map<string, string> {
    var e1 := WithIfNoMatch(entries, "ap-url", StrSlot(c.url), Arr([UndefinedValue, Str("")]));
    var e2 := WithIfNoMatch(e1, "ap-slots", ListSlot(c.slots), Arr([UndefinedValue, Arr([])]));
    WithIfNoMatch(e2, "ap-password", StrSlot(c.password), Arr([UndefinedValue, Str("")]))
  }

  /** A text field is written when it is set and not empty. */
  predicate Written(x: Nullable<string>) {
    x.Val? && x.value != ""
  }

  /** The slot list is written when it is set and not empty. */
  predicate SlotsWritten(x: Nullable<seq<string>>) {
    x.Val? && x.value != []
  }

  lemma TextMatch(x: Nullable<string>)
    ensures Matches(StrSlot(x), Arr([UndefinedValue, Str("")])) <==> !Written(x)
  {
    MatchesUnsetOrBase(StrSlot(x), Str(""));
  }

  lemma SlotsMatch(x: Nullable<seq<string>>)
    ensures Matches(ListSlot(x), Arr([UndefinedValue, Arr([])])) <==> !SlotsWritten(x)
  {
    assert StrList([]) == Arr([]);
    MatchesUnsetOrBase(ListSlot(x), Arr([]));
    if x.Val? {
      ArraysCompareInOrder(x.value, []);
    }
  }

  /** What the constructed parameters hold: each key is written exactly when
      its field is set and non-empty, and every other key is untouched. */
  lemma ConstructLookup(c: ArchipelagoConfig, entries: map<string, string>)
    ensures var r := Construct(c, entries);
      && Lookup(r, "ap-url") == (if Written(c.url) then Some(c.url.value) else Lookup(entries, "ap-url"))
      && Lookup(r, "ap-password") == (if Written(c.password) then Some(c.password.value) else Lookup(entries, "ap-password"))
      && Lookup(r, "ap-slots") == (if SlotsWritten(c.slots) then Some(Join(c.slots.value, ',')) else Lookup(entries, "ap-slots"))
      && forall k :: k !in {"ap-url", "ap-slots", "ap-password"} ==> Lookup(r, k) == Lookup(entries, k)
  {
    TextMatch(c.url);
    TextMatch(c.password);
    SlotsMatch(c.slots);
    if c.slots.Val? {
      StrListText(c.slots.value);
    }
  }

  /** What a configuration reads back as: an unset or empty text becomes
      `null`, and unset slots become `[]`. */
  function ReadBack(c: ArchipelagoConfig): (r: ArchipelagoConfig)
    ensures r.url.Val? <==> Written(c.url)
    ensures r.password.Val? <==> Written(c.password)
    ensures r.slots.Val? && (r.slots.value == [] <==> !SlotsWritten(c.slots))
  {
    ArchipelagoConfig(
      if Written(c.url) then c.url else Null,
      if SlotsWritten(c.slots) then c.slots else Val([]),
      if Written(c.password) then c.password else Null)
  }

  /** Deconstructing the constructed parameters reads the configuration
      back, as long as the URL held none of the keys before and no slot name
      holds a comma. */
  lemma {:induction false} ConstructDeconstruct(c: ArchipelagoConfig, entries: map<string, string>)
    requires "ap-url" !in entries && "ap-slots" !in entries && "ap-password" !in entries
    requires c.slots.Val? ==> SeparatorFree(c.slots.value, ',')
    ensures Deconstruct(Construct(c, entries)) == ReadBack(c)
  {
    ConstructLookup(c, entries);
    if SlotsWritten(c.slots) {
      SplitJoin(c.slots.value, ',');
    }
  }

  /** The round trip is exact for a non-empty url and password and a
      non-empty list of comma-free slot names. */
  lemma RoundTrip(c: ArchipelagoConfig, entries: map<string, string>)
    requires Written(c.url) && Written(c.password) && SlotsWritten(c.slots)
    requires SeparatorFree(c.slots.value, ',')
    ensures Deconstruct(Construct(c, entries)) == c
  {
    ConstructLookup(c, entries);
    SplitJoin(c.slots.value, ',');
  }

  /** `setArchipelagoConfig(override)`: given keys replace, the others are
      kept. */
  function WithOverride(c: ArchipelagoConfig, p: ArchipelagoPatch): (r: ArchipelagoConfig)
    ensures r.url == (if p.url.Some? then p.url.value else c.url)
    ensures r.slots == (if p.slots.Some? then p.slots.value else c.slots)
    ensures r.password == (if p.password.Some? then p.password.value else c.password)
  {
    ArchipelagoConfig(
      if p.url.Some? then p.url.value else c.url,
      if p.slots.Some? then p.slots.value else c.slots,
      if p.password.Some? then p.password.value else c.password)
  }

  /** The configuration as a record of properties. */
  function ToRecord(c: ArchipelagoConfig): OV.Record {
    map["url" := StrSlot(c.url), "slots" := ListSlot(c.slots), "password" := StrSlot(c.password)]
  }

  /** The partial override as a record: only the keys it gives. */
  function PatchRecord(p: ArchipelagoPatch): (r: OV.Record)
    ensures r.Keys <= {"url", "slots", "password"}
  {
    var u: OV.Record := if p.url.Some? then map["url" := StrSlot(p.url.value)] else map[];
    var s: OV.Record := if p.slots.Some? then u["slots" := ListSlot(p.slots.value)] else u;
    if p.password.Some? then s["password" := StrSlot(p.password.value)] else s
  }

  /** The typed merge is the generic `overrideValues` on records. */
  lemma SetIsOverrideValues(c: ArchipelagoConfig, p: ArchipelagoPatch)
    ensures ToRecord(WithOverride(c, p)) == OV.OverrideValues(ToRecord(c), PatchRecord(p))
  {
  }

  /** Merging the same override twice is merging it once; an override
      giving no key changes nothing. */
  lemma SetIdempotent(c: ArchipelagoConfig, p: ArchipelagoPatch)
    ensures WithOverride(WithOverride(c, p), p) == WithOverride(c, p)
    ensures WithOverride(c, ArchipelagoPatch(None, None, None)) == c
  {
  }

  /** The module state of `src/lib/archipelago/config.ts`. */
  class ArchipelagoParamsStore {
    var config: ArchipelagoConfig

    constructor ()
      ensures config == InitialConfig()
    {
      config := ArchipelagoConfig(Undefined, Undefined, Undefined);
    }

    method DeconstructArchipelagoParams(params: UrlSearchParams)
      modifies this
      ensures config == Deconstruct(params.entries)
    {
      var url := params.Get("ap-url");
      var slots := params.Get("ap-slots");
      var password := params.Get("ap-password");
      config := ArchipelagoConfig(FromGet(url), Val(SplitOrEmpty(slots, ',')), FromGet(password));
    }

    /** The early return on a missing config cannot happen: the config is
        always an object. */
    method ConstructArchipelagoParams(params: UrlSearchParams)
      modifies params
      ensures params.entries == Construct(config, old(params.entries))
    {
      AddIfNoMatch(params, "ap-url", StrSlot(config.url), Arr([UndefinedValue, Str("")]));
      AddIfNoMatch(params, "ap-slots", ListSlot(config.slots), Arr([UndefinedValue, Arr([])]));
      AddIfNoMatch(params, "ap-password", StrSlot(config.password), Arr([UndefinedValue, Str("")]));
    }

    method SetArchipelagoConfig(p: ArchipelagoPatch)
      modifies this
      ensures config == WithOverride(old(config), p)
    {
      config := WithOverride(config, p);
    }

    method GetArchipelagoConfig() returns (c: ArchipelagoConfig)
      ensures c == config
    {
      c := config;
    }
  }
}
