/** The configuration region of `src/lib/archipelagoConnection.ts`: the
    same url, slots and password, under the keys `archipelago-url`,
    `archipelago-slots` and `archipelago-password`, which `construct` always
    writes. `None` is the module's `config` before `loadArchipelagoConfig`
    assigns it. */
module ArchipelagoSettings {
  import opened Js
  import opened Strings
  import opened JsValues
  import opened SearchParams
  import opened ArchipelagoParams

  /** The state is well formed when, once loaded, its slots are a list:
      `construct` calls `config.slots.join` and would throw otherwise. */
  predicate WellFormed(config: Option<ArchipelagoConfig>) {
    config.Some? ==> config.value.slots.Val?
  }

  /** `deconstructArchipelagoUrlParams(params)` */
  function Decode(params: map<string, string>): (c: ArchipelagoConfig)
    ensures c.url == (if "archipelago-url" in params then Val(params["archipelago-url"]) else Null)
    ensures c.password == (if "archipelago-password" in params then Val(params["archipelago-password"]) else Null)
    ensures c.slots.Val? && ("archipelago-slots" !in params <==> c.slots.value == [])
  {
    ArchipelagoConfig(
      FromGet(Lookup(params, "archipelago-url")),
      Val(SplitOrEmpty(Lookup(params, "archipelago-slots"), ',')),
      FromGet(Lookup(params, "archipelago-password")))
  }

  /** `loadArchipelagoConfig()`: the reset to all-unset is overwritten at
      once by decoding the page's parameters. */
  function Load(params: map<string, string>): (r: Option<ArchipelagoConfig>)
    ensures WellFormed(r) && r == Some(Decode(params))
  {
    Some(Decode(params))
  }

  /** `constructArchipelagoUrlParams(params)`: nothing without a config;
      otherwise all three keys, each as `String` of its field. */
  function Encode(config: Option<ArchipelagoConfig>, entries: map<string, string>): (r: map<string, string>)
    requires WellFormed(config)
    ensures config.None? ==> r == entries
    ensures config.Some? ==> r.Keys == entries.Keys + {"archipelago-url", "archipelago-slots", "archipelago-password"}
    ensures config.Some? ==> r["archipelago-slots"] == Join(config.value.slots.value, ',')
    ensures config.Some? ==> r["archipelago-url"] == ToText(StrSlot(config.value.url))
    ensures config.Some? ==> r["archipelago-password"] == ToText(StrSlot(config.value.password))
    ensures forall k :: k in entries && k !in {"archipelago-url", "archipelago-slots", "archipelago-password"} ==> r[k] == entries[k]
  {
    match config
    case None => entries
    case Some(c) =>
      entries["archipelago-url" := ToText(StrSlot(c.url))]
             ["archipelago-slots" := Join(c.slots.value, ',')]
             ["archipelago-password" := ToText(StrSlot(c.password))]
  }

  /** How `setArchipelagoSettings` ends: by throwing, or by assigning the
      configuration it built. */
  datatype SetOutcome = Threw | Assigned(config: ArchipelagoConfig)

  /** `setArchipelagoSettings(override)`: each field is the given one, or
      else, as `??` falls back, the current one. Before a load `config` is
      `undefined`, so the first fallback that is needed reads a field of
      `undefined` and throws; an override that sets all three fields is
      assigned whole. */
  function SetSettings(config: Option<ArchipelagoConfig>, p: ArchipelagoConfig): (r: SetOutcome)
    ensures config.Some? ==> r.Assigned?
    ensures config.None? ==> (r.Assigned? <==> p.url.Val? && p.slots.Val? && p.password.Val?)
    ensures r.Assigned? && config.None? ==> r.config == p
    ensures r.Assigned? && config.Some? ==> r.config.url == p.url.Or(config.value.url)
    ensures r.Assigned? && config.Some? ==> r.config.slots == p.slots.Or(config.value.slots)
    ensures r.Assigned? && config.Some? ==> r.config.password == p.password.Or(config.value.password)
  {
    match config
    case Some(c) => Assigned(ArchipelagoConfig(p.url.Or(c.url), p.slots.Or(c.slots), p.password.Or(c.password)))
    case None =>
      if p.url.Val? && p.slots.Val? && p.password.Val? then Assigned(p) else Threw
  }

  /** The configuration after `setArchipelagoSettings`: the one assigned, or
      the old one when it threw. */
  function AfterSet(config: Option<ArchipelagoConfig>, p: ArchipelagoConfig): Option<ArchipelagoConfig> {
    match SetSettings(config, p)
    case Threw => config
    case Assigned(c) => Some(c)
  }

  /** Every operation keeps the state well formed, so `construct` never
      throws on the slots. */
  lemma OperationsKeepValid(config: Option<ArchipelagoConfig>, p: ArchipelagoConfig, params: map<string, string>)
    requires WellFormed(config)
    ensures WellFormed(AfterSet(config, p))
    ensures WellFormed(Load(params)) && WellFormed(Some(Decode(params)))
  {
  }

  /** Decoding what was encoded gives back a set, non-empty url and
      password and a non-empty list of comma-free slot names. */
  lemma {:induction false} EncodeDecode(c: ArchipelagoConfig, entries: map<string, string>)
    requires c.url.Val? && c.password.Val?
    requires c.slots.Val? && |c.slots.value| >= 1 && SeparatorFree(c.slots.value, ',')
    ensures Decode(Encode(Some(c), entries)) == c
  {
    SplitJoin(c.slots.value, ',');
  }

  /** A `null` url is written as the text "null", which reads back as a url
      equal to that text. */
  lemma NullUrlReadsBackAsText(c: ArchipelagoConfig, entries: map<string, string>)
    requires c.url.Null? && c.slots.Val?
    ensures Decode(Encode(Some(c), entries)).url == Val("null")
  {
  }

  /** The configuration state of `src/lib/archipelagoConnection.ts`. */
  class ArchipelagoSettingsStore {
    var config: Option<ArchipelagoConfig>

    ghost predicate Valid()
      reads this
    {
      WellFormed(config)
    }

    constructor ()
      ensures config.None? && Valid()
    {
      config := None;
    }

    /** `params` stands for the page's own `window.location` parameters. */
    method LoadArchipelagoConfig(params: UrlSearchParams)
      modifies this
      ensures config == Load(params.entries) && Valid()
    {
      config := Some(ArchipelagoConfig(Undefined, Undefined, Undefined));
      DeconstructArchipelagoUrlParams(params);
    }

    method DeconstructArchipelagoUrlParams(params: UrlSearchParams)
      modifies this
      ensures config == Some(Decode(params.entries)) && Valid()
    {
      var url := params.Get("archipelago-url");
      var slots := params.Get("archipelago-slots");
      var password := params.Get("archipelago-password");
      config := Some(ArchipelagoConfig(FromGet(url), Val(SplitOrEmpty(slots, ',')), FromGet(password)));
    }

    /** Without a config the parameters are returned; otherwise they are
        written and the function returns `undefined` (here `null`). */
    method ConstructArchipelagoUrlParams(params: UrlSearchParams?) returns (r: UrlSearchParams?)
      requires Valid()
      modifies params
      ensures config.None? ==> r != null && (params != null ==> r == params) && (params == null ==> fresh(r) && r.entries == map[])
      ensures config.Some? ==> r == null
      ensures params != null ==> params.entries == Encode(config, old(params.entries))
    {
      var searchParams := params;
      if searchParams == null {
        searchParams := new UrlSearchParams();
      }
      if config.None? {
        return searchParams;
      }
      var c := config.value;
      searchParams.Set("archipelago-url", ToText(StrSlot(c.url)));
      searchParams.Set("archipelago-slots", Join(c.slots.value, ','));
      searchParams.Set("archipelago-password", ToText(StrSlot(c.password)));
      r := null;
    }

    /** `setArchipelagoSettings(override)`; `threw` tells whether it threw. */
    method SetArchipelagoSettings(p: ArchipelagoConfig) returns (threw: bool)
      requires Valid()
      modifies this
      ensures threw <==> SetSettings(old(config), p).Threw?
      ensures config == AfterSet(old(config), p) && Valid()
    {
      var url, slots, password;
      if p.url.Val? {
        url := p.url;
      } else if config.None? {
        return true;
      } else {
        url := config.value.url;
      }
      if p.slots.Val? {
        slots := p.slots;
      } else if config.None? {
        return true;
      } else {
        slots := config.value.slots;
      }
      if p.password.Val? {
        password := p.password;
      } else if config.None? {
        return true;
      } else {
        password := config.value.password;
      }
      config := Some(ArchipelagoConfig(url, slots, password));
      threw := false;
    }

    method GetArchipelagoConfig() returns (c: Option<ArchipelagoConfig>)
      ensures c == config
    {
      c := config;
    }
  }
}
