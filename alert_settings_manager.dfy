/** `AlertManager` of `Alerts/src/AlertManager.ts`: a settings manager over
    alerts. The JSON configuration names images and audios by link; each
    configured alert has a base entry (its media resolved through those
    tables, its timeout as decimal text) and an override read from the
    `-color`, `-timeout`, `-animation`, `-audios` and `-images` URL
    parameters, the same keys `src/URLParser.ts` uses. Several named
    configurations are loaded; `changeConfig` switches between them. */
module AlertSettings {
  import opened Js
  import opened Strings
  import opened JsMaps
  import opened SearchParams
  import opened SettingsStores
  import U = UrlParams

  datatype AlertMedia = AlertMedia(name: string, link: string)

  /** An alert entry. Base entries hold values everywhere; overrides start
      all `null`. */
  datatype AlertEntry = AlertEntry(
    name: string,
    color: Nullable<string>,
    audios: Nullable<seq<AlertMedia>>,
    images: Nullable<seq<AlertMedia>>,
    timeout: Nullable<string>,
    animation: Nullable<string>)

  /** One alert of the JSON configuration; its media are names. */
  datatype AlertJson = AlertJson(color: string, audios: seq<string>, images: seq<string>, timeout: int, animation: string)

  /** A JSON configuration: name-to-link tables and the alerts. */
  datatype ConfigJson = ConfigJson(images: JsMap<string>, audios: JsMap<string>, alerts: JsMap<AlertJson>) {
    predicate Valid() {
      images.Valid() && audios.Valid() && alerts.Valid()
    }
  }

  // ---------------------------------------------------------------------
  // Media

  /** Every medium is filed under its own name. */
  predicate MediaNamed(t: JsMap<AlertMedia>) {
    forall k :: k in t.values ==> t.values[k].name == k
  }

  /** The name-to-medium table built from a name-to-link table: one medium
      per entry, in entry order, with the name and link copied. */
  function MediaTable(json: JsMap<string>): (t: JsMap<AlertMedia>)
    requires json.Valid()
    ensures t.Valid() && t.keys == json.keys && MediaNamed(t)
    ensures forall k :: k in t.values <==> k in json.values
    ensures forall k :: k in t.values ==> t.values[k].link == json.values[k]
  {
    JsMap(json.keys, map k | k in json.values :: AlertMedia(k, json.values[k]))
  }

  /** Looking names up in a table and dropping the misses: the media of
      the known names, in the names' order. */
  function Resolve(table: JsMap<AlertMedia>, names: seq<string>): (r: seq<AlertMedia>)
    ensures |r| <= |names|
    ensures forall m :: m in r ==> m in table.values.Values
    decreases |names|
  {
    if |names| == 0 then []
    else
      var last := names[|names| - 1];
      Resolve(table, names[..|names| - 1]) + (if last in table.values then [table.values[last]] else [])
  }

  /** Resolving a concatenation resolves each part. */
  lemma {:induction false} ResolveAppend(table: JsMap<AlertMedia>, a: seq<string>, b: seq<string>)
    ensures Resolve(table, a + b) == Resolve(table, a) + Resolve(table, b)
    decreases |b|
  {
    if |b| == 0 {
      assert a + b == a;
    } else {
      var init := b[..|b| - 1];
      assert (a + b)[..|a + b| - 1] == a + init;
      assert (a + b)[|a + b| - 1] == b[|b| - 1];
      ResolveAppend(table, a, init);
    }
  }

  /** When every name is known, nothing is dropped: one medium per name, in
      order. */
  lemma {:induction false} ResolveAllKnown(table: JsMap<AlertMedia>, names: seq<string>)
    requires forall k :: k in names ==> k in table.values
    ensures |Resolve(table, names)| == |names|
    ensures forall i :: 0 <= i < |names| ==> Resolve(table, names)[i] == table.values[names[i]]
    decreases |names|
  {
    if |names| > 0 {
      var init := names[..|names| - 1];
      assert forall k :: k in init ==> k in names;
      ResolveAllKnown(table, init);
    }
  }

  /** Names missing from the table leave no trace. */
  lemma ResolveUnknown(table: JsMap<AlertMedia>, names: seq<string>)
    requires forall k :: k in names ==> k !in table.values
    ensures Resolve(table, names) == []
  {
    if |names| > 0 {
      var init := names[..|names| - 1];
      assert forall k :: k in init ==> k in names;
      ResolveUnknown(table, init);
    }
  }

  /** `media.map((m) => m.name)` */
  function Names(ms: seq<AlertMedia>): (r: seq<string>)
    ensures |r| == |ms|
    ensures forall i :: 0 <= i < |ms| ==> r[i] == ms[i].name
  {
    seq(|ms|, i requires 0 <= i < |ms| => ms[i].name)
  }

  /** Media drawn from a table come back when their names are resolved in
      it again. */
  lemma ResolveNames(table: JsMap<AlertMedia>, ms: seq<AlertMedia>)
    requires forall m :: m in ms ==> m.name in table.values && table.values[m.name] == m
    ensures Resolve(table, Names(ms)) == ms
  {
    var names := Names(ms);
    forall k | k in names ensures k in table.values {
      var i :| 0 <= i < |names| && names[i] == k;
      assert ms[i] in ms;
    }
    ResolveAllKnown(table, names);
    forall i | 0 <= i < |ms| ensures Resolve(table, names)[i] == ms[i] {
      assert ms[i] in ms;
    }
  }

  // ---------------------------------------------------------------------
  // createConfigs

  /** The base entry of one alert: media resolved through the tables, the
      timeout as decimal text, color and animation as given. */
  function BaseEntry(name: string, j: AlertJson, images: JsMap<AlertMedia>, audios: JsMap<AlertMedia>): (e: AlertEntry)
    ensures e.name == name
  {
    AlertEntry(name, Val(j.color), Val(Resolve(audios, j.audios)), Val(Resolve(images, j.images)), Val(IntToString(j.timeout)), Val(j.animation))
  }

  /** A base entry holds every field; its timeout reads back as the
      configured number and its media lists keep the known names in
      configured order. */
  lemma BaseEntryFields(name: string, j: AlertJson, images: JsMap<AlertMedia>, audios: JsMap<AlertMedia>)
    requires forall k :: k in j.images ==> k in images.values
    ensures var e := BaseEntry(name, j, images, audios);
      && e.color == Val(j.color) && e.animation == Val(j.animation)
      && ParseDecimal(e.timeout.value) == Some(j.timeout)
      && |e.images.value| == |j.images|
      && forall i :: 0 <= i < |j.images| ==> e.images.value[i] == images.values[j.images[i]]
  {
    ParseIntToString(j.timeout);
    ResolveAllKnown(images, j.images);
  }

  /** The override `createConfigs` stores: every field `null`. */
  function NullOverride(name: string): AlertEntry {
    AlertEntry(name, Null, Null, Null, Null, Null)
  }

  /** The configs after the alerts loop of `createConfigs`, over the given
      names in order: each gets its base entry; other names keep theirs. */
  function BaseEntries(configs: JsMap<AlertEntry>, alerts: JsMap<AlertJson>, names: seq<string>, images: JsMap<AlertMedia>, audios: JsMap<AlertMedia>): (r: JsMap<AlertEntry>)
    requires configs.Valid()
    requires forall k :: k in names ==> k in alerts.values
    ensures r.Valid()
    decreases |names|
  {
    if |names| == 0 then configs
    else
      var init := names[..|names| - 1];
      var last := names[|names| - 1];
      assert forall k :: k in init ==> k in names;
      BaseEntries(configs, alerts, init, images, audios).Set(last, BaseEntry(last, alerts.values[last], images, audios))
  }

  lemma {:induction false} BaseEntriesGet(configs: JsMap<AlertEntry>, alerts: JsMap<AlertJson>, names: seq<string>, images: JsMap<AlertMedia>, audios: JsMap<AlertMedia>, k: string)
    requires configs.Valid()
    requires forall k :: k in names ==> k in alerts.values
    ensures BaseEntries(configs, alerts, names, images, audios).Get(k) ==
      if k in names then Some(BaseEntry(k, alerts.values[k], images, audios)) else configs.Get(k)
    decreases |names|
  {
    if |names| > 0 {
      var init := names[..|names| - 1];
      assert names == init + [names[|names| - 1]];
      BaseEntriesGet(configs, alerts, init, images, audios, k);
    }
  }

  /** The overrides after the alerts loop: each given name is all `null`. */
  function NullOverrides(overrides: JsMap<AlertEntry>, names: seq<string>): (r: JsMap<AlertEntry>)
    requires overrides.Valid()
    ensures r.Valid()
    decreases |names|
  {
    if |names| == 0 then overrides
    else NullOverrides(overrides, names[..|names| - 1]).Set(names[|names| - 1], NullOverride(names[|names| - 1]))
  }

  lemma {:induction false} NullOverridesGet(overrides: JsMap<AlertEntry>, names: seq<string>, k: string)
    requires overrides.Valid()
    ensures NullOverrides(overrides, names).Get(k) == if k in names then Some(NullOverride(k)) else overrides.Get(k)
    decreases |names|
  {
    if |names| > 0 {
      var init := names[..|names| - 1];
      assert names == init + [names[|names| - 1]];
      NullOverridesGet(overrides, init, k);
    }
  }

  lemma CreatedStep(configs: JsMap<AlertEntry>, overrides: JsMap<AlertEntry>, alerts: JsMap<AlertJson>, names: seq<string>, images: JsMap<AlertMedia>, audios: JsMap<AlertMedia>, i: nat)
    requires configs.Valid() && overrides.Valid()
    requires i < |names| && forall k :: k in names ==> k in alerts.values
    ensures BaseEntries(configs, alerts, names[..i + 1], images, audios) ==
      BaseEntries(configs, alerts, names[..i], images, audios).Set(names[i], BaseEntry(names[i], alerts.values[names[i]], images, audios))
    ensures NullOverrides(overrides, names[..i + 1]) == NullOverrides(overrides, names[..i]).Set(names[i], NullOverride(names[i]))
  {
    assert names[..i + 1][..i] == names[..i];
  }

  /** Everything the manager holds. */
  datatype AlertState = AlertState(
    settings: Settings<AlertEntry>,
    images: JsMap<AlertMedia>,
    audios: JsMap<AlertMedia>,
    loaded: JsMap<ConfigJson>)

  /** `createConfigs(config)`: both media tables are replaced; the alerts
      are set into the existing maps, which are not cleared. */
  function Created(st: AlertState, config: ConfigJson): (r: AlertState)
    requires st.settings.Valid() && config.Valid()
    ensures r.settings.Valid() && r.loaded == st.loaded
  {
    var images := MediaTable(config.images);
    var audios := MediaTable(config.audios);
    var names := config.alerts.keys;
    AlertState(
      Settings(BaseEntries(st.settings.configs, config.alerts, names, images, audios), NullOverrides(st.settings.overrides, names)),
      images, audios, st.loaded)
  }

  // ---------------------------------------------------------------------
  // deconstructURL

  /** `getParamList(params, key)`: `[]` for an absent parameter, otherwise
      its pieces between commas. */
  function ParamList(params: map<string, string>, key: string): (r: seq<string>)
    ensures key !in params ==> r == []
    ensures key in params ==> |r| >= 1 && SeparatorFree(r, ',') && Join(r, ',') == params[key]
  {
    SplitOrEmpty(Lookup(params, key), ',')
  }

  /** The override `deconstructURL` reads for one alert: each text field is
      its parameter or `null`, and each media list the known media named by
      its parameter, in parameter order, `[]` when absent. */
  function ReadOverride(name: string, params: map<string, string>, images: JsMap<AlertMedia>, audios: JsMap<AlertMedia>): (o: AlertEntry)
    ensures o.name == name && o.audios.Val? && o.images.Val?
    ensures U.AlertKey(name, U.Images) !in params ==> o.images.value == []
    ensures U.AlertKey(name, U.Audios) !in params ==> o.audios.value == []
    ensures o.color.Null? <==> U.AlertKey(name, U.Color) !in params
  {
    AlertEntry(name,
      FromGet(Lookup(params, U.AlertKey(name, U.Color))),
      Val(Resolve(audios, ParamList(params, U.AlertKey(name, U.Audios)))),
      Val(Resolve(images, ParamList(params, U.AlertKey(name, U.Images)))),
      FromGet(Lookup(params, U.AlertKey(name, U.Timeout))),
      FromGet(Lookup(params, U.AlertKey(name, U.AnimationName))))
  }

  /** The overrides `deconstructURL` leaves, over the given names (the
      configured ones, in order): each is replaced wholesale. */
  function UrlOverrides(overrides: JsMap<AlertEntry>, names: seq<string>, params: map<string, string>, images: JsMap<AlertMedia>, audios: JsMap<AlertMedia>): (r: JsMap<AlertEntry>)
    requires overrides.Valid()
    ensures r.Valid()
    ensures forall k :: r.Get(k) == if k in names then Some(ReadOverride(k, params, images, audios)) else overrides.Get(k)
    decreases |names|
  {
    if |names| == 0 then overrides
    else
      var init := names[..|names| - 1];
      var last := names[|names| - 1];
      assert forall k :: k in names <==> k in init || k == last by {
        assert names == init + [last];
      }
      UrlOverrides(overrides, init, params, images, audios).Set(last, ReadOverride(last, params, images, audios))
  }

  /** `deconstructURL(url)`: only the overrides change. */
  function Deconstruct(st: AlertState, params: map<string, string>): (r: AlertState)
    requires st.settings.Valid()
    ensures r.settings.Valid() && r.settings.configs == st.settings.configs
    ensures r.images == st.images && r.audios == st.audios && r.loaded == st.loaded
  {
    var s := st.settings;
    st.(settings := Settings(s.configs, UrlOverrides(s.overrides, s.configs.keys, params, st.images, st.audios)))
  }

  // ---------------------------------------------------------------------
  // constructSearchParams

  /** A text field that `if (x)` lets through. */
  predicate Filled(x: Nullable<string>) {
    x.Val? && x.value != ""
  }

  /** What `constructSearchParams` writes for one field of an override:
      truthy text fields (the color without its first "#"), and media lists
      whenever they are arrays, even empty ones. */
  function FieldText(o: AlertEntry, f: U.AlertField): (r: Option<string>)
    ensures f == U.Images ==> (r.Some? <==> o.images.Val?)
    ensures f == U.Audios ==> (r.Some? <==> o.audios.Val?)
    ensures f == U.Timeout ==> (r.Some? <==> Filled(o.timeout)) && (r.Some? ==> r.value == o.timeout.value)
    ensures f == U.AnimationName ==> (r.Some? <==> Filled(o.animation)) && (r.Some? ==> r.value == o.animation.value)
    ensures f == U.Color ==> (r.Some? <==> Filled(o.color))
  {
    match f
    case Color => if Filled(o.color) then Some(RemoveFirst(o.color.value, '#')) else None
    case Timeout => if Filled(o.timeout) then Some(o.timeout.value) else None
    case AnimationName => if Filled(o.animation) then Some(o.animation.value) else None
    case Images => if o.images.Val? then Some(Join(Names(o.images.value), ',')) else None
    case Audios => if o.audios.Val? then Some(Join(Names(o.audios.value), ',')) else None
  }

  /** The fields in the order `constructSearchParams` writes them. */
  const WrittenFields: seq<U.AlertField> := [U.Color, U.Timeout, U.AnimationName, U.Images, U.Audios]

  /** `params.set(key, text)` when there is text to write. */
  function Put(e: map<string, string>, key: string, text: Option<string>): map<string, string> {
    if text.Some? then e[key := text.value] else e
  }

  /** The listed fields of one override, under its own name. */
  function WriteFields(o: AlertEntry, fs: seq<U.AlertField>, e: map<string, string>): map<string, string>
    decreases |fs|
  {
    if |fs| == 0 then e
    else
      var f := fs[|fs| - 1];
      Put(WriteFields(o, fs[..|fs| - 1], e), U.AlertKey(o.name, f), FieldText(o, f))
  }

  lemma {:induction false} WriteFieldsLookup(o: AlertEntry, fs: seq<U.AlertField>, e: map<string, string>, n: string, f: U.AlertField)
    ensures Lookup(WriteFields(o, fs, e), U.AlertKey(n, f)) ==
      if n == o.name && f in fs && FieldText(o, f).Some? then FieldText(o, f) else Lookup(e, U.AlertKey(n, f))
    decreases |fs|
  {
    if |fs| > 0 {
      var init, g := fs[..|fs| - 1], fs[|fs| - 1];
      assert fs == init + [g];
      WriteFieldsLookup(o, init, e, n, f);
      if U.AlertKey(n, f) == U.AlertKey(o.name, g) {
        U.AlertKeyInjective(n, f, o.name, g);
      }
    }
  }

  lemma EveryFieldWritten(f: U.AlertField)
    ensures f in WrittenFields
  {
    match f
    case Color => assert WrittenFields[0] == f;
    case Timeout => assert WrittenFields[1] == f;
    case AnimationName => assert WrittenFields[2] == f;
    case Images => assert WrittenFields[3] == f;
    case Audios => assert WrittenFields[4] == f;
  }

  /** One override's writes: its own keys get their field text when there
      is any; every other key is unchanged. */
  function WriteOverride(o: AlertEntry, e: map<string, string>): (r: map<string, string>)
  {
    WriteFields(o, WrittenFields, e)
  }

  /** The five writes of one override, in order. */
  lemma WriteOverrideUnfolded(o: AlertEntry, e: map<string, string>)
    ensures WriteOverride(o, e) ==
      Put(Put(Put(Put(Put(e, U.AlertKey(o.name, U.Color), FieldText(o, U.Color)),
                          U.AlertKey(o.name, U.Timeout), FieldText(o, U.Timeout)),
                      U.AlertKey(o.name, U.AnimationName), FieldText(o, U.AnimationName)),
                  U.AlertKey(o.name, U.Images), FieldText(o, U.Images)),
              U.AlertKey(o.name, U.Audios), FieldText(o, U.Audios))
  {
    var f1: seq<U.AlertField> := [U.Color];
    var f2 := f1 + [U.Timeout];
    var f3 := f2 + [U.AnimationName];
    var f4 := f3 + [U.Images];
    assert WrittenFields == f4 + [U.Audios];
    assert (f4 + [U.Audios])[..4] == f4 && f4[..3] == f3 && f3[..2] == f2 && f2[..1] == f1 && f1[..0] == [];
    var w0 := WriteFields(o, f1, e);
    assert w0 == Put(e, U.AlertKey(o.name, U.Color), FieldText(o, U.Color));
    var w1 := WriteFields(o, f2, e);
    assert w1 == Put(w0, U.AlertKey(o.name, U.Timeout), FieldText(o, U.Timeout));
    var w2 := WriteFields(o, f3, e);
    assert w2 == Put(w1, U.AlertKey(o.name, U.AnimationName), FieldText(o, U.AnimationName));
    var w3 := WriteFields(o, f4, e);
    assert w3 == Put(w2, U.AlertKey(o.name, U.Images), FieldText(o, U.Images));
  }

  lemma WriteOverrideLookup(o: AlertEntry, e: map<string, string>, n: string, f: U.AlertField)
    ensures Lookup(WriteOverride(o, e), U.AlertKey(n, f)) ==
      if n == o.name && FieldText(o, f).Some? then FieldText(o, f) else Lookup(e, U.AlertKey(n, f))
  {
    WriteFieldsLookup(o, WrittenFields, e, n, f);
    EveryFieldWritten(f);
  }

  /** Every override is filed under its own name. */
  predicate OverridesNamed(m: JsMap<AlertEntry>) {
    forall k :: k in m.values ==> m.values[k].name == k
  }

  /** The overrides in map order, each under its own name. */
  function WriteOverrides(m: JsMap<AlertEntry>, keys: seq<string>, e: map<string, string>): map<string, string>
    requires forall k :: k in keys ==> k in m.values
    decreases |keys|
  {
    if |keys| == 0 then e
    else WriteOverride(m.values[keys[|keys| - 1]], WriteOverrides(m, keys[..|keys| - 1], e))
  }

  lemma {:induction false} WriteOverridesLookup(m: JsMap<AlertEntry>, keys: seq<string>, e: map<string, string>, n: string, f: U.AlertField)
    requires OverridesNamed(m)
    requires forall k :: k in keys ==> k in m.values
    requires forall i, j :: 0 <= i < j < |keys| ==> keys[i] != keys[j]
    ensures Lookup(WriteOverrides(m, keys, e), U.AlertKey(n, f)) ==
      if n in keys && FieldText(m.values[n], f).Some? then FieldText(m.values[n], f) else Lookup(e, U.AlertKey(n, f))
    decreases |keys|
  {
    if |keys| > 0 {
      var init := keys[..|keys| - 1];
      var last := keys[|keys| - 1];
      assert keys == init + [last];
      WriteOverridesLookup(m, init, e, n, f);
      WriteOverrideLookup(m.values[last], WriteOverrides(m, init, e), n, f);
    }
  }

  /** `constructSearchParams()`: a fresh parameter list. */
  function Construct(st: AlertState): map<string, string>
    requires st.settings.Valid()
  {
    WriteOverrides(st.settings.overrides, st.settings.overrides.keys, map[])
  }

  /** The alert keys `constructSearchParams` writes are exactly the field
      texts of the stored overrides. */
  lemma ConstructLookup(st: AlertState, n: string, f: U.AlertField)
    requires st.settings.Valid() && OverridesNamed(st.settings.overrides)
    ensures Lookup(Construct(st), U.AlertKey(n, f)) ==
      if n in st.settings.overrides.values then FieldText(st.settings.overrides.values[n], f) else None
  {
    WriteOverridesLookup(st.settings.overrides, st.settings.overrides.keys, map[], n, f);
  }

  // ---------------------------------------------------------------------
  // Invariant and round trips

  /** What every operation keeps: valid maps, the same names configured
      and overridden, every entry and medium filed under its own name, and
      well-formed loaded configurations. */
  predicate Consistent(st: AlertState) {
    var s := st.settings;
    s.Valid() && (forall k :: k in s.configs.values ==> k in s.overrides.values) &&
    (forall k :: k in s.overrides.values ==> k in s.configs.values) && OverridesNamed(s.overrides) &&
    st.images.Valid() && st.audios.Valid() && MediaNamed(st.images) && MediaNamed(st.audios) &&
    st.loaded.Valid() && forall k :: k in st.loaded.values ==> st.loaded.values[k].Valid()
  }

  lemma CreateKeepsConsistent(st: AlertState, config: ConfigJson)
    requires Consistent(st) && config.Valid()
    ensures Consistent(Created(st, config))
  {
    var r := Created(st, config);
    var names := config.alerts.keys;
    forall k ensures k in r.settings.configs.values <==> k in r.settings.overrides.values {
      BaseEntriesGet(st.settings.configs, config.alerts, names, r.images, r.audios, k);
      NullOverridesGet(st.settings.overrides, names, k);
    }
    forall k | k in r.settings.overrides.values ensures r.settings.overrides.values[k].name == k {
      NullOverridesGet(st.settings.overrides, names, k);
    }
  }

  lemma DeconstructKeepsConsistent(st: AlertState, params: map<string, string>)
    requires Consistent(st)
    ensures Consistent(Deconstruct(st, params))
  {
    var s := st.settings;
    var r := UrlOverrides(s.overrides, s.configs.keys, params, st.images, st.audios);
    forall k ensures k in r.values <==> k in s.overrides.values {
      assert r.Get(k).Some? <==> (k in s.configs.keys || s.overrides.Get(k).Some?);
    }
    forall k | k in r.values ensures r.values[k].name == k {
      assert r.Get(k).Some?;
    }
  }

  /** Because `deconstructURL` always stores arrays, the next
      `constructSearchParams` writes both media keys of every configured
      alert, empty when the URL named no known medium. */
  lemma DeconstructedWritesBothMediaKeys(st: AlertState, params: map<string, string>, n: string)
    requires Consistent(st) && n in st.settings.configs.values
    ensures var w := Construct(Deconstruct(st, params));
      U.AlertKey(n, U.Images) in w && U.AlertKey(n, U.Audios) in w
  {
    var d := Deconstruct(st, params);
    DeconstructKeepsConsistent(st, params);
    assert d.settings.overrides.Get(n).Some?;
    ConstructLookup(d, n, U.Images);
    ConstructLookup(d, n, U.Audios);
  }

  /** A color written with a leading "#" reads back without it. */
  lemma ColorLosesItsHash(st: AlertState, n: string, c: string)
    requires Consistent(st) && n in st.settings.overrides.values
    requires st.settings.overrides.values[n].color == Val("#" + c)
    ensures ReadOverride(n, Construct(st), st.images, st.audios).color == Val(c)
  {
    ConstructLookup(st, n, U.Color);
    var h := "#" + c;
    assert h[0] == '#';
    assert IndexOf(h, '#') == 0;
    assert h[..0] + h[1..] == c;
    assert Lookup(Construct(st), U.AlertKey(n, U.Color)) == Some(c);
  }

  /** An override survives the trip through the URL: text fields `null` or
      non-empty (the color without "#"), media lists arrays of media the
      current tables hold under comma-free names. */
  predicate Travels(o: AlertEntry, images: JsMap<AlertMedia>, audios: JsMap<AlertMedia>) {
    (o.color.Null? || (Filled(o.color) && '#' !in o.color.value)) &&
    (o.timeout.Null? || Filled(o.timeout)) && (o.animation.Null? || Filled(o.animation)) &&
    o.images.Val? && o.audios.Val? &&
    (forall m :: m in o.images.value ==> m.name in images.values && images.values[m.name] == m && ',' !in m.name) &&
    (forall m :: m in o.audios.value ==> m.name in audios.values && audios.values[m.name] == m && ',' !in m.name)
  }

  /** A list of media written as its comma-joined names reads back as the
      same list; an empty list too, as long as no medium is named "". */
  lemma MediaReadBack(table: JsMap<AlertMedia>, ms: seq<AlertMedia>, text: Option<string>)
    requires "" !in table.values
    requires forall m :: m in ms ==> m.name in table.values && table.values[m.name] == m && ',' !in m.name
    requires text == Some(Join(Names(ms), ','))
    ensures Resolve(table, SplitOrEmpty(text, ',')) == ms
  {
    var names := Names(ms);
    if ms == [] {
      assert Split("", ',') == [""];
      assert Resolve(table, [""]) == Resolve(table, []) + [];
    } else {
      forall i | 0 <= i < |names| ensures ',' !in names[i] {
        assert ms[i] in ms;
      }
      SplitJoin(names, ',');
      ResolveNames(table, ms);
    }
  }

  lemma {:induction false} DeconstructUnchanged(overrides: JsMap<AlertEntry>, names: seq<string>, params: map<string, string>, images: JsMap<AlertMedia>, audios: JsMap<AlertMedia>)
    requires overrides.Valid()
    requires forall k :: k in names ==> k in overrides.values && overrides.values[k] == ReadOverride(k, params, images, audios)
    ensures UrlOverrides(overrides, names, params, images, audios) == overrides
    decreases |names|
  {
    if |names| > 0 {
      var init := names[..|names| - 1];
      var last := names[|names| - 1];
      assert forall k :: k in init ==> k in names;
      DeconstructUnchanged(overrides, init, params, images, audios);
      assert last in names;
      SetUnchanged(overrides, last, ReadOverride(last, params, images, audios));
    }
  }

  /** Deconstructing the constructed parameters gives the same state back
      when every override travels and no medium is named "". */
  lemma RoundTrip(st: AlertState)
    requires Consistent(st)
    requires "" !in st.images.values && "" !in st.audios.values
    requires forall k :: k in st.settings.overrides.values ==> Travels(st.settings.overrides.values[k], st.images, st.audios)
    ensures Deconstruct(st, Construct(st)) == st
  {
    var s := st.settings;
    var w := Construct(st);
    forall k | k in s.configs.keys
      ensures k in s.overrides.values && s.overrides.values[k] == ReadOverride(k, w, st.images, st.audios)
    {
      var o := s.overrides.values[k];
      ConstructLookup(st, k, U.Color);
      ConstructLookup(st, k, U.Timeout);
      ConstructLookup(st, k, U.AnimationName);
      ConstructLookup(st, k, U.Images);
      ConstructLookup(st, k, U.Audios);
      MediaReadBack(st.images, o.images.value, Lookup(w, U.AlertKey(k, U.Images)));
      MediaReadBack(st.audios, o.audios.value, Lookup(w, U.AlertKey(k, U.Audios)));
      var r := ReadOverride(k, w, st.images, st.audios);
      assert r.color == o.color;
      assert r.timeout == o.timeout;
      assert r.animation == o.animation;
    }
    DeconstructUnchanged(s.overrides, s.configs.keys, w, st.images, st.audios);
  }

  // ---------------------------------------------------------------------
  // changeConfig and load

  /** `changeConfig(name)`: an unknown name changes nothing; a loaded one
      clears both maps and both tables and creates its alerts afresh. */
  function Switched(st: AlertState, name: string): (r: AlertState)
    requires Consistent(st)
    ensures name !in st.loaded.values ==> r == st
    ensures r.loaded == st.loaded
  {
    if name !in st.loaded.values then st
    else Created(AlertState(Settings(Empty(), Empty()), Empty(), Empty(), st.loaded), st.loaded.values[name])
  }

  /** After switching to a loaded configuration, exactly its alerts are
      configured, each with its base entry over that configuration's own
      media tables and an all-`null` override: no earlier alert survives. */
  lemma ChangeConfigForgetsEarlierAlerts(st: AlertState, name: string, k: string)
    requires Consistent(st) && name in st.loaded.values
    ensures var r := Switched(st, name);
      var config := st.loaded.values[name];
      && r.images == MediaTable(config.images) && r.audios == MediaTable(config.audios)
      && r.settings.GetConfig(k) == (if k in config.alerts.values then Some(BaseEntry(k, config.alerts.values[k], r.images, r.audios)) else None)
      && r.settings.GetOverride(k) == (if k in config.alerts.values then Some(NullOverride(k)) else None)
  {
    var config := st.loaded.values[name];
    var r := Switched(st, name);
    BaseEntriesGet(Empty(), config.alerts, config.alerts.keys, r.images, r.audios, k);
    NullOverridesGet(Empty(), config.alerts.keys, k);
  }

  lemma ChangeConfigKeepsConsistent(st: AlertState, name: string)
    requires Consistent(st)
    ensures Consistent(Switched(st, name))
  {
    if name in st.loaded.values {
      CreateKeepsConsistent(AlertState(Settings(Empty(), Empty()), Empty(), Empty(), st.loaded), st.loaded.values[name]);
    }
  }

  /** The outcome of `load`: the new state, and whether it threw. */
  datatype LoadResult = LoadResult(state: AlertState, threw: bool)

  /** `load()` with the configurations found beside the page, by name: they
      are stored, and the first one is created. With none, reading the
      first one's tables throws after they were stored. The URL is not
      read. */
  function Loaded(st: AlertState, loaded: JsMap<ConfigJson>): (r: LoadResult)
    requires st.settings.Valid() && loaded.Valid()
    requires forall k :: k in loaded.values ==> loaded.values[k].Valid()
    ensures r.state.loaded == loaded
    ensures r.threw <==> loaded.keys == []
    ensures r.threw ==> r.state.settings == st.settings
  {
    var st' := st.(loaded := loaded);
    if |loaded.keys| == 0 then LoadResult(st', true)
    else LoadResult(Created(st', loaded.values[loaded.keys[0]]), false)
  }

  /** After a load that did not throw, the configured alerts are the first
      configuration's, set over whatever was configured before, and their
      overrides are all `null`. */
  lemma LoadCreatesFirstConfig(st: AlertState, loaded: JsMap<ConfigJson>, k: string)
    requires Consistent(st) && loaded.Valid() && loaded.keys != []
    requires forall k :: k in loaded.values ==> loaded.values[k].Valid()
    ensures var r := Loaded(st, loaded).state;
      var first := loaded.values[loaded.keys[0]];
      && r.settings.GetConfig(k) == (if k in first.alerts.values then Some(BaseEntry(k, first.alerts.values[k], r.images, r.audios)) else st.settings.GetConfig(k))
      && (k in first.alerts.values ==> r.settings.GetOverride(k) == Some(NullOverride(k)))
  {
    var first := loaded.values[loaded.keys[0]];
    var r := Loaded(st, loaded).state;
    BaseEntriesGet(st.settings.configs, first.alerts, first.alerts.keys, r.images, r.audios, k);
    NullOverridesGet(st.settings.overrides, first.alerts.keys, k);
  }

  // ---------------------------------------------------------------------
  // The class

  /** The singleton `AlertManager`. `images`, `audios` and `loadedConfigs`
      have no initial value: the tables are `undefined` until
      `createConfigs` first runs, and the configurations until `load`
      runs. The two flags say which have been assigned; the getters that
      read an `undefined` one throw. */
  class AlertManager {
    var settings: Settings<AlertEntry>
    var images: JsMap<AlertMedia>
    var audios: JsMap<AlertMedia>
    var loadedConfigs: JsMap<ConfigJson>
    var mediaAssigned: bool
    var configsAssigned: bool

    function State(): AlertState
      reads this
    {
      AlertState(settings, images, audios, loadedConfigs)
    }

    /** `Consistent`, and before the tables are first assigned no alert is
        configured: `createConfigs` is the only writer of the maps. */
    ghost predicate Valid()
      reads this
    {
      && Consistent(State())
      && (!mediaAssigned ==> settings == Settings(Empty(), Empty()) && images == Empty() && audios == Empty())
      && (!configsAssigned ==> loadedConfigs == Empty())
    }

    constructor ()
      ensures Valid() && !mediaAssigned && !configsAssigned
      ensures State() == AlertState(Settings(Empty(), Empty()), Empty(), Empty(), Empty())
    {
      settings := Settings(Empty(), Empty());
      images := Empty();
      audios := Empty();
      loadedConfigs := Empty();
      mediaAssigned := false;
      configsAssigned := false;
    }

    /** The alerts loop of `createConfigs`. */
    static method CreateEntries(configs: JsMap<AlertEntry>, overrides: JsMap<AlertEntry>, alerts: JsMap<AlertJson>, images: JsMap<AlertMedia>, audios: JsMap<AlertMedia>)
      returns (configs': JsMap<AlertEntry>, overrides': JsMap<AlertEntry>)
      requires configs.Valid() && overrides.Valid() && alerts.Valid()
      ensures configs' == BaseEntries(configs, alerts, alerts.keys, images, audios)
      ensures overrides' == NullOverrides(overrides, alerts.keys)
    {
      configs', overrides' := configs, overrides;
      var keys := alerts.keys;
      for i := 0 to |keys|
        invariant configs' == BaseEntries(configs, alerts, keys[..i], images, audios)
        invariant overrides' == NullOverrides(overrides, keys[..i])
      {
        CreatedStep(configs, overrides, alerts, keys, images, audios, i);
        var name := keys[i];
        configs' := configs'.Set(name, BaseEntry(name, alerts.values[name], images, audios));
        overrides' := overrides'.Set(name, NullOverride(name));
      }
      assert keys[..|keys|] == keys;
    }

    method CreateConfigs(config: ConfigJson)
      requires Valid() && config.Valid()
      modifies this
      ensures Valid() && State() == Created(old(State()), config)
      ensures mediaAssigned && configsAssigned == old(configsAssigned)
    {
      CreateKeepsConsistent(State(), config);
      images := MediaTable(config.images);
      audios := MediaTable(config.audios);
      mediaAssigned := true;
      var configs, overrides := CreateEntries(settings.configs, settings.overrides, config.alerts, images, audios);
      settings := Settings(configs, overrides);
    }

    /** `getParamList(params, key)` */
    static method GetParamList(params: UrlSearchParams, key: string) returns (r: seq<string>)
      ensures r == ParamList(params.entries, key)
    {
      var text := params.Get(key);
      r := if text.Some? then Split(text.value, ',') else [];
    }

    /** The media loop of `deconstructURL`: look each name up and skip the
        misses. */
    static method CollectMedia(table: JsMap<AlertMedia>, names: seq<string>) returns (r: seq<AlertMedia>)
      ensures r == Resolve(table, names)
    {
      r := [];
      for i := 0 to |names|
        invariant r == Resolve(table, names[..i])
      {
        assert names[..i + 1][..i] == names[..i];
        var medium := table.Get(names[i]);
        if medium.None? {
          continue;
        }
        r := r + [medium.value];
      }
      assert names[..|names|] == names;
    }

    /** The alerts loop of `deconstructURL`. */
    static method ReadOverrides(overrides: JsMap<AlertEntry>, names: seq<string>, params: UrlSearchParams, images: JsMap<AlertMedia>, audios: JsMap<AlertMedia>)
      returns (r: JsMap<AlertEntry>)
      requires overrides.Valid()
      ensures r == UrlOverrides(overrides, names, params.entries, images, audios)
    {
      r := overrides;
      for i := 0 to |names|
        invariant r == UrlOverrides(overrides, names[..i], params.entries, images, audios)
      {
        assert names[..i + 1][..i] == names[..i];
        var name := names[i];
        var color := params.Get(U.AlertKey(name, U.Color));
        var timeout := params.Get(U.AlertKey(name, U.Timeout));
        var animation := params.Get(U.AlertKey(name, U.AnimationName));
        var audioNames := GetParamList(params, U.AlertKey(name, U.Audios));
        var audioList := CollectMedia(audios, audioNames);
        var imageNames := GetParamList(params, U.AlertKey(name, U.Images));
        var imageList := CollectMedia(images, imageNames);
        r := r.Set(name, AlertEntry(name, FromGet(color), Val(audioList), Val(imageList), FromGet(timeout), FromGet(animation)));
      }
      assert names[..|names|] == names;
    }

    /** `deconstructURL(url)`, with the URL's parameters given. The media
        tables are read only for configured alerts, so before they are
        assigned there is nothing to read and nothing changes. */
    method DeconstructUrl(params: UrlSearchParams)
      requires Valid()
      modifies this
      ensures Valid() && State() == Deconstruct(old(State()), params.entries)
      ensures mediaAssigned == old(mediaAssigned) && configsAssigned == old(configsAssigned)
      ensures !mediaAssigned ==> State() == old(State())
    {
      ghost var d := Deconstruct(State(), params.entries);
      DeconstructKeepsConsistent(State(), params.entries);
      var overrides := ReadOverrides(settings.overrides, settings.configs.keys, params, images, audios);
      settings := Settings(settings.configs, overrides);
      assert State() == d;
    }

    /** The body of the loop of `constructSearchParams` for one override. */
    static method WriteOne(o: AlertEntry, e: map<string, string>) returns (r: map<string, string>)
      ensures r == WriteOverride(o, e)
    {
      WriteOverrideUnfolded(o, e);
      r := e;
      if Filled(o.color) {
        r := r[U.AlertKey(o.name, U.Color) := RemoveFirst(o.color.value, '#')];
      }
      if Filled(o.timeout) {
        r := r[U.AlertKey(o.name, U.Timeout) := o.timeout.value];
      }
      if Filled(o.animation) {
        r := r[U.AlertKey(o.name, U.AnimationName) := o.animation.value];
      }
      if o.images.Val? {
        r := r[U.AlertKey(o.name, U.Images) := Join(Names(o.images.value), ',')];
      }
      if o.audios.Val? {
        r := r[U.AlertKey(o.name, U.Audios) := Join(Names(o.audios.value), ',')];
      }
    }

    method ConstructSearchParams() returns (params: UrlSearchParams)
      requires Valid()
      ensures fresh(params) && params.entries == Construct(State())
    {
      params := new UrlSearchParams();
      var overrides := settings.overrides;
      var keys := overrides.keys;
      for i := 0 to |keys|
        invariant params.entries == WriteOverrides(overrides, keys[..i], map[])
      {
        assert keys[..i + 1][..i] == keys[..i];
        params.entries := WriteOne(overrides.values[keys[i]], params.entries);
      }
      assert keys[..|keys|] == keys;
    }

    /** `changeConfig(name)`; `threw` reports the read of `loadedConfigs`
        before any `load`. */
    method ChangeConfig(name: string) returns (threw: bool)
      requires Valid()
      modifies this
      ensures Valid() && configsAssigned == old(configsAssigned)
      ensures threw <==> !old(configsAssigned)
      ensures threw ==> State() == old(State()) && mediaAssigned == old(mediaAssigned)
      ensures !threw ==> State() == Switched(old(State()), name)
      ensures !threw ==> mediaAssigned == (old(mediaAssigned) || name in loadedConfigs.values)
    {
      if !configsAssigned {
        return true;
      }
      threw := false;
      ChangeConfigKeepsConsistent(State(), name);
      var config := loadedConfigs.Get(name);
      if config.None? {
        return;
      }
      settings := Settings(Empty(), Empty());
      images := Empty();
      audios := Empty();
      CreateConfigs(config.value);
    }

    /** `load()`, with the configurations found beside the page given by
        name; `threw` reports the failure with none, which leaves the
        tables as they were. */
    method Load(loaded: JsMap<ConfigJson>) returns (threw: bool)
      requires Valid() && loaded.Valid()
      requires forall k :: k in loaded.values ==> loaded.values[k].Valid()
      modifies this
      ensures Valid() && State() == Loaded(old(State()), loaded).state && threw == Loaded(old(State()), loaded).threw
      ensures configsAssigned && mediaAssigned == (old(mediaAssigned) || !threw)
    {
      loadedConfigs := loaded;
      configsAssigned := true;
      if |loaded.keys| == 0 {
        return true;
      }
      CreateConfigs(loaded.values[loaded.keys[0]]);
      threw := false;
    }

    method GetAlert(name: string) returns (r: Option<AlertEntry>)
      ensures r == settings.GetConfig(name)
    {
      r := settings.configs.Get(name);
    }

    method GetAlerts() returns (r: seq<AlertEntry>)
      requires Valid()
      ensures r == settings.GetConfigs()
    {
      r := settings.configs.Values();
    }

    /** `getAudio(name)`: indexing the `undefined` table throws. */
    method GetAudio(name: string) returns (threw: bool, r: Option<AlertMedia>)
      requires Valid()
      ensures threw <==> !mediaAssigned
      ensures !threw ==> (r.Some? <==> name in audios.values)
      ensures !threw && r.Some? ==> r.value == audios.values[name] && r.value.name == name
    {
      if !mediaAssigned {
        return true, None;
      }
      threw := false;
      r := audios.Get(name);
    }

    /** `getAudios()`: `Object.values` of the `undefined` table throws. */
    method GetAudios() returns (threw: bool, r: seq<AlertMedia>)
      requires Valid()
      ensures threw <==> !mediaAssigned
      ensures !threw ==> |r| == |audios.keys| && forall i :: 0 <= i < |r| ==> r[i] == audios.values[audios.keys[i]]
    {
      if !mediaAssigned {
        return true, [];
      }
      threw := false;
      r := audios.Values();
    }

    /** `getImage(name)`: indexing the `undefined` table throws. */
    method GetImage(name: string) returns (threw: bool, r: Option<AlertMedia>)
      requires Valid()
      ensures threw <==> !mediaAssigned
      ensures !threw ==> (r.Some? <==> name in images.values)
      ensures !threw && r.Some? ==> r.value == images.values[name] && r.value.name == name
    {
      if !mediaAssigned {
        return true, None;
      }
      threw := false;
      r := images.Get(name);
    }

    /** `getImages()`: `Object.values` of the `undefined` table throws. */
    method GetImages() returns (threw: bool, r: seq<AlertMedia>)
      requires Valid()
      ensures threw <==> !mediaAssigned
      ensures !threw ==> |r| == |images.keys| && forall i :: 0 <= i < |r| ==> r[i] == images.values[images.keys[i]]
    {
      if !mediaAssigned {
        return true, [];
      }
      threw := false;
      r := images.Values();
    }

    /** `getLoadedConfigs()`: `Object.keys` of the `undefined` record throws
        before any `load`. */
    method GetLoadedConfigs() returns (threw: bool, r: seq<string>)
      requires Valid()
      ensures threw <==> !configsAssigned
      ensures !threw ==> r == loadedConfigs.keys && forall k :: k in loadedConfigs.values <==> k in r
    {
      if !configsAssigned {
        return true, [];
      }
      threw := false;
      r := loadedConfigs.keys;
    }
  }
}
