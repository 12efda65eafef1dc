/** The alert store of `src/lib/alert.ts`: two maps keyed by alert name,
    one holding each alert's base configuration from the bundled alert
    list, the other its override. An alert is read as its override laid
    over its base, and overrides travel in URL parameters. */
module LibAlert {
  import opened Js
  import opened Strings
  import opened JsValues
  import opened JsMaps
  import opened SearchParams
  import opened ValueEquality
  import opened SearchParamHelpers
  import opened AlertOverrides

  datatype AlertInstance = AlertInstance(
    name: string,
    timeout: int,
    translations: map<string, string>,
    audioReferences: seq<string>,
    imageReferences: seq<string>,
    animation: AnimationConfig)
  {
    function Base(): Overridable {
      Overridable(timeout, audioReferences, imageReferences, animation)
    }
  }

  /** One entry of the bundled alert list. */
  datatype AlertEntry = AlertEntry(
    timeout: int,
    translations: map<string, string>,
    audioReferences: seq<string>,
    imageReferences: seq<string>,
    animation: AnimationConfig)

  function Instance(name: string, e: AlertEntry): AlertInstance {
    AlertInstance(name, e.timeout, e.translations, e.audioReferences, e.imageReferences, e.animation)
  }

  /** The base entries `initializeAlerts` sets, in list order. */
  function ConfigEntries(entries: seq<(string, AlertEntry)>): (r: seq<(string, AlertInstance)>)
    ensures |r| == |entries|
    ensures forall i :: 0 <= i < |entries| ==> r[i] == (entries[i].0, Instance(entries[i].0, entries[i].1))
  {
    seq(|entries|, i requires 0 <= i < |entries| => (entries[i].0, Instance(entries[i].0, entries[i].1)))
  }

  /** The blank overrides `initializeAlerts` sets, in list order. */
  function BlankEntries(entries: seq<(string, AlertEntry)>): (r: seq<(string, AlertOverride)>)
    ensures |r| == |entries|
    ensures forall i :: 0 <= i < |entries| ==> r[i] == (entries[i].0, BlankOverride())
  {
    seq(|entries|, i requires 0 <= i < |entries| => (entries[i].0, BlankOverride()))
  }

  /** The override `setAlertOverride` stores: the given keys spread over
      the stored override, the animation merged one level deeper. */
  function Merge(o: AlertOverride, p: AlertPatch): (r: AlertOverride)
    ensures p.timeout.Some? ==> r.timeout == p.timeout.value
    ensures p.timeout.None? ==> r.timeout == o.timeout
    ensures p.audioReferences.Some? ==> r.audioReferences == p.audioReferences.value
    ensures p.audioReferences.None? ==> r.audioReferences == o.audioReferences
    ensures p.imageReferences.Some? ==> r.imageReferences == p.imageReferences.value
    ensures p.imageReferences.None? ==> r.imageReferences == o.imageReferences
    ensures p.animation.None? ==> r.animation == o.animation
    ensures p.animation.Some? ==>
      (p.animation.value.reference.Some? ==> r.animation.reference == p.animation.value.reference.value) &&
      (p.animation.value.reference.None? ==> r.animation.reference == o.animation.reference) &&
      (p.animation.value.duration.Some? ==> r.animation.duration == p.animation.value.duration.value) &&
      (p.animation.value.duration.None? ==> r.animation.duration == o.animation.duration) &&
      (p.animation.value.iterations.Some? ==> r.animation.iterations == p.animation.value.iterations.value) &&
      (p.animation.value.iterations.None? ==> r.animation.iterations == o.animation.iterations) &&
      (p.animation.value.timing.Some? ==> r.animation.timing == p.animation.value.timing.value) &&
      (p.animation.value.timing.None? ==> r.animation.timing == o.animation.timing)
  {
    var anim :=
      if p.animation.None? then o.animation
      else
        var a := p.animation.value;
        AnimationOverride(
          if a.reference.Some? then a.reference.value else o.animation.reference,
          if a.duration.Some? then a.duration.value else o.animation.duration,
          if a.iterations.Some? then a.iterations.value else o.animation.iterations,
          if a.timing.Some? then a.timing.value else o.animation.timing);
    AlertOverride(
      if p.timeout.Some? then p.timeout.value else o.timeout,
      if p.audioReferences.Some? then p.audioReferences.value else o.audioReferences,
      if p.imageReferences.Some? then p.imageReferences.value else o.imageReferences,
      anim)
  }

  /** Merging the same patch twice is merging it once, and an empty patch
      changes nothing. */
  lemma MergeIdempotent(o: AlertOverride, p: AlertPatch)
    ensures Merge(Merge(o, p), p) == Merge(o, p)
    ensures Merge(o, AlertPatch(None, None, None, None)) == o
  {
  }

  // ---------------------------------------------------------------------
  // Writing overrides into URL parameters

  /** The alternatives an override value is compared with: `[undefined,
      base]`. */
  function Alts(b: Overridable, f: Field): JsValue {
    Arr([UndefinedValue, BaseValue(b, f)])
  }

  /** One `addIfNoMatch` of `constructAlertParams`. */
  function Step(e: map<string, string>, name: string, o: AlertOverride, b: Overridable, f: Field): map<string, string> {
    WithIfNoMatch(e, Key(name, f), Value(o, f), Alts(b, f))
  }

  /** What a key holds after its `addIfNoMatch`, given what it held
      before. */
  function EncodedOver(before: Option<string>, o: AlertOverride, b: Overridable, f: Field): Option<string> {
    if Matches(Value(o, f), Alts(b, f)) then before else Some(ToText(Value(o, f)))
  }

  lemma StepLookup(e: map<string, string>, name: string, o: AlertOverride, b: Overridable, f: Field, k: string)
    ensures Lookup(Step(e, name, o, b, f), k) ==
      if k == Key(name, f) then EncodedOver(Lookup(e, k), o, b, f) else Lookup(e, k)
  {
  }

  /** Each field's value and alternatives, spelled out as the source
      passes them. */
  lemma SpelledValues(o: AlertOverride, b: Overridable)
    ensures Value(o, Timeout) == NumSlot(o.timeout) && Alts(b, Timeout) == Arr([UndefinedValue, Num(b.timeout)])
    ensures Value(o, Audio) == ListSlot(o.audioReferences) && Alts(b, Audio) == Arr([UndefinedValue, StrList(b.audioReferences)])
    ensures Value(o, Image) == ListSlot(o.imageReferences) && Alts(b, Image) == Arr([UndefinedValue, StrList(b.imageReferences)])
    ensures Value(o, Anim) == StrSlot(o.animation.reference) && Alts(b, Anim) == Arr([UndefinedValue, Str(b.animation.reference)])
    ensures Value(o, AnimDuration) == NumSlot(o.animation.duration) && Alts(b, AnimDuration) == Arr([UndefinedValue, Num(b.animation.duration)])
    ensures Value(o, AnimIterations) == NumSlot(o.animation.iterations) && Alts(b, AnimIterations) == Arr([UndefinedValue, Num(b.animation.iterations)])
    ensures Value(o, AnimTiming) == StrSlot(o.animation.timing) && Alts(b, AnimTiming) == Arr([UndefinedValue, Str(b.animation.timing)])
  {
  }

  /** The seven writes for one alert, in the order of the source. */
  function EncodeOne(e: map<string, string>, name: string, o: AlertOverride, b: Overridable): map<string, string> {
    var e1 := Step(e, name, o, b, Timeout);
    var e2 := Step(e1, name, o, b, Audio);
    var e3 := Step(e2, name, o, b, Image);
    var e4 := Step(e3, name, o, b, Anim);
    var e5 := Step(e4, name, o, b, AnimDuration);
    var e6 := Step(e5, name, o, b, AnimIterations);
    Step(e6, name, o, b, AnimTiming)
  }

  /** Under each of the alert's keys, its own write decides. */
  lemma EncodeOneAt(e: map<string, string>, name: string, o: AlertOverride, b: Overridable, f: Field)
    ensures Lookup(EncodeOne(e, name, o, b), Key(name, f)) == EncodedOver(Lookup(e, Key(name, f)), o, b, f)
  {
    var k := Key(name, f);
    forall g | g != f
      ensures Key(name, g) != k
    {
      if Key(name, g) == k {
        KeyInjective(name, g, name, f);
      }
    }
    var e1 := Step(e, name, o, b, Timeout);
    var e2 := Step(e1, name, o, b, Audio);
    var e3 := Step(e2, name, o, b, Image);
    var e4 := Step(e3, name, o, b, Anim);
    var e5 := Step(e4, name, o, b, AnimDuration);
    var e6 := Step(e5, name, o, b, AnimIterations);
    StepLookup(e, name, o, b, Timeout, k);
    StepLookup(e1, name, o, b, Audio, k);
    StepLookup(e2, name, o, b, Image, k);
    StepLookup(e3, name, o, b, Anim, k);
    StepLookup(e4, name, o, b, AnimDuration, k);
    StepLookup(e5, name, o, b, AnimIterations, k);
    StepLookup(e6, name, o, b, AnimTiming, k);
  }

  /** Keys that are not the alert's own are left alone. */
  lemma EncodeOneElsewhere(e: map<string, string>, name: string, o: AlertOverride, b: Overridable, k: string)
    requires forall g :: k != Key(name, g)
    ensures Lookup(EncodeOne(e, name, o, b), k) == Lookup(e, k)
  {
    var e1 := Step(e, name, o, b, Timeout);
    var e2 := Step(e1, name, o, b, Audio);
    var e3 := Step(e2, name, o, b, Image);
    var e4 := Step(e3, name, o, b, Anim);
    var e5 := Step(e4, name, o, b, AnimDuration);
    var e6 := Step(e5, name, o, b, AnimIterations);
    StepLookup(e, name, o, b, Timeout, k);
    StepLookup(e1, name, o, b, Audio, k);
    StepLookup(e2, name, o, b, Image, k);
    StepLookup(e3, name, o, b, Anim, k);
    StepLookup(e4, name, o, b, AnimDuration, k);
    StepLookup(e5, name, o, b, AnimIterations, k);
    StepLookup(e6, name, o, b, AnimTiming, k);
  }

  /** Into a key that held nothing, `addIfNoMatch` with `[undefined, base]`
      writes exactly what the reference rule writes: a value that is set
      and differs from the base, as text, lists comma-joined. */
  lemma EncodedIsDiffering(o: AlertOverride, b: Overridable, f: Field)
    ensures EncodedOver(None, o, b, f) == Differing(o, b, f)
  {
    MatchesUnsetOrBase(Value(o, f), BaseValue(b, f));
    assert Alts(b, f) == Arr([UndefinedValue, BaseValue(b, f)]);
    match f
    case Audio =>
      if o.audioReferences.Val? {
        ArraysCompareInOrder(o.audioReferences.value, b.audioReferences);
        StrListText(o.audioReferences.value);
      }
    case Image =>
      if o.imageReferences.Val? {
        ArraysCompareInOrder(o.imageReferences.value, b.imageReferences);
        StrListText(o.imageReferences.value);
      }
    case _ =>
  }

  // ---------------------------------------------------------------------
  // The store

  datatype Store = Store(configs: JsMap<AlertInstance>, overrides: JsMap<AlertOverride>) {
    predicate Valid() {
      configs.Valid() && overrides.Valid()
    }

    /** `initializeAlerts()`: each entry of the list sets its base and a
        blank override. */
    function Initialize(entries: seq<(string, AlertEntry)>): (r: Store)
      requires Valid()
      ensures r.Valid()
      ensures forall n :: n in r.configs.values <==> n in configs.values || n in EntryKeys(entries)
      ensures forall n :: n in r.overrides.values <==> n in overrides.values || n in EntryKeys(entries)
    {
      ConfigEntriesKeys(entries);
      BlankEntriesKeys(entries);
      Store(SetAll(configs, ConfigEntries(entries)), SetAll(overrides, BlankEntries(entries)))
    }

    /** `getAlert(name)`: `null` without a base; otherwise the base with
        the override laid over it field by field. */
    function GetAlert(name: string): (r: Option<AlertInstance>)
      ensures r.None? <==> name !in configs.values
      ensures r.Some? ==> r.value.name == name && r.value.translations == configs.values[name].translations
      ensures r.Some? ==> r.value.Base() == Resolve(overrides.Get(name), configs.values[name].Base())
    {
      match configs.Get(name)
      case None => None
      case Some(c) =>
        var v := Resolve(overrides.Get(name), c.Base());
        Some(AlertInstance(name, v.timeout, c.translations, v.audioReferences, v.imageReferences, v.animation))
    }

    /** `getAlerts()`: every configured alert, in configuration order. */
    function GetAlerts(): (r: seq<AlertInstance>)
      requires Valid()
      ensures |r| == |configs.keys|
      ensures forall i :: 0 <= i < |configs.keys| ==> GetAlert(configs.keys[i]) == Some(r[i])
    {
      seq(|configs.keys|, i requires 0 <= i < |configs.keys| => GetAlert(configs.keys[i]).value)
    }

    /** `setAlertOverride(name, values)`: nothing for a name without an
        override; otherwise the merged override. */
    function SetAlertOverride(name: string, p: AlertPatch): (r: Store)
      requires Valid()
      ensures r.Valid() && r.configs == configs
      ensures name !in overrides.values ==> r == this
      ensures name in overrides.values ==> r.overrides.Get(name) == Some(Merge(overrides.values[name], p))
      ensures forall n :: n != name ==> r.overrides.Get(n) == overrides.Get(n)
    {
      match overrides.Get(name)
      case None => this
      case Some(o) => this.(overrides := overrides.Set(name, Merge(o, p)))
    }

    /** The overrides `deconstructAlertParams` sets, in configuration
        order. */
    function DecodedEntries(params: map<string, string>): (r: seq<(string, AlertOverride)>)
      requires Valid()
      ensures EntryKeys(r) == configs.keys
      ensures forall i :: 0 <= i < |r| ==> r[i].1 == Decode(r[i].0, configs.values[r[i].0].Base(), params)
    {
      var r := seq(|configs.keys|, i requires 0 <= i < |configs.keys| =>
        (configs.keys[i], Decode(configs.keys[i], configs.values[configs.keys[i]].Base(), params)));
      assert EntryKeys(r) == configs.keys;
      r
    }

    /** `deconstructAlertParams(params)`: every configured alert's override
        is replaced by the one read from the parameters. */
    function DeconstructAlertParams(params: map<string, string>): (r: Store)
      requires Valid()
      ensures r.Valid() && r.configs == configs
    {
      this.(overrides := SetAll(overrides, DecodedEntries(params)))
    }

    /** `constructAlertParams` over the first names of the override map. */
    function ConstructNames(e: map<string, string>, names: seq<string>): map<string, string>
      decreases |names|
    {
      if |names| == 0 then e
      else
        var prev := ConstructNames(e, names[..|names| - 1]);
        var name := names[|names| - 1];
        match (overrides.Get(name), configs.Get(name))
        case (Some(o), Some(c)) => EncodeOne(prev, name, o, c.Base())
        case _ => prev
    }

    /** `constructAlertParams(params)`: every override with a base writes
        its fields. */
    function ConstructAlertParams(e: map<string, string>): map<string, string> {
      ConstructNames(e, overrides.keys)
    }
  }

  /** The store before anything is loaded. */
  function EmptyStore(): (s: Store)
    ensures s.Valid()
  {
    Store(Empty(), Empty())
  }

  /** `reload()`: both maps cleared, then initialised. */
  function Reloaded(entries: seq<(string, AlertEntry)>): (s: Store)
    ensures s.Valid()
  {
    EmptyStore().Initialize(entries)
  }

  lemma {:induction false} SetAllSameValue<V>(m: JsMap<V>, entries: seq<(string, V)>, v: V)
    requires m.Valid()
    requires forall k :: k in m.values ==> m.values[k] == v
    requires forall i :: 0 <= i < |entries| ==> entries[i].1 == v
    ensures forall k :: k in SetAll(m, entries).values ==> SetAll(m, entries).values[k] == v
    decreases |entries|
  {
    if |entries| > 0 {
      SetAllSameValue(m, entries[..|entries| - 1], v);
    }
  }

  /** After `reload` the names are exactly those of the list, earlier names
      are gone, every override is blank, and every alert reads as its
      base. */
  lemma ReloadGivesBlankOverrides(entries: seq<(string, AlertEntry)>, name: string)
    ensures var s := Reloaded(entries);
      (name in s.configs.values <==> name in EntryKeys(entries)) &&
      (name in s.overrides.values <==> name in EntryKeys(entries)) &&
      (name in s.overrides.values ==> s.overrides.values[name] == BlankOverride()) &&
      (name in s.configs.values ==> s.GetAlert(name).value.Base() == s.configs.values[name].Base())
  {
    SetAllSameValue(Empty<AlertOverride>(), BlankEntries(entries), BlankOverride());
    var s := Reloaded(entries);
    if name in s.configs.values {
      BlankResolvesToBase(s.configs.values[name].Base());
    }
  }

  /** With distinct names in the list, each alert's base is its own entry. */
  lemma ReloadKeepsEntries(entries: seq<(string, AlertEntry)>, i: nat)
    requires i < |entries|
    requires forall j, k :: 0 <= j < k < |entries| ==> entries[j].0 != entries[k].0
    ensures Reloaded(entries).configs.Get(entries[i].0) == Some(Instance(entries[i].0, entries[i].1))
    ensures Reloaded(entries).configs.keys == EntryKeys(entries)
  {
    var ce := ConfigEntries(entries);
    ConfigEntriesKeys(entries);
    SetAllLast(Empty<AlertInstance>(), ce, i);
    SetAllDistinctKeys(ce);
    assert Reloaded(entries).configs == SetAll(Empty(), ce);
  }

  /** The blank overrides carry the names of the list. */
  lemma BlankEntriesKeys(entries: seq<(string, AlertEntry)>)
    ensures EntryKeys(BlankEntries(entries)) == EntryKeys(entries)
  {
  }

  /** The configuration entries carry the names of the list. */
  lemma ConfigEntriesKeys(entries: seq<(string, AlertEntry)>)
    ensures EntryKeys(ConfigEntries(entries)) == EntryKeys(entries)
    ensures forall j :: 0 <= j < |entries| ==> ConfigEntries(entries)[j].0 == entries[j].0
  {
  }

  /** `getAlert` resolves each field on its own: an override that sets only
      the timeout changes only the timeout. */
  lemma OverrideTimeoutOnly(s: Store, name: string, t: int)
    requires s.Valid() && name in s.configs.values && name in s.overrides.values
    requires s.overrides.values[name] == BlankOverride()
    ensures var r := s.SetAlertOverride(name, AlertPatch(Some(Val(t)), None, None, None));
      r.GetAlert(name) == Some(s.GetAlert(name).value.(timeout := t))
  {
    BlankResolvesToBase(s.configs.values[name].Base());
  }

  /** The lookup of a key after the writes of the first names. */
  lemma {:induction false} ConstructNamesLookup(s: Store, e: map<string, string>, names: seq<string>, name: string, f: Field)
    requires forall i, j :: 0 <= i < j < |names| ==> names[i] != names[j]
    ensures Lookup(s.ConstructNames(e, names), Key(name, f)) ==
      if name in names && name in s.overrides.values && name in s.configs.values
      then EncodedOver(Lookup(e, Key(name, f)), s.overrides.values[name], s.configs.values[name].Base(), f)
      else Lookup(e, Key(name, f))
    decreases |names|
  {
    if |names| > 0 {
      var init := names[..|names| - 1];
      var last := names[|names| - 1];
      DistinctSnoc(names);
      ConstructNamesLookup(s, e, init, name, f);
      var prev := s.ConstructNames(e, init);
      if s.overrides.Get(last).Some? && s.configs.Get(last).Some? {
        var o := s.overrides.values[last];
        var b := s.configs.values[last].Base();
        if last == name {
          EncodeOneAt(prev, name, o, b, f);
        } else {
          KeysOfOtherName(name, f, last);
          EncodeOneElsewhere(prev, last, o, b, Key(name, f));
        }
      }
    }
  }

  /** After `deconstructAlertParams`, a configured alert's override is the
      one read from the parameters; the others are untouched. */
  lemma DeconstructSetsDecoded(s: Store, params: map<string, string>, name: string)
    requires s.Valid()
    ensures name in s.configs.values ==>
      s.DeconstructAlertParams(params).overrides.Get(name) ==
        Some(Decode(name, s.configs.values[name].Base(), params))
    ensures name !in s.configs.values ==>
      s.DeconstructAlertParams(params).overrides.Get(name) == s.overrides.Get(name)
  {
    var d := s.DecodedEntries(params);
    if name in s.configs.values {
      var i :| 0 <= i < |s.configs.keys| && s.configs.keys[i] == name;
      assert d[i].0 == name;
      forall j | i < j < |d| ensures d[j].0 != d[i].0 {
        assert s.configs.keys[i] != s.configs.keys[j];
      }
      SetAllLast(s.overrides, d, i);
    } else {
      SetAllUntouched(s.overrides, d, name);
    }
  }

  /** Round trip: the parameters `constructAlertParams` writes, read back by
      `deconstructAlertParams` into any store with the same bases (a freshly
      reloaded one, say), give every alert as it was, as long as the media
      lists an override gives are non-empty and free of commas, and the
      parameters held no alert key before. */
  lemma ConstructDeconstructRoundTrip(s: Store, r: Store, e: map<string, string>, name: string)
    requires s.Valid() && r.Valid() && r.configs == s.configs
    requires forall n :: n in s.overrides.values ==> ListsTravel(s.overrides.values[n])
    requires forall n, f :: n in s.configs.values ==> Key(n, f) !in e
    ensures r.DeconstructAlertParams(s.ConstructAlertParams(e)).GetAlert(name) == s.GetAlert(name)
  {
    var params := s.ConstructAlertParams(e);
    DeconstructSetsDecoded(r, params, name);
    if name in s.configs.values {
      var b := s.configs.values[name].Base();
      forall f ensures Lookup(params, Key(name, f)) == if name in s.overrides.values then Differing(s.overrides.values[name], b, f) else None {
        ConstructNamesLookup(s, e, s.overrides.keys, name, f);
        assert Key(name, f) !in e;
        if name in s.overrides.values {
          EncodedIsDiffering(s.overrides.values[name], b, f);
        }
      }
      if name in s.overrides.values {
        DecodeDiffering(name, s.overrides.values[name], b, params);
      } else {
        DecodeNothing(name, b, params);
      }
    }
  }

  /** The module-level maps of `src/lib/alert.ts`. */
  class AlertStore {
    var configs: JsMap<AlertInstance>
    var overrides: JsMap<AlertOverride>

    function State(): Store
      reads this
    {
      Store(configs, overrides)
    }

    ghost predicate Valid()
      reads this
    {
      State().Valid()
    }

    /** The maps as `initializeAlerts` leaves them at module load. */
    constructor (entries: seq<(string, AlertEntry)>)
      ensures Valid() && State() == Reloaded(entries)
    {
      configs := Empty();
      overrides := Empty();
      new;
      Initialize(entries);
    }

    method Initialize(entries: seq<(string, AlertEntry)>)
      requires Valid()
      modifies this
      ensures Valid() && State() == old(State()).Initialize(entries)
    {
      ghost var c0, o0 := configs, overrides;
      var cs, os := configs, overrides;
      var i := 0;
      while i < |entries|
        invariant 0 <= i <= |entries|
        invariant cs == SetAll(c0, ConfigEntries(entries[..i]))
        invariant os == SetAll(o0, BlankEntries(entries[..i]))
      {
        var (name, entry) := entries[i];
        InitializeStep(c0, o0, entries, i);
        cs := cs.Set(name, Instance(name, entry));
        os := os.Set(name, BlankOverride());
        i := i + 1;
      }
      assert entries[..i] == entries;
      configs, overrides := cs, os;
    }

    /** One more entry of the loop of `initializeAlerts`: its base and a
        blank override set. */
    static lemma InitializeStep(c0: JsMap<AlertInstance>, o0: JsMap<AlertOverride>, entries: seq<(string, AlertEntry)>, i: nat)
      requires c0.Valid() && o0.Valid() && i < |entries|
      ensures SetAll(c0, ConfigEntries(entries[..i + 1])) ==
        SetAll(c0, ConfigEntries(entries[..i])).Set(entries[i].0, Instance(entries[i].0, entries[i].1))
      ensures SetAll(o0, BlankEntries(entries[..i + 1])) ==
        SetAll(o0, BlankEntries(entries[..i])).Set(entries[i].0, BlankOverride())
    {
      assert ConfigEntries(entries[..i + 1])[..i] == ConfigEntries(entries[..i]);
      assert BlankEntries(entries[..i + 1])[..i] == BlankEntries(entries[..i]);
    }

    method Reload(entries: seq<(string, AlertEntry)>)
      modifies this
      ensures Valid() && State() == Reloaded(entries)
    {
      configs := Empty();
      overrides := Empty();
      Initialize(entries);
    }

    method DeconstructAlertParams(params: UrlSearchParams)
      requires Valid()
      modifies this
      ensures Valid() && State() == old(State()).DeconstructAlertParams(params.entries)
    {
      ghost var decoded := State().DecodedEntries(params.entries);
      ghost var start := overrides;
      var names := configs.keys;
      var i := 0;
      while i < |names|
        invariant 0 <= i <= |names| && configs == old(configs)
        invariant overrides == SetAll(start, decoded[..i])
      {
        var name := names[i];
        var o := Decode(name, configs.values[name].Base(), params.entries);
        assert decoded[i] == (name, o);
        SetAllPrefix(start, decoded, i);
        overrides := overrides.Set(name, o);
        i := i + 1;
      }
      assert decoded[..i] == decoded;
    }

    method ConstructAlertParams(params: UrlSearchParams)
      modifies params
      ensures params.entries == State().ConstructAlertParams(old(params.entries))
    {
      var i := 0;
      while i < |overrides.keys|
        invariant 0 <= i <= |overrides.keys|
        invariant params.entries == State().ConstructNames(old(params.entries), overrides.keys[..i])
      {
        var name := overrides.keys[i];
        assert overrides.keys[..i + 1][..i] == overrides.keys[..i];
        var data := overrides.Get(name);
        var base := configs.Get(name);
        if data.Some? && base.Some? {
          AddAlertParams(params, name, data.value, base.value.Base());
        }
        i := i + 1;
      }
      assert overrides.keys[..i] == overrides.keys;
    }

    /** The body of `constructAlertParams` for one alert. */
    static method AddAlertParams(params: UrlSearchParams, name: string, o: AlertOverride, b: Overridable)
      modifies params
      ensures params.entries == EncodeOne(old(params.entries), name, o, b)
    {
      SpelledValues(o, b);
      ghost var e0 := params.entries;
      AddIfNoMatch(params, Key(name, Timeout), NumSlot(o.timeout), Arr([UndefinedValue, Num(b.timeout)]));
      assert params.entries == Step(e0, name, o, b, Timeout);
      ghost var e1 := params.entries;
      AddIfNoMatch(params, Key(name, Audio), ListSlot(o.audioReferences), Arr([UndefinedValue, StrList(b.audioReferences)]));
      assert params.entries == Step(e1, name, o, b, Audio);
      ghost var e2 := params.entries;
      AddIfNoMatch(params, Key(name, Image), ListSlot(o.imageReferences), Arr([UndefinedValue, StrList(b.imageReferences)]));
      assert params.entries == Step(e2, name, o, b, Image);
      ghost var e3 := params.entries;
      AddIfNoMatch(params, Key(name, Anim), StrSlot(o.animation.reference), Arr([UndefinedValue, Str(b.animation.reference)]));
      assert params.entries == Step(e3, name, o, b, Anim);
      ghost var e4 := params.entries;
      AddIfNoMatch(params, Key(name, AnimDuration), NumSlot(o.animation.duration), Arr([UndefinedValue, Num(b.animation.duration)]));
      assert params.entries == Step(e4, name, o, b, AnimDuration);
      ghost var e5 := params.entries;
      AddIfNoMatch(params, Key(name, AnimIterations), NumSlot(o.animation.iterations), Arr([UndefinedValue, Num(b.animation.iterations)]));
      assert params.entries == Step(e5, name, o, b, AnimIterations);
      ghost var e6 := params.entries;
      AddIfNoMatch(params, Key(name, AnimTiming), StrSlot(o.animation.timing), Arr([UndefinedValue, Str(b.animation.timing)]));
      assert params.entries == Step(e6, name, o, b, AnimTiming);
    }

    method SetAlertOverride(name: string, p: AlertPatch)
      requires Valid()
      modifies this
      ensures Valid() && State() == old(State()).SetAlertOverride(name, p)
    {
      var o := overrides.Get(name);
      if o.None? {
        return;
      }
      overrides := overrides.Set(name, Merge(o.value, p));
    }
  }
}
