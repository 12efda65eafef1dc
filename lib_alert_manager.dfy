/** The alert store of `src/lib/alertManager.ts`: like `src/lib/alert.ts`
    it keeps a base map and an override map keyed by alert name, but it
    loads the bases without clearing the maps, pins every field when an
    override is set, writes the URL with its own `addIfDiff`, and compares
    media lists without regard to order. */
module LibAlertManager {
  import opened Js
  import opened Strings
  import opened JsValues
  import opened JsMaps
  import opened SearchParams
  import opened ValueEquality
  import opened SearchParamHelpers
  import AE = ArraysEqual
  import opened AlertOverrides

  datatype AlertData = AlertData(
    name: string,
    alertReference: string,
    timeout: int,
    translations: map<string, string>,
    style: string,
    audioReferences: seq<string>,
    imageReferences: seq<string>,
    animation: AnimationConfig)
  {
    function Base(): Overridable {
      Overridable(timeout, audioReferences, imageReferences, animation)
    }

    function WithBase(b: Overridable): (r: AlertData)
      ensures r.Base() == b
      ensures r.name == name && r.alertReference == alertReference
      ensures r.translations == translations && r.style == style
    {
      this.(timeout := b.timeout, audioReferences := b.audioReferences,
            imageReferences := b.imageReferences, animation := b.animation)
    }
  }

  /** One entry of the loaded configuration. */
  datatype AlertConfig = AlertConfig(
    alertReference: string,
    timeout: int,
    translations: map<string, string>,
    style: string,
    audioReferences: seq<string>,
    imageReferences: seq<string>,
    animation: AnimationConfig)

  function Data(name: string, c: AlertConfig): AlertData {
    AlertData(name, c.alertReference, c.timeout, c.translations, c.style,
              c.audioReferences, c.imageReferences, c.animation)
  }

  function ConfigEntries(entries: seq<(string, AlertConfig)>): (r: seq<(string, AlertData)>)
    ensures EntryKeys(r) == EntryKeys(entries)
    ensures forall i :: 0 <= i < |entries| ==> r[i] == (entries[i].0, Data(entries[i].0, entries[i].1))
  {
    var r := seq(|entries|, i requires 0 <= i < |entries| => (entries[i].0, Data(entries[i].0, entries[i].1)));
    assert EntryKeys(r) == EntryKeys(entries);
    r
  }

  function BlankEntries(entries: seq<(string, AlertConfig)>): (r: seq<(string, AlertOverride)>)
    ensures EntryKeys(r) == EntryKeys(entries)
    ensures forall i :: 0 <= i < |entries| ==> r[i] == (entries[i].0, BlankOverride())
  {
    var r := seq(|entries|, i requires 0 <= i < |entries| => (entries[i].0, BlankOverride()));
    assert EntryKeys(r) == EntryKeys(entries);
    r
  }

  /** A patch applied to resolved values: a given, non-null value wins,
      anything else keeps the resolved one. */
  function Apply(b: Overridable, p: AlertPatch): (r: Overridable)
    ensures p.timeout == Some(Val(r.timeout)) || r.timeout == b.timeout
    ensures p.timeout.Some? && p.timeout.value.Val? ==> r.timeout == p.timeout.value.value
    ensures p.audioReferences.Some? && p.audioReferences.value.Val? ==> r.audioReferences == p.audioReferences.value.value
    ensures !(p.audioReferences.Some? && p.audioReferences.value.Val?) ==> r.audioReferences == b.audioReferences
    ensures p.imageReferences.Some? && p.imageReferences.value.Val? ==> r.imageReferences == p.imageReferences.value.value
    ensures !(p.imageReferences.Some? && p.imageReferences.value.Val?) ==> r.imageReferences == b.imageReferences
    ensures p.animation.None? ==> r.animation == b.animation
  {
    var a := if p.animation.Some? then p.animation.value else AnimationPatch(None, None, None, None);
    Overridable(
      Given(p.timeout).OrElse(b.timeout),
      Given(p.audioReferences).OrElse(b.audioReferences),
      Given(p.imageReferences).OrElse(b.imageReferences),
      AnimationConfig(
        Given(a.reference).OrElse(b.animation.reference),
        Given(a.duration).OrElse(b.animation.duration),
        Given(a.iterations).OrElse(b.animation.iterations),
        Given(a.timing).OrElse(b.animation.timing)))
  }

  /** The override `setAlertOverride` stores: every field set, to the
      given value or else to the alert as it currently reads. */
  function Pinned(a: AlertData, p: AlertPatch): (o: AlertOverride)
    ensures Resolve(Some(o), a.Base()) == Apply(a.Base(), p)
    ensures o.timeout.Val? && o.audioReferences.Val? && o.imageReferences.Val?
    ensures o.animation.reference.Val? && o.animation.duration.Val?
    ensures o.animation.iterations.Val? && o.animation.timing.Val?
  {
    var v := Apply(a.Base(), p);
    AlertOverride(Val(v.timeout), Val(v.audioReferences), Val(v.imageReferences),
      AnimationOverride(Val(v.animation.reference), Val(v.animation.duration),
                        Val(v.animation.iterations), Val(v.animation.timing)))
  }

  /** Applying the same patch a second time changes nothing more. */
  lemma ApplyIdempotent(b: Overridable, p: AlertPatch)
    ensures Apply(Apply(b, p), p) == Apply(b, p)
  {
  }

  // ---------------------------------------------------------------------
  // Writing overrides into URL parameters

  /** `addIfDiff(key, value, baseValue)`: skip an unset value, compare an
      object by its JSON text and anything else with `===`, and write the
      value's text when it differs. */
  function WithIfDiff(e: map<string, string>, key: string, v: JsValue, b: JsValue): map<string, string> {
    if v.IsUnset() then e
    else if v.Arr? then (if JsonCanon(v) == JsonCanon(b) then e else e[key := ToText(v)])
    else if v == b then e else e[key := ToText(v)]
  }

  /** `addIfDiff` writes exactly when `addIfNoMatch` with the alternatives
      `[undefined, base]` would. */
  lemma IfDiffIsIfNoMatch(e: map<string, string>, key: string, v: JsValue, b: JsValue)
    ensures WithIfDiff(e, key, v, b) == WithIfNoMatch(e, key, v, Arr([UndefinedValue, b]))
  {
    MatchesUnsetOrBase(v, b);
  }

  /** The media list rule: a given list is written comma-joined unless it
      holds the base's strings in some order. */
  function WithIfListDiffers(e: map<string, string>, key: string, x: Nullable<seq<string>>, base: seq<string>)
    : map<string, string>
  {
    if x.Val? && !AE.ArraysEqual(x, Val(base)) then e[key := Join(x.value, ',')] else e
  }

  /** What `constructUrlParams` writes under a field's key. */
  function ManagerText(o: AlertOverride, b: Overridable, f: Field): Option<string> {
    match f
    case Audio =>
      if o.audioReferences.Val? && multiset(o.audioReferences.value) != multiset(b.audioReferences)
      then Some(Join(o.audioReferences.value, ',')) else None
    case Image =>
      if o.imageReferences.Val? && multiset(o.imageReferences.value) != multiset(b.imageReferences)
      then Some(Join(o.imageReferences.value, ',')) else None
    case _ => Differing(o, b, f)
  }

  /** One write of `constructUrlParams`. */
  function Write(e: map<string, string>, name: string, o: AlertOverride, b: Overridable, f: Field): map<string, string> {
    match f
    case Audio => WithIfListDiffers(e, Key(name, Audio), o.audioReferences, b.audioReferences)
    case Image => WithIfListDiffers(e, Key(name, Image), o.imageReferences, b.imageReferences)
    case _ => WithIfDiff(e, Key(name, f), Value(o, f), BaseValue(b, f))
  }

  /** Each write sets its own key, to the text `ManagerText` gives, and
      only when there is one. */
  lemma WriteLookup(e: map<string, string>, name: string, o: AlertOverride, b: Overridable, f: Field, k: string)
    ensures Lookup(Write(e, name, o, b, f), k) ==
      if k == Key(name, f) && ManagerText(o, b, f).Some? then ManagerText(o, b, f) else Lookup(e, k)
  {
    match f
    case Audio =>
    case Image =>
    case _ =>
      ValueEqualsIsIdentity(Value(o, f), BaseValue(b, f));
      JsonCanonOfSafe(Value(o, f));
  }

  /** The values and bases of the plain fields, spelled out as the source
      passes them. */
  lemma ManagerSpelledValues(o: AlertOverride, b: Overridable)
    ensures Value(o, Timeout) == NumSlot(o.timeout) && BaseValue(b, Timeout) == Num(b.timeout)
    ensures Value(o, Anim) == StrSlot(o.animation.reference) && BaseValue(b, Anim) == Str(b.animation.reference)
    ensures Value(o, AnimDuration) == NumSlot(o.animation.duration) && BaseValue(b, AnimDuration) == Num(b.animation.duration)
    ensures Value(o, AnimIterations) == NumSlot(o.animation.iterations) && BaseValue(b, AnimIterations) == Num(b.animation.iterations)
    ensures Value(o, AnimTiming) == StrSlot(o.animation.timing) && BaseValue(b, AnimTiming) == Str(b.animation.timing)
  {
  }

  /** The writes for one alert, in the order of the source. */
  function EncodeAlert(e: map<string, string>, name: string, o: AlertOverride, b: Overridable): map<string, string> {
    var e1 := Write(e, name, o, b, Timeout);
    var e2 := Write(e1, name, o, b, Audio);
    var e3 := Write(e2, name, o, b, Image);
    var e4 := Write(e3, name, o, b, Anim);
    var e5 := Write(e4, name, o, b, AnimDuration);
    var e6 := Write(e5, name, o, b, AnimIterations);
    Write(e6, name, o, b, AnimTiming)
  }

  lemma EncodeAlertLookup(e: map<string, string>, name: string, o: AlertOverride, b: Overridable, k: string)
    ensures forall f :: k == Key(name, f) ==>
      Lookup(EncodeAlert(e, name, o, b), k) == if ManagerText(o, b, f).Some? then ManagerText(o, b, f) else Lookup(e, k)
    ensures (forall f :: k != Key(name, f)) ==> Lookup(EncodeAlert(e, name, o, b), k) == Lookup(e, k)
  {
    forall f, g | k == Key(name, f) && k == Key(name, g)
      ensures f == g
    {
      KeyInjective(name, f, name, g);
    }
    var e1 := Write(e, name, o, b, Timeout);
    var e2 := Write(e1, name, o, b, Audio);
    var e3 := Write(e2, name, o, b, Image);
    var e4 := Write(e3, name, o, b, Anim);
    var e5 := Write(e4, name, o, b, AnimDuration);
    var e6 := Write(e5, name, o, b, AnimIterations);
    WriteLookup(e, name, o, b, Timeout, k);
    WriteLookup(e1, name, o, b, Audio, k);
    WriteLookup(e2, name, o, b, Image, k);
    WriteLookup(e3, name, o, b, Anim, k);
    WriteLookup(e4, name, o, b, AnimDuration, k);
    WriteLookup(e5, name, o, b, AnimIterations, k);
    WriteLookup(e6, name, o, b, AnimTiming, k);
  }

  /** A reordered media list is not written, so reading the URL back gives
      the base's order, not the override's. */
  lemma ReorderedListIsNotWritten(x: string, y: string, b: Overridable)
    requires x != y && b.audioReferences == [y, x]
    ensures var o := BlankOverride().(audioReferences := Val([x, y]));
      ManagerText(o, b, Audio).None? &&
      Resolve(Some(Decode("a", b, map[])), b).audioReferences == [y, x] &&
      Resolve(Some(o), b).audioReferences == [x, y]
  {
    assert multiset([x, y]) == multiset([y, x]);
  }

  // ---------------------------------------------------------------------
  // Reading the URL back

  /** Equal but for the order of the media lists. */
  predicate SameUpToListOrder(x: Overridable, y: Overridable) {
    x.timeout == y.timeout && x.animation == y.animation &&
    multiset(x.audioReferences) == multiset(y.audioReferences) &&
    multiset(x.imageReferences) == multiset(y.imageReferences)
  }

  lemma ListManagerRoundTrip(x: Nullable<seq<string>>, base: seq<string>)
    requires x.Val? ==> |x.value| >= 1 && SeparatorFree(x.value, ',')
    ensures var text := if x.Val? && multiset(x.value) != multiset(base) then Some(Join(x.value, ',')) else None;
      multiset(SplitList(text).OrElse(base)) == multiset(x.OrElse(base))
  {
    if x.Val? && multiset(x.value) != multiset(base) {
      SplitJoin(x.value, ',');
    }
  }

  /** Reading back what `constructUrlParams` wrote for an alert gives an
      override that resolves like the written one, up to list order. */
  lemma DecodeManagerText(name: string, o: AlertOverride, b: Overridable, params: map<string, string>)
    requires ListsTravel(o)
    requires forall f :: Lookup(params, Key(name, f)) == ManagerText(o, b, f)
    ensures SameUpToListOrder(Resolve(Some(Decode(name, b, params)), b), Resolve(Some(o), b))
  {
    assert Lookup(params, Key(name, Timeout)) == Differing(o, b, Timeout);
    assert Lookup(params, Key(name, Audio)) == ManagerText(o, b, Audio);
    assert Lookup(params, Key(name, Image)) == ManagerText(o, b, Image);
    assert Lookup(params, Key(name, Anim)) == Differing(o, b, Anim);
    assert Lookup(params, Key(name, AnimDuration)) == Differing(o, b, AnimDuration);
    assert Lookup(params, Key(name, AnimIterations)) == Differing(o, b, AnimIterations);
    assert Lookup(params, Key(name, AnimTiming)) == Differing(o, b, AnimTiming);
    NumberFieldRoundTrip(o.timeout, b.timeout);
    ListManagerRoundTrip(o.audioReferences, b.audioReferences);
    ListManagerRoundTrip(o.imageReferences, b.imageReferences);
    TextFieldRoundTrip(o.animation.reference, b.animation.reference);
    NumberFieldRoundTrip(o.animation.duration, b.animation.duration);
    NumberFieldRoundTrip(o.animation.iterations, b.animation.iterations);
    TextFieldRoundTrip(o.animation.timing, b.animation.timing);
  }

  // ---------------------------------------------------------------------
  // The store

  /** `getAlert(name)`: `null` with neither base nor override; a thrown
      `TypeError` with an override but no base, since the base is read
      unguarded; otherwise the resolved alert. */
  datatype AlertLookup = NotFound | Throws | Found(alert: AlertData)

  datatype Store = Store(configs: JsMap<AlertData>, overrides: JsMap<AlertOverride>) {
    predicate Valid() {
      configs.Valid() && overrides.Valid()
    }

    /** Every override belongs to an alert with a base. */
    predicate Consistent() {
      forall n :: n in overrides.values ==> n in configs.values
    }

    /** `createConfigs(config)`: each entry sets its base and a blank
        override; the maps are not cleared first. */
    function CreateConfigs(entries: seq<(string, AlertConfig)>): (r: Store)
      requires Valid()
      ensures r.Valid()
      ensures forall n :: n in r.configs.values <==> n in configs.values || n in EntryKeys(entries)
      ensures forall n :: n in r.overrides.values <==> n in overrides.values || n in EntryKeys(entries)
    {
      Store(SetAll(configs, ConfigEntries(entries)), SetAll(overrides, BlankEntries(entries)))
    }

    /** `getBaseAlert(name)` */
    function GetBaseAlert(name: string): Option<AlertData> {
      configs.Get(name)
    }

    /** `getOverriddenAlert(name)` */
    function GetOverriddenAlert(name: string): Option<AlertOverride> {
      overrides.Get(name)
    }

    function GetAlert(name: string): (r: AlertLookup)
      ensures r.NotFound? <==> GetBaseAlert(name).None? && GetOverriddenAlert(name).None?
      ensures r.Throws? <==> GetBaseAlert(name).None? && GetOverriddenAlert(name).Some?
      ensures r.Found? <==> GetBaseAlert(name).Some?
      ensures r.Found? ==>
        r.alert == GetBaseAlert(name).value.(name := name).WithBase(Resolve(GetOverriddenAlert(name), GetBaseAlert(name).value.Base()))
    {
      match (configs.Get(name), overrides.Get(name))
      case (None, None) => NotFound
      case (None, Some(_)) => Throws
      case (Some(c), o) =>
        var v := Resolve(o, c.Base());
        Found(AlertData(name, c.alertReference, v.timeout, c.translations, c.style,
                        v.audioReferences, v.imageReferences, v.animation))
    }

    /** `setAlertOverride(name, override)`: nothing unless the alert is
        found; then every field is pinned. */
    function SetAlertOverride(name: string, p: AlertPatch): (r: Store)
      requires Valid()
      ensures r.Valid() && r.configs == configs
      ensures !GetAlert(name).Found? ==> r == this
      ensures GetAlert(name).Found? ==> r.overrides.Get(name) == Some(Pinned(GetAlert(name).alert, p))
      ensures forall n :: n != name ==> r.overrides.Get(n) == overrides.Get(n)
    {
      match GetAlert(name)
      case Found(a) => this.(overrides := overrides.Set(name, Pinned(a, p)))
      case _ => this
    }

    function DecodedEntries(params: map<string, string>): (r: seq<(string, AlertOverride)>)
      requires Valid()
      ensures EntryKeys(r) == configs.keys
      ensures forall i :: 0 <= i < |r| ==> r[i].1 == Decode(r[i].0, configs.values[r[i].0].Base(), params)
    {
      var r := seq(|configs.keys|, i requires 0 <= i < |configs.keys| =>
        (configs.keys[i], Decode(configs.keys[i], configs.values[configs.keys[i]].Base(), params)));
      assert EntryKeys(r) == configs.keys;
      r
    }

    /** `deconstructUrlParams(params)`: every configured alert's override
        is replaced by the one read from the parameters. */
    function DeconstructUrlParams(params: map<string, string>): (r: Store)
      requires Valid()
      ensures r.Valid() && r.configs == configs
    {
      this.(overrides := SetAll(overrides, DecodedEntries(params)))
    }

    function ConstructNames(names: seq<string>): map<string, string>
      decreases |names|
    {
      if |names| == 0 then map[]
      else
        var prev := ConstructNames(names[..|names| - 1]);
        var name := names[|names| - 1];
        match (configs.Get(name), overrides.Get(name))
        case (Some(c), Some(o)) => EncodeAlert(prev, name, o, c.Base())
        case _ => prev
    }

    /** `constructUrlParams()`: fresh parameters holding what every
        configured alert with an override writes. */
    function ConstructUrlParams(): map<string, string> {
      ConstructNames(configs.keys)
    }
  }

  function EmptyStore(): (s: Store)
    ensures s.Valid() && s.Consistent()
  {
    Store(Empty(), Empty())
  }

  /** While every override has a base, `getAlert` never throws, and every
      operation keeps it so. */
  lemma ConsistentNeverThrows(s: Store, name: string, p: AlertPatch, entries: seq<(string, AlertConfig)>, params: map<string, string>)
    requires s.Valid() && s.Consistent()
    ensures !s.GetAlert(name).Throws?
    ensures s.CreateConfigs(entries).Consistent()
    ensures s.SetAlertOverride(name, p).Consistent()
    ensures s.DeconstructUrlParams(params).Consistent()
  {
    var d := s.DeconstructUrlParams(params);
    forall n | n in d.overrides.values ensures n in d.configs.values {
      assert EntryKeys(s.DecodedEntries(params)) == s.configs.keys;
    }
  }

  /** Without the invariant, an override left behind by a name whose base
      is gone makes `getAlert` throw. */
  lemma OrphanOverrideThrows(s: Store, name: string)
    requires name !in s.configs.values && name in s.overrides.values
    ensures s.GetAlert(name).Throws?
  {
  }

  /** `createConfigs` does not clear the maps: earlier names stay. */
  lemma CreateConfigsKeepsEarlierNames(s: Store, entries: seq<(string, AlertConfig)>, name: string)
    requires s.Valid() && name in s.configs.values && name !in EntryKeys(entries)
    ensures s.CreateConfigs(entries).GetBaseAlert(name) == s.GetBaseAlert(name)
  {
    SetAllUntouched(s.configs, ConfigEntries(entries), name);
  }

  /** After `setAlertOverride(name, p)` the alert reads as `p` on the given,
      non-null fields and as before elsewhere; other alerts read as before;
      a second identical call changes nothing. */
  lemma SetAlertOverrideEffect(s: Store, name: string, p: AlertPatch, other: string)
    requires s.Valid() && s.GetAlert(name).Found?
    ensures var t := s.SetAlertOverride(name, p);
      var a := s.GetAlert(name).alert;
      t.GetAlert(name) == Found(a.WithBase(Apply(a.Base(), p))) &&
      (other != name ==> t.GetAlert(other) == s.GetAlert(other)) &&
      t.SetAlertOverride(name, p) == t
  {
    var t := s.SetAlertOverride(name, p);
    var a := s.GetAlert(name).alert;
    var c := s.configs.values[name];
    assert a.Base() == Resolve(s.overrides.Get(name), c.Base());
    var a2 := t.GetAlert(name).alert;
    assert a2.Base() == Apply(a.Base(), p);
    ApplyIdempotent(a.Base(), p);
    assert Pinned(a2, p) == Pinned(a, p);
    assert t.overrides.Set(name, Pinned(a2, p)) == t.overrides;
  }

  lemma DeconstructSetsDecoded(s: Store, params: map<string, string>, name: string)
    requires s.Valid() && name in s.configs.values
    ensures s.DeconstructUrlParams(params).overrides.Get(name) ==
      Some(Decode(name, s.configs.values[name].Base(), params))
  {
    var d := s.DecodedEntries(params);
    var i :| 0 <= i < |s.configs.keys| && s.configs.keys[i] == name;
    assert d[i].0 == name;
    forall j | i < j < |d| ensures d[j].0 != d[i].0 {
      assert s.configs.keys[i] != s.configs.keys[j];
    }
    SetAllLast(s.overrides, d, i);
  }

  lemma {:induction false} ConstructNamesLookup(s: Store, names: seq<string>, name: string, f: Field)
    requires forall i, j :: 0 <= i < j < |names| ==> names[i] != names[j]
    ensures Lookup(s.ConstructNames(names), Key(name, f)) ==
      if name in names && name in s.overrides.values && name in s.configs.values
      then ManagerText(s.overrides.values[name], s.configs.values[name].Base(), f)
      else None
    decreases |names|
  {
    if |names| > 0 {
      var init := names[..|names| - 1];
      var last := names[|names| - 1];
      DistinctSnoc(names);
      ConstructNamesLookup(s, init, name, f);
      var prev := s.ConstructNames(init);
      if s.overrides.Get(last).Some? && s.configs.Get(last).Some? {
        var o := s.overrides.values[last];
        var b := s.configs.values[last].Base();
        EncodeAlertLookup(prev, last, o, b, Key(name, f));
        if last != name {
          KeysOfOtherName(name, f, last);
        }
      }
    }
  }

  /** Round trip: the parameters `constructUrlParams` builds, read back by
      `deconstructUrlParams` into any store with the same bases, give every
      alert as it was, except that a media list may come back in the base's
      order; media lists given must be non-empty and free of commas. */
  lemma ConstructDeconstructRoundTrip(s: Store, r: Store, name: string)
    requires s.Valid() && r.Valid() && r.configs == s.configs
    requires forall n :: n in s.overrides.values ==> ListsTravel(s.overrides.values[n])
    requires s.GetAlert(name).Found?
    ensures var t := r.DeconstructUrlParams(s.ConstructUrlParams());
      t.GetAlert(name).Found? &&
      SameUpToListOrder(t.GetAlert(name).alert.Base(), s.GetAlert(name).alert.Base())
  {
    var params := s.ConstructUrlParams();
    DeconstructSetsDecoded(r, params, name);
    var b := s.configs.values[name].Base();
    if name in s.overrides.values {
      var o := s.overrides.values[name];
      forall f ensures Lookup(params, Key(name, f)) == ManagerText(o, b, f) {
        ConstructNamesLookup(s, s.configs.keys, name, f);
      }
      DecodeManagerText(name, o, b, params);
    } else {
      forall f ensures Key(name, f) !in params {
        ConstructNamesLookup(s, s.configs.keys, name, f);
      }
      DecodeNothing(name, b, params);
    }
  }

  /** The module-level maps of `src/lib/alertManager.ts`. */
  class AlertManagerStore {
    var configs: JsMap<AlertData>
    var overrides: JsMap<AlertOverride>

    function State(): Store
      reads this
    {
      Store(configs, overrides)
    }

    ghost predicate Valid()
      reads this
    {
      State().Valid()
    }

    constructor ()
      ensures Valid() && State() == EmptyStore()
    {
      configs := Empty();
      overrides := Empty();
    }

    method CreateConfigs(entries: seq<(string, AlertConfig)>)
      requires Valid()
      modifies this
      ensures Valid() && State() == old(State()).CreateConfigs(entries)
    {
      ghost var ce := ConfigEntries(entries);
      ghost var be := BlankEntries(entries);
      ghost var c0, o0 := configs, overrides;
      var cs, os := configs, overrides;
      var i := 0;
      while i < |entries|
        invariant 0 <= i <= |entries|
        invariant cs == SetAll(c0, ce[..i])
        invariant os == SetAll(o0, be[..i])
      {
        var (name, entry) := entries[i];
        CreateStep(c0, o0, entries, i);
        cs := cs.Set(name, Data(name, entry));
        os := os.Set(name, BlankOverride());
        i := i + 1;
      }
      assert ce[..i] == ce && be[..i] == be;
      configs, overrides := cs, os;
    }

    /** One more entry of the loop of `createConfigs`: its base and a blank
        override set. */
    static lemma CreateStep(c0: JsMap<AlertData>, o0: JsMap<AlertOverride>, entries: seq<(string, AlertConfig)>, i: nat)
      requires c0.Valid() && o0.Valid() && i < |entries|
      ensures SetAll(c0, ConfigEntries(entries)[..i + 1]) ==
        SetAll(c0, ConfigEntries(entries)[..i]).Set(entries[i].0, Data(entries[i].0, entries[i].1))
      ensures SetAll(o0, BlankEntries(entries)[..i + 1]) ==
        SetAll(o0, BlankEntries(entries)[..i]).Set(entries[i].0, BlankOverride())
    {
      SetAllPrefix(c0, ConfigEntries(entries), i);
      SetAllPrefix(o0, BlankEntries(entries), i);
    }

    method DeconstructUrlParams(params: UrlSearchParams)
      requires Valid()
      modifies this
      ensures Valid() && State() == old(State()).DeconstructUrlParams(params.entries)
    {
      ghost var decoded := State().DecodedEntries(params.entries);
      ghost var start := overrides;
      var names := configs.keys;
      var i := 0;
      while i < |names|
        invariant 0 <= i <= |names| && configs == old(configs)
        invariant overrides == SetAll(start, decoded[..i])
      {
        var name := names[i];
        var o := Decode(name, configs.values[name].Base(), params.entries);
        assert decoded[i] == (name, o);
        SetAllPrefix(start, decoded, i);
        overrides := overrides.Set(name, o);
        i := i + 1;
      }
      assert decoded[..i] == decoded;
    }

    /** `addIfDiff` */
    static method AddIfDiff(params: UrlSearchParams, key: string, v: JsValue, b: JsValue)
      modifies params
      ensures params.entries == WithIfDiff(old(params.entries), key, v, b)
    {
      if v.IsUnset() {
        return;
      }
      if v.Arr? {
        if JsonCanon(v) == JsonCanon(b) {
          return;
        }
      } else if v == b {
        return;
      }
      params.Set(key, ToText(v));
    }

    /** The body of `constructUrlParams` for one alert with an override. */
    /** The reference lists of `constructUrlParams`: written, joined by
        commas, only when set and holding other elements than the base. */
    static method AddListIfDiffers(params: UrlSearchParams, key: string, x: Nullable<seq<string>>, base: seq<string>)
      modifies params
      ensures params.entries == WithIfListDiffers(old(params.entries), key, x, base)
    {
      if x.Val? && !AE.ArraysEqual(x, Val(base)) {
        params.Set(key, Join(x.value, ','));
      }
    }

    static method AddAlertParams(params: UrlSearchParams, name: string, o: AlertOverride, b: Overridable)
      modifies params
      ensures params.entries == EncodeAlert(old(params.entries), name, o, b)
    {
      ManagerSpelledValues(o, b);
      AddIfDiff(params, Key(name, Timeout), NumSlot(o.timeout), Num(b.timeout));
      AddListIfDiffers(params, Key(name, Audio), o.audioReferences, b.audioReferences);
      AddListIfDiffers(params, Key(name, Image), o.imageReferences, b.imageReferences);
      AddIfDiff(params, Key(name, Anim), StrSlot(o.animation.reference), Str(b.animation.reference));
      AddIfDiff(params, Key(name, AnimDuration), NumSlot(o.animation.duration), Num(b.animation.duration));
      AddIfDiff(params, Key(name, AnimIterations), NumSlot(o.animation.iterations), Num(b.animation.iterations));
      AddIfDiff(params, Key(name, AnimTiming), StrSlot(o.animation.timing), Str(b.animation.timing));
    }

    method ConstructUrlParams() returns (params: UrlSearchParams)
      ensures fresh(params) && params.entries == State().ConstructUrlParams()
    {
      params := new UrlSearchParams();
      var i := 0;
      while i < |configs.keys|
        invariant 0 <= i <= |configs.keys|
        invariant params.entries == State().ConstructNames(configs.keys[..i])
      {
        var name := configs.keys[i];
        assert configs.keys[..i + 1][..i] == configs.keys[..i];
        var base := configs.Get(name);
        var o := overrides.Get(name);
        if base.Some? && o.Some? {
          AddAlertParams(params, name, o.value, base.value.Base());
        }
        i := i + 1;
      }
      assert configs.keys[..i] == configs.keys;
    }

    method SetAlertOverride(name: string, p: AlertPatch)
      requires Valid()
      modifies this
      ensures Valid() && State() == old(State()).SetAlertOverride(name, p)
    {
      var alert := State().GetAlert(name);
      if !alert.Found? {
        return;
      }
      overrides := overrides.Set(name, Pinned(alert.alert, p));
    }
  }
}
