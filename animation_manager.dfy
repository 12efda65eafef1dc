/** `AnimationManager` of `src/settings/AnimationManager.ts`: a settings
    manager over animations. Each configured animation has a base entry
    (duration and iterations as decimal text, timing as given) and an
    override read from the `-duration`, `-iterations` and `-timing` URL
    parameters; the entry record has the same shape as the animation record
    of `src/URLParser.ts`, and the URL keys are the same. */
module AnimationSettings {
  import opened Js
  import opened Strings
  import opened JsMaps
  import opened SearchParams
  import opened SettingsStores
  import opened Keyframes
  import U = UrlParams

  type AnimationEntry = U.AnimationParams

  /** One animation of the JSON configuration. */
  datatype AnimationJson = AnimationJson(duration: int, timing: string, iterations: int, keyframes: seq<Keyframe>)

  /** The base entry `createConfigs` stores. */
  function BaseEntry(name: string, j: AnimationJson): (e: AnimationEntry)
    ensures e.name == name
  {
    U.AnimationParams(name, Val(IntToString(j.duration)), Val(j.timing), Val(IntToString(j.iterations)))
  }

  /** The base entry keeps the timing as given and the numbers as decimal
      text that reads back as the same numbers. */
  lemma BaseEntryText(name: string, j: AnimationJson)
    ensures BaseEntry(name, j).timingFunction == Val(j.timing)
    ensures ParseDecimal(BaseEntry(name, j).duration.value) == Some(j.duration)
    ensures ParseDecimal(BaseEntry(name, j).iterations.value) == Some(j.iterations)
  {
    ParseIntToString(j.duration);
    ParseIntToString(j.iterations);
  }

  /** The override `createConfigs` stores: every field `null`. */
  function NullOverride(name: string): U.AnimationParams {
    U.AnimationParams(name, Null, Null, Null)
  }

  /** The configs `createConfigs(config)` leaves, over the given names in
      order: each name gets its base entry; other names keep theirs. */
  function BaseEntries(configs: JsMap<AnimationEntry>, config: JsMap<AnimationJson>, names: seq<string>): (r: JsMap<AnimationEntry>)
    requires configs.Valid()
    requires forall k :: k in names ==> k in config.values
    ensures r.Valid()
    decreases |names|
  {
    if |names| == 0 then configs
    else
      var init := names[..|names| - 1];
      var last := names[|names| - 1];
      assert forall k :: k in init ==> k in names;
      BaseEntries(configs, config, init).Set(last, BaseEntry(last, config.values[last]))
  }

  /** Each given name has its base entry; the others keep theirs. */
  lemma {:induction false} BaseEntriesGet(configs: JsMap<AnimationEntry>, config: JsMap<AnimationJson>, names: seq<string>, k: string)
    requires configs.Valid()
    requires forall k :: k in names ==> k in config.values
    ensures BaseEntries(configs, config, names).Get(k) == if k in names then Some(BaseEntry(k, config.values[k])) else configs.Get(k)
    decreases |names|
  {
    if |names| > 0 {
      var init := names[..|names| - 1];
      assert names == init + [names[|names| - 1]];
      BaseEntriesGet(configs, config, init, k);
    }
  }

  /** The overrides `createConfigs` leaves: each given name gets an all-null
      override. */
  function NullOverrides(overrides: JsMap<AnimationEntry>, names: seq<string>): (r: JsMap<AnimationEntry>)
    requires overrides.Valid()
    ensures r.Valid()
    decreases |names|
  {
    if |names| == 0 then overrides
    else NullOverrides(overrides, names[..|names| - 1]).Set(names[|names| - 1], NullOverride(names[|names| - 1]))
  }

  /** Each given name has an all-null override; the others keep theirs. */
  lemma {:induction false} NullOverridesGet(overrides: JsMap<AnimationEntry>, names: seq<string>, k: string)
    requires overrides.Valid()
    ensures NullOverrides(overrides, names).Get(k) == if k in names then Some(NullOverride(k)) else overrides.Get(k)
    decreases |names|
  {
    if |names| > 0 {
      var init := names[..|names| - 1];
      assert names == init + [names[|names| - 1]];
      NullOverridesGet(overrides, init, k);
    }
  }

  /** The keyframe blocks of the given animations, in order. */
  function KeyframeBlocks(config: JsMap<AnimationJson>, names: seq<string>): (r: seq<string>)
    requires forall k :: k in names ==> k in config.values
    ensures |r| == |names|
    ensures forall i :: 0 <= i < |names| ==> r[i] == KeyframeCss(names[i], config.values[names[i]].keyframes)
  {
    seq(|names|, i requires 0 <= i < |names| => KeyframeCss(names[i], config.values[names[i]].keyframes))
  }

  lemma KeyframeBlocksStep(config: JsMap<AnimationJson>, names: seq<string>, i: nat)
    requires i < |names| && forall k :: k in names ==> k in config.values
    ensures KeyframeBlocks(config, names[..i + 1]) == KeyframeBlocks(config, names[..i]) + [KeyframeCss(names[i], config.values[names[i]].keyframes)]
  {
  }

  /** One more name is one more `set` on each map. */
  lemma CreatedStep(configs: JsMap<AnimationEntry>, overrides: JsMap<AnimationEntry>, config: JsMap<AnimationJson>, names: seq<string>, i: nat)
    requires configs.Valid() && overrides.Valid()
    requires i < |names| && forall k :: k in names ==> k in config.values
    ensures BaseEntries(configs, config, names[..i + 1]) == BaseEntries(configs, config, names[..i]).Set(names[i], BaseEntry(names[i], config.values[names[i]]))
    ensures NullOverrides(overrides, names[..i + 1]) == NullOverrides(overrides, names[..i]).Set(names[i], NullOverride(names[i]))
  {
    assert names[..i + 1][..i] == names[..i];
  }

  /** `createConfigs(config)` over the given names, in order. */
  function Created(s: Settings<AnimationEntry>, config: JsMap<AnimationJson>, names: seq<string>): (r: Settings<AnimationEntry>)
    requires s.Valid()
    requires forall k :: k in names ==> k in config.values
    ensures r.Valid()
  {
    Settings(BaseEntries(s.configs, config, names), NullOverrides(s.overrides, names))
  }

  /** The overrides `deconstructURL(url)` leaves, over the given names (the
      configured ones, in order): each is replaced by what the URL holds,
      `null` where it holds nothing. */
  function UrlOverrides(overrides: JsMap<AnimationEntry>, names: seq<string>, params: map<string, string>): (r: JsMap<AnimationEntry>)
    requires overrides.Valid()
    ensures r.Valid()
    ensures forall k :: r.Get(k) == if k in names then Some(U.ReadAnimation(k, params)) else overrides.Get(k)
    decreases |names|
  {
    if |names| == 0 then overrides
    else
      var init := names[..|names| - 1];
      var last := names[|names| - 1];
      assert forall k :: k in names <==> k in init || k == last by {
        assert names == init + [last];
      }
      UrlOverrides(overrides, init, params).Set(last, U.ReadAnimation(last, params))
  }

  /** `deconstructURL(url)`: the configs are untouched. */
  function Deconstruct(s: Settings<AnimationEntry>, names: seq<string>, params: map<string, string>): (r: Settings<AnimationEntry>)
    requires s.Valid()
    ensures r.Valid() && r.configs == s.configs
  {
    Settings(s.configs, UrlOverrides(s.overrides, names, params))
  }

  /** `constructSearchParams()`: a fresh parameter list holding every
      override's truthy fields. */
  function Construct(s: Settings<AnimationEntry>): map<string, string>
    requires s.Valid()
  {
    U.WriteAnimations(s.overrides, s.overrides.keys, map[])
  }

  /** What every operation keeps: both maps valid, the same names in both,
      and every override filed under its own name. */
  predicate Consistent(s: Settings<AnimationEntry>) {
    s.Valid() && (forall k :: k in s.configs.values ==> k in s.overrides.values) &&
    (forall k :: k in s.overrides.values ==> k in s.configs.values) && U.AnimationsNamed(s.overrides)
  }

  lemma CreateKeepsConsistent(s: Settings<AnimationEntry>, config: JsMap<AnimationJson>)
    requires Consistent(s) && config.Valid()
    ensures Consistent(Created(s, config, config.keys))
  {
    var r := Created(s, config, config.keys);
    forall k ensures k in r.configs.values <==> k in r.overrides.values {
      BaseEntriesGet(s.configs, config, config.keys, k);
      NullOverridesGet(s.overrides, config.keys, k);
    }
    forall k | k in r.overrides.values ensures r.overrides.values[k].name == k {
      NullOverridesGet(s.overrides, config.keys, k);
    }
  }

  lemma DeconstructKeepsConsistent(s: Settings<AnimationEntry>, params: map<string, string>)
    requires Consistent(s)
    ensures Consistent(Deconstruct(s, s.configs.keys, params))
  {
    var r := UrlOverrides(s.overrides, s.configs.keys, params);
    forall k ensures (k in r.values <==> k in s.overrides.values) && (k in r.values ==> r.values[k].name == k) {
      UrlOverridesAt(s.overrides, s.configs.keys, params, k);
    }
  }

  /** After `deconstructURL` a name is overridden exactly when it was read
      or already overridden; a read override carries its own name, any other
      is kept. */
  lemma UrlOverridesAt(overrides: JsMap<AnimationEntry>, names: seq<string>, params: map<string, string>, k: string)
    requires overrides.Valid()
    ensures var r := UrlOverrides(overrides, names, params);
      && (k in r.values <==> k in names || k in overrides.values)
      && (k in r.values && k in names ==> r.values[k].name == k)
      && (k in r.values && k !in names ==> r.values[k] == overrides.values[k])
  {
    var r := UrlOverrides(overrides, names, params);
    assert r.Get(k) == if k in names then Some(U.ReadAnimation(k, params)) else overrides.Get(k);
  }

  /** `load(config)`: `createConfigs` first, then `deconstructURL` over the
      names it configured. */
  function Loaded(s: Settings<AnimationEntry>, config: JsMap<AnimationJson>, params: map<string, string>): Settings<AnimationEntry>
    requires s.Valid() && config.Valid()
  {
    var created := Created(s, config, config.keys);
    Deconstruct(created, created.configs.keys, params)
  }

  /** Because the configs are created before the URL is read, every
      configured animation ends up with its base entry and with the override
      the URL gives it. */
  lemma LoadReadsEveryConfiguredName(config: JsMap<AnimationJson>, params: map<string, string>, k: string)
    requires config.Valid() && k in config.values
    ensures Loaded(Settings(Empty(), Empty()), config, params).GetConfig(k) == Some(BaseEntry(k, config.values[k]))
    ensures Loaded(Settings(Empty(), Empty()), config, params).GetOverride(k) == Some(U.ReadAnimation(k, params))
  {
    var created := Created(Settings(Empty(), Empty()), config, config.keys);
    BaseEntriesGet(Empty(), config, config.keys, k);
  }

  /** Deconstructing parameters that reproduce every override changes
      nothing. */
  lemma {:induction false} DeconstructUnchanged(overrides: JsMap<AnimationEntry>, names: seq<string>, params: map<string, string>)
    requires overrides.Valid()
    requires forall k :: k in names ==> k in overrides.values && overrides.values[k] == U.ReadAnimation(k, params)
    ensures UrlOverrides(overrides, names, params) == overrides
    decreases |names|
  {
    if |names| > 0 {
      var init := names[..|names| - 1];
      var last := names[|names| - 1];
      assert forall k :: k in init ==> k in names;
      DeconstructUnchanged(overrides, init, params);
      assert last in names;
      SetUnchanged(overrides, last, U.ReadAnimation(last, params));
    }
  }

  /** An override field that travels: `null`, or text that is not empty. */
  predicate Travels(x: Nullable<string>) {
    x.Null? || (x.Val? && x.value != "")
  }

  /** Deconstructing the constructed parameters gives the same store back
      when every override field is `null` or non-empty text. */
  lemma RoundTrip(s: Settings<AnimationEntry>)
    requires Consistent(s)
    requires forall k :: k in s.overrides.values ==>
      Travels(s.overrides.values[k].duration) && Travels(s.overrides.values[k].timingFunction) && Travels(s.overrides.values[k].iterations)
    ensures Deconstruct(s, s.configs.keys, Construct(s)) == s
  {
    var w := Construct(s);
    forall k | k in s.configs.keys
      ensures k in s.overrides.values && s.overrides.values[k] == U.ReadAnimation(k, w)
    {
      U.ReadWrittenAnimation(s.overrides, map[], k);
      var p := s.overrides.values[k];
      assert U.AnimationReadBack(p) == p;
    }
    DeconstructUnchanged(s.overrides, s.configs.keys, w);
  }

  // ---------------------------------------------------------------------
  // Applying an animation to an element

  /** The four style properties `applyAnimation` sets. */
  datatype AnimationStyle = AnimationStyle(name: string, duration: string, timingFunction: string, iterationCount: string)

  datatype Applied = Skipped | Threw | Styled(style: AnimationStyle)

  /** `x ?? fallback` rendered as text, as a template literal renders it.
      The timing function goes through `.toString()` instead, which throws
      on a nullish value; that case is rendered here like the others, and
      cannot arise from a base entry, whose fields are all set. */
  function TextOr(x: Nullable<string>, fallback: Nullable<string>): string {
    match x
    case Val(v) => v
    case _ => match fallback
      case Val(v) => v
      case Undefined => "undefined"
      case Null => "null"
  }

  /** `applyAnimation(element, name, overrides)` as written: the timing
      function is taken from the override's duration. No element or an
      unknown animation does nothing; a missing override record throws.
      `Threw` does not record that `animationName` was already assigned
      when the throw happens. */
  function ApplyAsWritten(hasElement: bool, animation: Option<AnimationEntry>, overrides: Option<AnimationEntry>): (r: Applied)
    ensures !hasElement || animation.None? <==> r.Skipped?
    ensures r.Threw? <==> hasElement && animation.Some? && overrides.None?
  {
    if !hasElement || animation.None? then Skipped
    else if overrides.None? then Threw
    else
      var a, o := animation.value, overrides.value;
      Styled(AnimationStyle(a.name, TextOr(o.duration, a.duration) + "ms", TextOr(o.duration, a.timingFunction), TextOr(o.iterations, a.iterations)))
  }

  /** Each property from its own override field, else the base. */
  function Apply(hasElement: bool, animation: Option<AnimationEntry>, overrides: Option<AnimationEntry>): (r: Applied)
    ensures !hasElement || animation.None? <==> r.Skipped?
    ensures r.Threw? <==> hasElement && animation.Some? && overrides.None?
  {
    if !hasElement || animation.None? then Skipped
    else if overrides.None? then Threw
    else
      var a, o := animation.value, overrides.value;
      Styled(AnimationStyle(a.name, TextOr(o.duration, a.duration) + "ms", TextOr(o.timingFunction, a.timingFunction), TextOr(o.iterations, a.iterations)))
  }

  /** As written, overriding only the duration also changes the timing
      function: it becomes the duration's text. */
  lemma DurationOverrideBecomesTiming(a: AnimationEntry, d: string)
    requires a.timingFunction == Val("ease-in")
    requires d != "ease-in"
    ensures var o := U.AnimationParams(a.name, Val(d), Null, Null);
      ApplyAsWritten(true, Some(a), Some(o)).style.timingFunction == d
      && ApplyAsWritten(true, Some(a), Some(o)).style.timingFunction != TextOr(o.timingFunction, a.timingFunction)
  {
  }

  /** Corrected, each property is its override when set and its base
      otherwise, so an all-null override applies the base exactly. */
  lemma ApplyResolvesEachField(a: AnimationEntry, o: AnimationEntry)
    requires a.duration.Val? && a.timingFunction.Val? && a.iterations.Val?
    ensures var st := Apply(true, Some(a), Some(o)).style;
      && st.duration == (if o.duration.Val? then o.duration.value else a.duration.value) + "ms"
      && st.timingFunction == (if o.timingFunction.Val? then o.timingFunction.value else a.timingFunction.value)
      && st.iterationCount == (if o.iterations.Val? then o.iterations.value else a.iterations.value)
    ensures o == NullOverride(a.name) ==>
      Apply(true, Some(a), Some(o)).style == AnimationStyle(a.name, a.duration.value + "ms", a.timingFunction.value, a.iterations.value)
  {
  }

  // ---------------------------------------------------------------------
  // The class

  /** The singleton `AnimationManager`. `styleText` is the text of the
      `dynamic-animation-styles` tag `createConfigs` writes. */
  class AnimationManager {
    var settings: Settings<AnimationEntry>
    var styleText: string

    ghost predicate Valid()
      reads this
    {
      Consistent(settings)
    }

    constructor ()
      ensures Valid() && settings == Settings(Empty(), Empty()) && styleText == ""
    {
      settings := Settings(Empty(), Empty());
      styleText := "";
    }

    /** The loop of `createConfigs`: every configured animation, in order,
        gets its keyframe block, base entry and all-null override. */
    static method CreateEntries(configs: JsMap<AnimationEntry>, overrides: JsMap<AnimationEntry>, config: JsMap<AnimationJson>)
      returns (configs': JsMap<AnimationEntry>, overrides': JsMap<AnimationEntry>, blocks: seq<string>)
      requires configs.Valid() && overrides.Valid() && config.Valid()
      ensures configs' == BaseEntries(configs, config, config.keys)
      ensures overrides' == NullOverrides(overrides, config.keys)
      ensures blocks == KeyframeBlocks(config, config.keys)
    {
      configs', overrides', blocks := configs, overrides, [];
      var keys := config.keys;
      for i := 0 to |keys|
        invariant configs' == BaseEntries(configs, config, keys[..i])
        invariant overrides' == NullOverrides(overrides, keys[..i])
        invariant blocks == KeyframeBlocks(config, keys[..i])
      {
        CreatedStep(configs, overrides, config, keys, i);
        KeyframeBlocksStep(config, keys, i);
        var name := keys[i];
        var entry := config.values[name];
        var css := BuildKeyframeCss(name, entry.keyframes);
        blocks := blocks + [css];
        configs' := configs'.Set(name, BaseEntry(name, entry));
        overrides' := overrides'.Set(name, NullOverride(name));
      }
      assert keys[..|keys|] == keys;
    }

    /** `createConfigs(config)`; the style tag receives every block, joined
        by newlines, plus a final newline. */
    method CreateConfigs(config: JsMap<AnimationJson>)
      requires Valid() && config.Valid()
      modifies this
      ensures Valid() && settings == Created(old(settings), config, config.keys)
      ensures styleText == Join(KeyframeBlocks(config, config.keys), '\n') + "\n"
    {
      CreateKeepsConsistent(settings, config);
      var configs, overrides, blocks := CreateEntries(settings.configs, settings.overrides, config);
      settings := Settings(configs, overrides);
      styleText := Join(blocks, '\n') + "\n";
    }

    /** The loop of `deconstructURL`: each given name's override from the
        URL. */
    static method ReadOverrides(overrides: JsMap<AnimationEntry>, names: seq<string>, params: UrlSearchParams)
      returns (r: JsMap<AnimationEntry>)
      requires overrides.Valid()
      ensures r == UrlOverrides(overrides, names, params.entries)
    {
      r := overrides;
      for i := 0 to |names|
        invariant r == UrlOverrides(overrides, names[..i], params.entries)
      {
        assert names[..i + 1][..i] == names[..i];
        var name := names[i];
        var duration := params.Get(U.AnimationKey(name, U.Duration));
        var iterations := params.Get(U.AnimationKey(name, U.Iterations));
        var timing := params.Get(U.AnimationKey(name, U.Timing));
        r := r.Set(name, U.AnimationParams(name, FromGet(duration), FromGet(timing), FromGet(iterations)));
      }
      assert names[..|names|] == names;
    }

    /** `deconstructURL(url)`, with the URL's parameters given. */
    method DeconstructUrl(params: UrlSearchParams)
      requires Valid()
      modifies this
      ensures Valid() && settings == Deconstruct(old(settings), old(settings.configs.keys), params.entries)
      ensures styleText == old(styleText)
    {
      DeconstructKeepsConsistent(settings, params.entries);
      var overrides := ReadOverrides(settings.overrides, settings.configs.keys, params);
      settings := Settings(settings.configs, overrides);
    }

    method ConstructSearchParams() returns (params: UrlSearchParams)
      requires Valid()
      ensures fresh(params) && params.entries == Construct(settings)
    {
      params := new UrlSearchParams();
      var overrides := settings.overrides;
      var keys := overrides.keys;
      for i := 0 to |keys|
        invariant params.entries == U.WriteAnimations(overrides, keys[..i], map[])
      {
        assert keys[..i + 1][..i] == keys[..i];
        params.entries := U.WriteAnimation(overrides.values[keys[i]], params.entries);
      }
      assert keys[..|keys|] == keys;
    }

    method Load(config: JsMap<AnimationJson>, params: UrlSearchParams)
      requires Valid() && config.Valid()
      modifies this
      ensures Valid() && settings == Loaded(old(settings), config, params.entries)
    {
      CreateConfigs(config);
      DeconstructUrl(params);
    }

    method GetAnimation(name: string) returns (r: Option<AnimationEntry>)
      ensures r == settings.GetConfig(name)
    {
      r := settings.configs.Get(name);
    }

    method GetAnimations() returns (r: seq<AnimationEntry>)
      requires Valid()
      ensures r == settings.GetConfigs()
    {
      r := settings.configs.Values();
    }
  }
}
