/** The settings reader of `src/settingsManager.ts`, the later form of
    `src/SettingsManager.ts`: alerts are read the same way but list their
    media as links, take their animation from `-anim`, and keep their own
    media lists unless a parameter is given. It also reads the configured
    animations, with a `-duration` parameter laid over each, and
    `loadConfig` hands them to the registry of `src/animation.ts`. The
    configuration and the URL parameters are passed in. */
module AnimatedOverlaySettings {
  import opened Js
  import opened JsMaps
  import opened Strings
  import opened SearchParams
  import opened Keyframes
  import opened CssText
  import NumberParsing
  import O = OverlaySettings
  import PageAnimations

  /** `AlertConfig`: the media as their links. */
  datatype AlertConfig = AlertConfig(name: string, color: string, audioSources: seq<string>, imageSources: seq<string>, timeout: int, animation: string)

  /** One entry of `animations`: a missing or null field is `None`. */
  datatype AnimationJson = AnimationJson(
    duration: Option<int>,
    timingFunction: Option<string>,
    iterationCount: Option<IterationCount>,
    keyframes: seq<Keyframe>)

  /** The parsed configuration: a missing or null table is `None`, and so
      is a null entry. */
  datatype RootJson = RootJson(
    alerts: Option<JsMap<Option<O.AlertJson>>>,
    audios: Option<O.MediaTable>,
    images: Option<O.MediaTable>,
    animations: Option<JsMap<Option<AnimationJson>>>)

  /** `this.config`: `None` before loading and when loading failed. */
  type Config = Option<RootJson>

  /** A parsed JSON object has every key once. */
  predicate ValidConfig(config: Config) {
    config.Some? ==>
      (config.value.alerts.Some? ==> config.value.alerts.value.Valid()) &&
      (config.value.animations.Some? ==> config.value.animations.value.Valid())
  }

  function AlertsOf(config: Config): Option<JsMap<Option<O.AlertJson>>> {
    if config.Some? then config.value.alerts else None
  }

  function AudiosOf(config: Config): Option<O.MediaTable> {
    if config.Some? then config.value.audios else None
  }

  function ImagesOf(config: Config): Option<O.MediaTable> {
    if config.Some? then config.value.images else None
  }

  function AnimationsOf(config: Config): Option<JsMap<Option<AnimationJson>>> {
    if config.Some? then config.value.animations else None
  }

  /** `this.config?.alerts?.[type] ?? null`, checked for truthiness. */
  function Entry(config: Config, alertType: string): (r: Option<O.AlertJson>)
    ensures r.Some? <==> AlertsOf(config).Some? && alertType in AlertsOf(config).value.values && AlertsOf(config).value.values[alertType].Some?
    ensures r.Some? ==> r == AlertsOf(config).value.values[alertType]
  {
    match AlertsOf(config)
    case None => None
    case Some(alerts) => if alertType in alerts.values then alerts.values[alertType] else None
  }

  /** `table?.[name] ?? null`: the link of a known name, even an empty one;
      null for an unknown name or a null link. */
  function LinkIn(table: Option<O.MediaTable>, name: string): (r: Option<string>)
    ensures r.Some? <==> table.Some? && name in table.value.values && table.value.values[name].Some?
    ensures r.Some? ==> r == table.value.values[name]
  {
    if table.Some? && name in table.value.values then table.value.values[name] else None
  }

  function LinkFn(table: Option<O.MediaTable>): string -> Option<string> {
    name => LinkIn(table, name)
  }

  /** The media names an alert lists: those of a given parameter split on
      ",", otherwise the entry's own; an empty parameter counts as absent. */
  function SourceNames(own: Option<seq<string>>, param: Option<string>): seq<string> {
    if O.Given(param) then Split(param.value, ',') else own.OrElse([])
  }

  /** `getAlert(type)` for a given configuration and URL parameters. */
  function AlertOf(config: Config, params: map<string, string>, alertType: string): (r: Option<AlertConfig>)
    ensures r.None? <==> Entry(config, alertType).None?
    ensures r.Some? ==> r.value.name == alertType
  {
    match Entry(config, alertType)
    case None => None
    case Some(json) =>
      var timeoutParam := O.PositiveParam(Lookup(params, alertType + "-timeout"));
      var animationParam := Lookup(params, alertType + "-anim");
      var colorParam := Lookup(params, alertType + "-color");
      var imageNames := SourceNames(json.imageSources, Lookup(params, alertType + "-images"));
      var audioNames := SourceNames(json.audioSources, Lookup(params, alertType + "-audios"));
      Some(AlertConfig(
        alertType,
        if O.Given(colorParam) then "#" + colorParam.value else json.color.OrElse(O.DefaultColor),
        MapDefined(audioNames, LinkFn(AudiosOf(config))),
        MapDefined(imageNames, LinkFn(ImagesOf(config))),
        timeoutParam.OrElse(json.timeout.OrElse(O.DefaultTimeout)),
        if O.Given(animationParam) then animationParam.value else json.animation.OrElse("")))
  }

  function AlertFn(config: Config, params: map<string, string>): string -> Option<AlertConfig> {
    alertType => AlertOf(config, params, alertType)
  }

  /** `getAlerts()`: each configured type's alert, in entry order, the null
      ones skipped. */
  function AllAlerts(config: Config, params: map<string, string>): seq<AlertConfig> {
    match AlertsOf(config)
    case None => []
    case Some(alerts) => MapDefined(alerts.keys, AlertFn(config, params))
  }

  const DefaultDuration: int := 2500

  /** One animation of `getAnimations()`: none for a null entry; otherwise
      its name, the `-duration` parameter when `parseInt` reads it as
      positive (else the entry's duration, or 2500), the entry's timing
      function (or "ease-in"), its iteration count (or 1) and its
      keyframes. */
  function AnimationAt(config: Config, params: map<string, string>, name: string): (r: Option<PageAnimations.AnimationConfig>)
    ensures r.Some? <==> AnimationsOf(config).Some? && name in AnimationsOf(config).value.values && AnimationsOf(config).value.values[name].Some?
    ensures r.Some? ==> r.value.name == name
  {
    match AnimationsOf(config)
    case None => None
    case Some(animations) =>
      if name !in animations.values || animations.values[name].None? then None
      else
        var json := animations.values[name].value;
        var duration := O.PositiveParam(Lookup(params, name + "-duration")).OrElse(json.duration.OrElse(DefaultDuration));
        Some(PageAnimations.AnimationConfig(name, duration, json.timingFunction.OrElse("ease-in"), json.iterationCount.OrElse(Count(1)), json.keyframes))
  }

  function AnimationFn(config: Config, params: map<string, string>): string -> Option<PageAnimations.AnimationConfig> {
    name => AnimationAt(config, params, name)
  }

  /** `getAnimations()`: [] without animations; otherwise each non-null
      entry's animation, in entry order. */
  function AllAnimations(config: Config, params: map<string, string>): seq<PageAnimations.AnimationConfig> {
    match AnimationsOf(config)
    case None => []
    case Some(animations) => MapDefined(animations.keys, AnimationFn(config, params))
  }

  // ---------------------------------------------------------------------
  // What getAlert promises

  /** An entry without fields, and no parameter for its type, gives every
      default: timeout 2500, no animation, white, no media. */
  lemma Defaults(config: Config, params: map<string, string>, alertType: string)
    requires Entry(config, alertType) == Some(O.AlertJson(None, None, None, None, None))
    requires alertType + "-timeout" !in params && alertType + "-anim" !in params && alertType + "-color" !in params
    requires alertType + "-images" !in params && alertType + "-audios" !in params
    ensures AlertOf(config, params, alertType) == Some(AlertConfig(alertType, "rgb(255,255,255)", [], [], 2500, ""))
  {
  }

  /** The animation comes from a given `-anim` parameter (the older reader's
      `-animation` is not read); the timeout from a `-timeout` parameter
      that `parseInt` reads as positive. */
  lemma ParamsRule(config: Config, params: map<string, string>, alertType: string)
    requires Entry(config, alertType).Some?
    ensures var json := Entry(config, alertType).value;
      var a := AlertOf(config, params, alertType).value;
      var anim := Lookup(params, alertType + "-anim");
      var p := Lookup(params, alertType + "-timeout");
      && a.animation == (if O.Given(anim) then anim.value else json.animation.OrElse(""))
      && a.animation == AlertOf(config, params - {alertType + "-animation"}, alertType).value.animation
      && (p.Some? && NumberParsing.ParseInt(p.value).Some? && NumberParsing.ParseInt(p.value).value > 0 ==> a.timeout == NumberParsing.ParseInt(p.value).value)
      && (p.None? || NumberParsing.ParseInt(p.value).None? || NumberParsing.ParseInt(p.value).value <= 0 ==> a.timeout == json.timeout.OrElse(2500))
  {
    var k := alertType + "-anim";
    var other := alertType + "-animation";
    assert k != other by {
      assert |k| != |other|;
    }
    assert Lookup(params - {other}, k) == Lookup(params, k);
    var p := Lookup(params, alertType + "-timeout");
    if p.Some? && p.value == "" {
      NumberParsing.ParseIntWithoutDigits();
      assert TrimStart("") == "";
    }
  }

  /** An empty `-images` parameter counts as absent: the entry's own list
      stays. */
  lemma EmptyImagesParamKeepsList(config: Config, params: map<string, string>, alertType: string)
    requires Entry(config, alertType).Some?
    requires Lookup(params, alertType + "-images") == Some("")
    ensures AlertOf(config, params, alertType).value.imageSources == AlertOf(config, params - {alertType + "-images"}, alertType).value.imageSources
    ensures AlertOf(config, params, alertType).value.imageSources ==
      MapDefined(Entry(config, alertType).value.imageSources.OrElse([]), LinkFn(ImagesOf(config)))
  {
    assert Lookup(params - {alertType + "-images"}, alertType + "-images").None?;
  }

  /** The images of an alert are exactly the links of the listed names the
      image table knows with a non-null link, an empty link included. */
  lemma ImageSourcesAreLinks(config: Config, params: map<string, string>, alertType: string, link: string)
    requires Entry(config, alertType).Some?
    ensures var names := SourceNames(Entry(config, alertType).value.imageSources, Lookup(params, alertType + "-images"));
      link in AlertOf(config, params, alertType).value.imageSources <==> exists i :: 0 <= i < |names| && LinkIn(ImagesOf(config), names[i]) == Some(link)
  {
    var names := SourceNames(Entry(config, alertType).value.imageSources, Lookup(params, alertType + "-images"));
    MapDefinedMembers(names, LinkFn(ImagesOf(config)), link);
    if exists i :: 0 <= i < |names| && LinkIn(ImagesOf(config), names[i]) == Some(link) {
      var i :| 0 <= i < |names| && LinkIn(ImagesOf(config), names[i]) == Some(link);
      assert LinkFn(ImagesOf(config))(names[i]) == Some(link);
    }
  }

  /** `getAlerts()` lists exactly the alerts `getAlert` gives for the
      configured types. */
  lemma AllAlertsAreTheirTypes(config: Config, params: map<string, string>, a: AlertConfig)
    requires ValidConfig(config)
    ensures a in AllAlerts(config, params) <==> AlertOf(config, params, a.name) == Some(a)
  {
    if AlertsOf(config).Some? {
      var alerts := AlertsOf(config).value;
      var f := AlertFn(config, params);
      MapDefinedMembers(alerts.keys, f, a);
      if a in AllAlerts(config, params) {
        var i :| 0 <= i < |alerts.keys| && f(alerts.keys[i]) == Some(a);
        assert AlertOf(config, params, alerts.keys[i]) == Some(a);
      }
      if AlertOf(config, params, a.name) == Some(a) {
        assert a.name in alerts.keys;
        var i :| 0 <= i < |alerts.keys| && alerts.keys[i] == a.name;
        assert f(alerts.keys[i]) == Some(a);
      }
    }
  }

  // ---------------------------------------------------------------------
  // What getAnimations promises

  /** Without an `animations` table there is no animation. */
  lemma NoAnimationsTable(config: Config, params: map<string, string>)
    requires AnimationsOf(config).None?
    ensures AllAnimations(config, params) == []
  {
  }

  /** An entry without fields, and no `-duration` parameter, gives 2500 ms,
      "ease-in" and one iteration. */
  lemma AnimationDefaults(config: Config, params: map<string, string>, name: string, keyframes: seq<Keyframe>)
    requires AnimationsOf(config).Some? && name in AnimationsOf(config).value.values
    requires AnimationsOf(config).value.values[name] == Some(AnimationJson(None, None, None, keyframes))
    requires name + "-duration" !in params
    ensures AnimationAt(config, params, name) == Some(PageAnimations.AnimationConfig(name, 2500, "ease-in", Count(1), keyframes))
  {
  }

  /** The `-duration` parameter replaces the duration exactly when
      `parseInt` reads it as a positive number. */
  lemma DurationRule(config: Config, params: map<string, string>, name: string)
    requires AnimationAt(config, params, name).Some?
    ensures var p := Lookup(params, name + "-duration");
      var own := AnimationsOf(config).value.values[name].value.duration.OrElse(2500);
      var d := AnimationAt(config, params, name).value.duration;
      && (p.Some? && NumberParsing.ParseInt(p.value).Some? && NumberParsing.ParseInt(p.value).value > 0 ==> d == NumberParsing.ParseInt(p.value).value)
      && (p.None? || NumberParsing.ParseInt(p.value).None? || NumberParsing.ParseInt(p.value).value <= 0 ==> d == own)
  {
    var p := Lookup(params, name + "-duration");
    if p.Some? && p.value == "" {
      NumberParsing.ParseIntWithoutDigits();
      assert TrimStart("") == "";
    }
  }

  /** `getAnimations()` lists exactly the animations of the non-null
      entries, each under its own name. */
  lemma AllAnimationsAreTheirNames(config: Config, params: map<string, string>, c: PageAnimations.AnimationConfig)
    requires ValidConfig(config)
    ensures c in AllAnimations(config, params) <==> AnimationAt(config, params, c.name) == Some(c)
  {
    if AnimationsOf(config).Some? {
      var animations := AnimationsOf(config).value;
      var f := AnimationFn(config, params);
      MapDefinedMembers(animations.keys, f, c);
      if c in AllAnimations(config, params) {
        var i :| 0 <= i < |animations.keys| && f(animations.keys[i]) == Some(c);
        assert AnimationAt(config, params, animations.keys[i]) == Some(c);
      }
      if AnimationAt(config, params, c.name) == Some(c) {
        assert c.name in animations.keys;
        var i :| 0 <= i < |animations.keys| && animations.keys[i] == c.name;
        assert f(animations.keys[i]) == Some(c);
      }
    }
  }

  /** After `loadConfig` on a page with a style tag, the registry holds a
      name exactly when the configuration has a non-null animation of that
      name. */
  lemma LoadRegistersConfigured(loaded: Config, params: map<string, string>, r: PageAnimations.Registry, name: string)
    requires r.Valid() && r.hasStyleTag && ValidConfig(loaded)
    ensures PageAnimations.Loaded(r, AllAnimations(loaded, params)).current.Has(name) <==> AnimationAt(loaded, params, name).Some?
  {
    var configs := AllAnimations(loaded, params);
    PageAnimations.RegisteredNames(configs, name);
    if exists i :: 0 <= i < |configs| && configs[i].name == name {
      var i :| 0 <= i < |configs| && configs[i].name == name;
      AllAnimationsAreTheirNames(loaded, params, configs[i]);
    }
    if AnimationAt(loaded, params, name).Some? {
      var c := AnimationAt(loaded, params, name).value;
      AllAnimationsAreTheirNames(loaded, params, c);
      var i :| 0 <= i < |configs| && configs[i] == c;
      assert configs[i].name == name;
    }
  }

  /** The singleton's state: the loaded configuration. */
  class AnimatedSettingsManager {
    var config: Config

    /** No configuration before `loadConfig`. */
    constructor ()
      ensures config == None
    {
      config := None;
    }

    /** `loadConfig(path)`, with what the fetch gave: the configuration
        stored, then its animations loaded into the registry (an array is
        never falsy, so they always are, even when there are none). */
    method LoadConfig(loaded: Config, params: map<string, string>, registry: PageAnimations.AnimationRegistry)
      requires registry.Valid()
      modifies this, registry
      ensures config == loaded
      ensures registry.Valid() && registry.State() == PageAnimations.Loaded(old(registry.State()), AllAnimations(loaded, params))
    {
      config := loaded;
      var animations := GetAnimations(params);
      registry.LoadAnimations(animations);
    }

    /** `getAudio(name)`: the link, or null. */
    function GetAudio(name: string): (r: Option<string>)
      reads this
      ensures r.Some? <==> AudiosOf(config).Some? && name in AudiosOf(config).value.values && AudiosOf(config).value.values[name].Some?
      ensures r.Some? ==> r == AudiosOf(config).value.values[name]
    {
      LinkIn(AudiosOf(config), name)
    }

    /** `getImage(name)`: the link, or null. */
    function GetImage(name: string): (r: Option<string>)
      reads this
      ensures r.Some? <==> ImagesOf(config).Some? && name in ImagesOf(config).value.values && ImagesOf(config).value.values[name].Some?
      ensures r.Some? ==> r == ImagesOf(config).value.values[name]
    {
      LinkIn(ImagesOf(config), name)
    }

    /** `getAlert(type)`: the entry's fields with the type's URL parameters
        laid over them one after the other. */
    method GetAlert(alertType: string, params: map<string, string>) returns (r: Option<AlertConfig>)
      ensures r == AlertOf(config, params, alertType)
    {
      var entry := Entry(config, alertType);
      if entry.None? {
        return None;
      }
      var json := entry.value;
      var timeout := json.timeout.OrElse(2500);
      var animation := json.animation.OrElse("");
      var color := json.color.OrElse("rgb(255,255,255)");
      var imageSourceNames := json.imageSources.OrElse([]);
      var audioSourceNames := json.audioSources.OrElse([]);

      var timeoutString := Lookup(params, alertType + "-timeout");
      if O.Given(timeoutString) {
        var parsed := NumberParsing.ParseInt(timeoutString.value);
        if parsed.Some? && parsed.value > 0 {
          timeout := parsed.value;
        }
      }
      var animationString := Lookup(params, alertType + "-anim");
      if O.Given(animationString) {
        animation := animationString.value;
      }
      var colorString := Lookup(params, alertType + "-color");
      if O.Given(colorString) {
        color := "#" + colorString.value;
      }
      var imageSourceString := Lookup(params, alertType + "-images");
      if O.Given(imageSourceString) {
        imageSourceNames := Split(imageSourceString.value, ',');
      }
      var imageSources := MapDefined(imageSourceNames, LinkFn(ImagesOf(config)));
      var audioSourceString := Lookup(params, alertType + "-audios");
      if O.Given(audioSourceString) {
        audioSourceNames := Split(audioSourceString.value, ',');
      }
      var audioSources := MapDefined(audioSourceNames, LinkFn(AudiosOf(config)));
      r := Some(AlertConfig(alertType, color, audioSources, imageSources, timeout, animation));
    }

    /** `getAlerts()`: every configured type's alert pushed in entry order,
        the null ones skipped. */
    method GetAlerts(params: map<string, string>) returns (results: seq<AlertConfig>)
      ensures results == AllAlerts(config, params)
    {
      var alerts := AlertsOf(config);
      if alerts.None? {
        return [];
      }
      var types := alerts.value.keys;
      results := [];
      for i := 0 to |types|
        invariant results == MapDefined(types[..i], AlertFn(config, params))
      {
        var alertConfig := GetAlert(types[i], params);
        MapDefinedPush(types, AlertFn(config, params), i, results, alertConfig);
        if alertConfig.None? {
          continue;
        }
        results := results + [alertConfig.value];
      }
      assert types[..|types|] == types;
    }

    /** `getAnimations()`: each non-null entry's animation pushed in entry
        order. */
    method GetAnimations(params: map<string, string>) returns (finalAnimations: seq<PageAnimations.AnimationConfig>)
      ensures finalAnimations == AllAnimations(config, params)
    {
      var animations := AnimationsOf(config);
      if animations.None? {
        return [];
      }
      var names := animations.value.keys;
      finalAnimations := [];
      for i := 0 to |names|
        invariant finalAnimations == MapDefined(names[..i], AnimationFn(config, params))
      {
        MapDefinedStep(names, AnimationFn(config, params), i);
        var animationName := names[i];
        if animationName !in animations.value.values || animations.value.values[animationName].None? {
          continue;
        }
        var animationConfig := animations.value.values[animationName].value;
        var duration := animationConfig.duration;
        var urlDurationString := Lookup(params, animationName + "-duration");
        if O.Given(urlDurationString) {
          var parsedDuration := NumberParsing.ParseInt(urlDurationString.value);
          if parsedDuration.Some? && parsedDuration.value > 0 {
            duration := parsedDuration;
          }
        }
        var animation := PageAnimations.AnimationConfig(
          animationName, duration.OrElse(2500), animationConfig.timingFunction.OrElse("ease-in"),
          animationConfig.iterationCount.OrElse(Count(1)), animationConfig.keyframes);
        finalAnimations := finalAnimations + [animation];
      }
      assert names[..|names|] == names;
    }
  }
}
