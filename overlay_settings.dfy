/** The settings reader of `src/SettingsManager.ts`: the overlay's parsed
    JSON configuration, read per alert type with the page's URL parameters
    laid over it. Media names resolve to `{name, link}` through the
    configuration's image and audio tables. The configuration (what
    `loadConfig` fetched) and the URL parameters are passed in. */
module OverlaySettings {
  import opened Js
  import opened JsMaps
  import opened Strings
  import opened NumberParsing
  import opened SearchParams

  /** `MediaData` */
  datatype MediaData = MediaData(name: string, link: string)

  /** `AlertConfig` */
  datatype AlertConfig = AlertConfig(name: string, color: string, audioSources: seq<MediaData>, imageSources: seq<MediaData>, timeout: int, animation: string)

  /** One entry of `alerts`: a missing or null field is `None`. */
  datatype AlertJson = AlertJson(
    timeout: Option<int>,
    animation: Option<string>,
    color: Option<string>,
    imageSources: Option<seq<string>>,
    audioSources: Option<seq<string>>)

  /** A table of media links by name; a null link is `None`. */
  type MediaTable = JsMap<Option<string>>

  /** The parsed configuration: a missing or null table is `None`, and so
      is a null alert entry. */
  datatype RootJson = RootJson(alerts: Option<JsMap<Option<AlertJson>>>, audios: Option<MediaTable>, images: Option<MediaTable>)

  /** `this.config`: `None` before loading and when loading failed. */
  type Config = Option<RootJson>

  /** A parsed JSON object has every key once. */
  predicate ValidConfig(config: Config) {
    config.Some? ==>
      (config.value.alerts.Some? ==> config.value.alerts.value.Valid()) &&
      (config.value.audios.Some? ==> config.value.audios.value.Valid()) &&
      (config.value.images.Some? ==> config.value.images.value.Valid())
  }

  function AlertsOf(config: Config): Option<JsMap<Option<AlertJson>>> {
    if config.Some? then config.value.alerts else None
  }

  function AudiosOf(config: Config): Option<MediaTable> {
    if config.Some? then config.value.audios else None
  }

  function ImagesOf(config: Config): Option<MediaTable> {
    if config.Some? then config.value.images else None
  }

  /** A URL parameter that counts as given: present and not empty. */
  predicate Given(param: Option<string>) {
    param.Some? && param.value != ""
  }

  /** `this.config?.alerts?.[type] ?? null`, checked for truthiness: the
      entry of a configured type, and nothing for an unknown type or a null
      entry. */
  function Entry(config: Config, alertType: string): (r: Option<AlertJson>)
    ensures r.Some? <==> AlertsOf(config).Some? && alertType in AlertsOf(config).value.values && AlertsOf(config).value.values[alertType].Some?
    ensures r.Some? ==> r == AlertsOf(config).value.values[alertType]
  {
    match AlertsOf(config)
    case None => None
    case Some(alerts) => if alertType in alerts.values then alerts.values[alertType] else None
  }

  /** A media table's entry read as `{name, link}`, kept only when the link
      is truthy (neither null nor empty). */
  function MediaIn(table: Option<MediaTable>, name: string): (r: Option<MediaData>)
    ensures r.Some? ==> r.value.name == name && r.value.link != ""
    ensures r.Some? <==> table.Some? && name in table.value.values && Given(table.value.values[name])
  {
    if table.Some? && name in table.value.values && Given(table.value.values[name])
    then Some(MediaData(name, table.value.values[name].value))
    else None
  }

  function MediaFn(table: Option<MediaTable>): string -> Option<MediaData> {
    name => MediaIn(table, name)
  }

  /** A parameter that replaces a number: given, and read by `parseInt` as
      a positive number. */
  function PositiveParam(param: Option<string>): (r: Option<int>)
    ensures r.Some? ==> r.value > 0 && param.Some? && ParseInt(param.value) == r
    ensures r.None? ==> param.None? || ParseInt(param.value).None? || ParseInt(param.value).value <= 0
  {
    if Given(param) then
      var parsed := ParseInt(param.value);
      if parsed.Some? && parsed.value > 0 then parsed else None
    else None
  }

  const DefaultTimeout: int := 2500
  const DefaultColor: string := "rgb(255,255,255)"

  /** The media names an alert lists: those of a present parameter (even an
      empty one) split on ",", otherwise the entry's own. */
  function SourceNames(own: Option<seq<string>>, param: Option<string>): seq<string> {
    if param.Some? then Split(param.value, ',') else own.OrElse([])
  }

  /** `getAlert(type)` for a given configuration and URL parameters. */
  function AlertOf(config: Config, params: map<string, string>, alertType: string): (r: Option<AlertConfig>)
    ensures r.None? <==> Entry(config, alertType).None?
    ensures r.Some? ==> r.value.name == alertType
  {
    match Entry(config, alertType)
    case None => None
    case Some(json) =>
      var timeoutParam := PositiveParam(Lookup(params, alertType + "-timeout"));
      var animationParam := Lookup(params, alertType + "-animation");
      var colorParam := Lookup(params, alertType + "-color");
      var imageNames := SourceNames(json.imageSources, Lookup(params, alertType + "-images"));
      var audioNames := SourceNames(json.audioSources, Lookup(params, alertType + "-audios"));
      Some(AlertConfig(
        alertType,
        if Given(colorParam) then "#" + colorParam.value else json.color.OrElse(DefaultColor),
        MapDefined(audioNames, MediaFn(AudiosOf(config))),
        MapDefined(imageNames, MediaFn(ImagesOf(config))),
        timeoutParam.OrElse(json.timeout.OrElse(DefaultTimeout)),
        if Given(animationParam) then animationParam.value else json.animation.OrElse("")))
  }

  function AlertFn(config: Config, params: map<string, string>): string -> Option<AlertConfig> {
    alertType => AlertOf(config, params, alertType)
  }

  /** `getAlerts()`: each configured type's alert, in entry order, the null
      ones skipped. */
  function AllAlerts(config: Config, params: map<string, string>): seq<AlertConfig> {
    match AlertsOf(config)
    case None => []
    case Some(alerts) => MapDefined(alerts.keys, AlertFn(config, params))
  }

  /** `getAudios()` and `getImages()` on their table: each entry with a
      truthy link, in entry order. */
  function AllMedia(table: Option<MediaTable>): seq<MediaData> {
    match table
    case None => []
    case Some(t) => MapDefined(t.keys, MediaFn(table))
  }

  // ---------------------------------------------------------------------
  // What getAlert promises

  /** An entry without fields, and no parameter for its type, gives every
      default: timeout 2500, no animation, white, no media. */
  lemma Defaults(config: Config, params: map<string, string>, alertType: string)
    requires Entry(config, alertType) == Some(AlertJson(None, None, None, None, None))
    requires alertType + "-timeout" !in params && alertType + "-animation" !in params && alertType + "-color" !in params
    requires alertType + "-images" !in params && alertType + "-audios" !in params
    ensures AlertOf(config, params, alertType) == Some(AlertConfig(alertType, "rgb(255,255,255)", [], [], 2500, ""))
  {
  }

  /** The `-timeout` parameter replaces the timeout exactly when `parseInt`
      reads it as a positive number; otherwise the entry's timeout, or
      2500, stays. */
  lemma TimeoutRule(config: Config, params: map<string, string>, alertType: string)
    requires Entry(config, alertType).Some?
    ensures var p := Lookup(params, alertType + "-timeout");
      var own := Entry(config, alertType).value.timeout.OrElse(2500);
      var t := AlertOf(config, params, alertType).value.timeout;
      && (p.Some? && ParseInt(p.value).Some? && ParseInt(p.value).value > 0 ==> t == ParseInt(p.value).value)
      && (p.None? || ParseInt(p.value).None? || ParseInt(p.value).value <= 0 ==> t == own)
  {
    var p := Lookup(params, alertType + "-timeout");
    if p.Some? && p.value == "" {
      ParseIntWithoutDigits();
      assert TrimStart("") == "";
    }
  }

  /** `parseInt` reads the digits in front of a unit: `-timeout=12px` is a
      timeout of 12. */
  lemma TimeoutReadsLeadingDigits(config: Config, params: map<string, string>, alertType: string)
    requires Entry(config, alertType).Some?
    requires Lookup(params, alertType + "-timeout") == Some("12px")
    ensures AlertOf(config, params, alertType).value.timeout == 12
  {
    ParseIntStopsAtNonDigit();
  }

  /** A given `-animation` parameter replaces the animation, and a given
      `-color` parameter becomes the color with a "#" in front; absent or
      empty ones leave the entry's value, or the default. */
  lemma TextParamsRule(config: Config, params: map<string, string>, alertType: string)
    requires Entry(config, alertType).Some?
    ensures var json := Entry(config, alertType).value;
      var a := AlertOf(config, params, alertType).value;
      var animation := Lookup(params, alertType + "-animation");
      var color := Lookup(params, alertType + "-color");
      && a.animation == (if Given(animation) then animation.value else json.animation.OrElse(""))
      && a.color == (if Given(color) then "#" + color.value else json.color.OrElse("rgb(255,255,255)"))
  {
  }

  /** The images of an alert are exactly the listed names the image table
      knows with a truthy link, each as `{name, link}`; the list is the
      `-images` parameter's whenever it is present. */
  lemma ImageSourcesAreKnown(config: Config, params: map<string, string>, alertType: string, m: MediaData)
    requires Entry(config, alertType).Some?
    ensures var p := Lookup(params, alertType + "-images");
      var names := if p.Some? then Split(p.value, ',') else Entry(config, alertType).value.imageSources.OrElse([]);
      m in AlertOf(config, params, alertType).value.imageSources <==> m.name in names && MediaIn(ImagesOf(config), m.name) == Some(m)
  {
    var p := Lookup(params, alertType + "-images");
    var names := SourceNames(Entry(config, alertType).value.imageSources, p);
    MapDefinedMembers(names, MediaFn(ImagesOf(config)), m);
    if m.name in names && MediaIn(ImagesOf(config), m.name) == Some(m) {
      var i :| 0 <= i < |names| && names[i] == m.name;
      assert MediaFn(ImagesOf(config))(names[i]) == Some(m);
    }
  }

  /** The audios of an alert are exactly the listed names the audio table
      knows with a truthy link; the list is the `-audios` parameter's
      whenever it is present. */
  lemma AudioSourcesAreKnown(config: Config, params: map<string, string>, alertType: string, m: MediaData)
    requires Entry(config, alertType).Some?
    ensures var p := Lookup(params, alertType + "-audios");
      var names := if p.Some? then Split(p.value, ',') else Entry(config, alertType).value.audioSources.OrElse([]);
      m in AlertOf(config, params, alertType).value.audioSources <==> m.name in names && MediaIn(AudiosOf(config), m.name) == Some(m)
  {
    var p := Lookup(params, alertType + "-audios");
    var names := SourceNames(Entry(config, alertType).value.audioSources, p);
    MapDefinedMembers(names, MediaFn(AudiosOf(config)), m);
    if m.name in names && MediaIn(AudiosOf(config), m.name) == Some(m) {
      var i :| 0 <= i < |names| && names[i] == m.name;
      assert MediaFn(AudiosOf(config))(names[i]) == Some(m);
    }
  }

  /** An empty `-images` parameter is still present: it replaces the
      entry's list by the one empty name, so the alert shows no image,
      whatever the entry lists. */
  lemma EmptyImagesParamClearsImages(config: Config, params: map<string, string>, alertType: string)
    requires Entry(config, alertType).Some?
    requires Lookup(params, alertType + "-images") == Some("")
    requires MediaIn(ImagesOf(config), "").None?
    ensures AlertOf(config, params, alertType).value.imageSources == []
  {
    assert Split("", ',') == [""];
    assert MapDefined([""], MediaFn(ImagesOf(config))) == [] by {
      assert [""][..0] == [];
    }
  }

  // ---------------------------------------------------------------------
  // What getAlerts, getAudios and getImages promise

  /** `getAlerts()` lists exactly the alerts `getAlert` gives for the
      configured types: each listed alert is its own type's, and every
      configured, non-null type is listed. */
  lemma AllAlertsAreTheirTypes(config: Config, params: map<string, string>, a: AlertConfig)
    requires ValidConfig(config)
    ensures a in AllAlerts(config, params) <==> AlertOf(config, params, a.name) == Some(a)
  {
    if AlertsOf(config).Some? {
      var alerts := AlertsOf(config).value;
      var f := AlertFn(config, params);
      MapDefinedMembers(alerts.keys, f, a);
      if a in AllAlerts(config, params) {
        var i :| 0 <= i < |alerts.keys| && f(alerts.keys[i]) == Some(a);
        assert AlertOf(config, params, alerts.keys[i]) == Some(a);
      }
      if AlertOf(config, params, a.name) == Some(a) {
        assert a.name in alerts.keys;
        var i :| 0 <= i < |alerts.keys| && alerts.keys[i] == a.name;
        assert f(alerts.keys[i]) == Some(a);
      }
    }
  }

  /** Without null entries, `getAlerts()` has one alert per configured
      type, in entry order. */
  lemma OneAlertPerType(config: Config, params: map<string, string>)
    requires ValidConfig(config) && AlertsOf(config).Some?
    requires forall k :: k in AlertsOf(config).value.values ==> AlertsOf(config).value.values[k].Some?
    ensures |AllAlerts(config, params)| == |AlertsOf(config).value.keys|
    ensures forall i :: 0 <= i < |AlertsOf(config).value.keys| ==> AllAlerts(config, params)[i].name == AlertsOf(config).value.keys[i]
  {
    var alerts := AlertsOf(config).value;
    var f := AlertFn(config, params);
    assert forall i :: 0 <= i < |alerts.keys| ==> f(alerts.keys[i]).Some? by {
      forall i | 0 <= i < |alerts.keys|
        ensures f(alerts.keys[i]).Some?
      {
        assert alerts.keys[i] in alerts.values;
      }
    }
    MapDefinedAllDefined(alerts.keys, f);
  }

  /** `getAudios()`/`getImages()` list exactly the table's entries with a
      truthy link, each as `{name, link}`. */
  lemma AllMediaAreKnown(table: Option<MediaTable>, m: MediaData)
    requires table.Some? ==> table.value.Valid()
    ensures m in AllMedia(table) <==> MediaIn(table, m.name) == Some(m)
  {
    if table.Some? {
      var t := table.value;
      var f := MediaFn(table);
      MapDefinedMembers(t.keys, f, m);
      if m in AllMedia(table) {
        var i :| 0 <= i < |t.keys| && f(t.keys[i]) == Some(m);
        assert MediaIn(table, t.keys[i]) == Some(m);
      }
      if MediaIn(table, m.name) == Some(m) {
        var i :| 0 <= i < |t.keys| && t.keys[i] == m.name;
        assert f(t.keys[i]) == Some(m);
      }
    }
  }

  /** The singleton's state: the loaded configuration. */
  class SettingsManager {
    var config: Config

    /** No configuration before `loadConfig`. */
    constructor ()
      ensures config == None
    {
      config := None;
    }

    /** `loadConfig(path)`, with what the fetch gave (or `None` when it
        failed). */
    method LoadConfig(loaded: Config)
      modifies this
      ensures config == loaded
    {
      config := loaded;
    }

    /** `getAudio(name)`: `{name, link}` for a name the audio table knows
        with a truthy link, null otherwise. */
    function GetAudio(name: string): (r: Option<MediaData>)
      reads this
      ensures r.Some? <==> AudiosOf(config).Some? && name in AudiosOf(config).value.values && Given(AudiosOf(config).value.values[name])
      ensures r.Some? ==> r.value == MediaData(name, AudiosOf(config).value.values[name].value)
    {
      MediaIn(AudiosOf(config), name)
    }

    /** `getImage(name)`: `{name, link}` for a name the image table knows
        with a truthy link, null otherwise. */
    function GetImage(name: string): (r: Option<MediaData>)
      reads this
      ensures r.Some? <==> ImagesOf(config).Some? && name in ImagesOf(config).value.values && Given(ImagesOf(config).value.values[name])
      ensures r.Some? ==> r.value == MediaData(name, ImagesOf(config).value.values[name].value)
    {
      MediaIn(ImagesOf(config), name)
    }

    /** `getAlert(type)`: the entry's fields with the type's URL parameters
        laid over them one after the other. */
    method GetAlert(alertType: string, params: map<string, string>) returns (r: Option<AlertConfig>)
      ensures r == AlertOf(config, params, alertType)
    {
      var entry := Entry(config, alertType);
      if entry.None? {
        return None;
      }
      var json := entry.value;
      var timeout := json.timeout.OrElse(2500);
      var animation := json.animation.OrElse("");
      var color := json.color.OrElse("rgb(255,255,255)");
      var imageSourceNames := json.imageSources.OrElse([]);
      var audioSourceNames := json.audioSources.OrElse([]);

      var timeoutString := Lookup(params, alertType + "-timeout");
      if Given(timeoutString) {
        var parsed := ParseInt(timeoutString.value);
        if parsed.Some? && parsed.value > 0 {
          timeout := parsed.value;
        }
      }
      var animationString := Lookup(params, alertType + "-animation");
      if Given(animationString) {
        animation := animationString.value;
      }
      var colorString := Lookup(params, alertType + "-color");
      if Given(colorString) {
        color := "#" + colorString.value;
      }
      var imageSourceString := Lookup(params, alertType + "-images");
      if imageSourceString.Some? {
        imageSourceNames := Split(imageSourceString.value, ',');
      }
      var imageSources := MapDefined(imageSourceNames, MediaFn(ImagesOf(config)));
      var audioSourceString := Lookup(params, alertType + "-audios");
      if audioSourceString.Some? {
        audioSourceNames := Split(audioSourceString.value, ',');
      }
      var audioSources := MapDefined(audioSourceNames, MediaFn(AudiosOf(config)));
      r := Some(AlertConfig(alertType, color, audioSources, imageSources, timeout, animation));
    }

    /** `getAlerts()`: every configured type's alert pushed in entry order,
        the null ones skipped. */
    method GetAlerts(params: map<string, string>) returns (results: seq<AlertConfig>)
      ensures results == AllAlerts(config, params)
    {
      var alerts := AlertsOf(config);
      if alerts.None? {
        return [];
      }
      var types := alerts.value.keys;
      results := [];
      for i := 0 to |types|
        invariant results == MapDefined(types[..i], AlertFn(config, params))
      {
        var alertConfig := GetAlert(types[i], params);
        MapDefinedPush(types, AlertFn(config, params), i, results, alertConfig);
        if alertConfig.None? {
          continue;
        }
        results := results + [alertConfig.value];
      }
      assert types[..|types|] == types;
    }

    /** `getAudios()` */
    method GetAudios() returns (results: seq<MediaData>)
      ensures results == AllMedia(AudiosOf(config))
    {
      results := CollectMedia(AudiosOf(config));
    }

    /** `getImages()` */
    method GetImages() returns (results: seq<MediaData>)
      ensures results == AllMedia(ImagesOf(config))
    {
      results := CollectMedia(ImagesOf(config));
    }

    /** The loop `getAudios` and `getImages` share: each name of the table
        looked up and pushed when its link is truthy. */
    static method CollectMedia(table: Option<MediaTable>) returns (results: seq<MediaData>)
      ensures results == AllMedia(table)
    {
      if table.None? {
        return [];
      }
      var names := table.value.keys;
      results := [];
      for i := 0 to |names|
        invariant results == MapDefined(names[..i], MediaFn(table))
      {
        MapDefinedStep(names, MediaFn(table), i);
        var media := MediaIn(table, names[i]);
        if media.None? {
          continue;
        }
        results := results + [media.value];
      }
      assert names[..|names|] == names;
    }
  }
}
