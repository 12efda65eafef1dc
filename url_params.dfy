/** The singleton `URLParser` of `src/URLParser.ts`: it reads the overlay's
    settings out of the page's URL parameters into plain records and writes
    them back into a new URL. Each section (config, alerts, animations,
    font, Archipelago connection, image) has a reader and a writer; the
    reader and writer functions below are what the class's methods do to its
    fields and to the parameters. */
module UrlParams {
  import opened Js
  import opened Strings
  import opened JsValues
  import opened JsMaps
  import opened SearchParams
  import opened SearchParamHelpers
  import AlertOverrides

  datatype AlertParams = AlertParams(
    name: string,
    color: Nullable<string>,
    timeout: Nullable<string>,
    animation: Nullable<string>,
    audios: Nullable<seq<string>>,
    images: Nullable<seq<string>>)

  datatype AnimationParams = AnimationParams(
    name: string,
    duration: Nullable<string>,
    timingFunction: Nullable<string>,
    iterations: Nullable<string>)

  datatype FontParams = FontParams(
    font: Nullable<string>,
    style: Nullable<string>,
    size: Nullable<string>,
    strokeWidth: Nullable<string>,
    shadow: Nullable<string>)

  datatype ArchipelagoParams = ArchipelagoParams(
    url: Nullable<string>,
    slots: Nullable<seq<string>>,
    password: Nullable<string>)

  datatype ImageParams = ImageParams(
    width: Nullable<string>,
    height: Nullable<string>,
    contrast: Nullable<string>)

  /** A list field as it reads back after being written: a list is always
      written, and the empty list comes back as `[""]`. */
  function ListReadBack(x: Nullable<seq<string>>): (r: Nullable<seq<string>>)
    ensures r.Val? <==> x.Val?
    ensures x.Val? && x.value != [] ==> r == x
  {
    match x
    case Val(xs) => if xs == [] then Val([""]) else x
    case _ => Undefined
  }

  /** A list field that travels: no element holds the separator. */
  predicate ListTravels(x: Nullable<seq<string>>) {
    x.Val? ==> SeparatorFree(x.value, ',')
  }

  lemma ListReadsBack(x: Nullable<seq<string>>, text: Option<string>)
    requires ListTravels(x)
    requires text == if Truthy(ListSlot(x)) then Some(ToText(ListSlot(x))) else None
    ensures AlertOverrides.SplitList(text) == ListReadBack(x)
  {
    if x.Val? {
      StrListText(x.value);
      if x.value != [] {
        SplitJoin(x.value, ',');
      }
    }
  }

  // ---------------------------------------------------------------------
  // config

  /** `deconstructConfigParams`: `params.get("config") || "config"`. */
  function ReadConfig(params: map<string, string>): (r: string)
    ensures r != ""
    ensures "config" in params && params["config"] != "" ==> r == params["config"]
  {
    match Lookup(params, "config")
    case Some(c) => if c != "" then c else "config"
    case None => "config"
  }

  /** `constructConfigParams`: the key is always written. */
  function WriteConfig(configParams: Nullable<string>, e: map<string, string>): (r: map<string, string>)
    ensures "config" in r
  {
    e["config" := ToText(StrSlot(configParams))]
  }

  lemma ConfigRoundTrip(c: string, e: map<string, string>)
    ensures ReadConfig(WriteConfig(Val(c), e)) == if c == "" then "config" else c
  {
  }

  // ---------------------------------------------------------------------
  // alerts

  datatype AlertField = Color | Timeout | AnimationName | Audios | Images

  function AlertSuffix(f: AlertField): (s: string)
    ensures |s| >= 2
  {
    match f
    case Color => "-color"
    case Timeout => "-timeout"
    case AnimationName => "-animation"
    case Audios => "-audios"
    case Images => "-images"
  }

  function AlertKey(name: string, f: AlertField): string {
    name + AlertSuffix(f)
  }

  /** Alert keys never collide: a key determines the alert and the field. */
  lemma AlertKeyInjective(n1: string, f1: AlertField, n2: string, f2: AlertField)
    requires AlertKey(n1, f1) == AlertKey(n2, f2)
    ensures n1 == n2 && f1 == f2
  {
    var k := AlertKey(n1, f1);
    var s1, s2 := AlertSuffix(f1), AlertSuffix(f2);
    assert k[|k| - 1] == s1[|s1| - 1] == s2[|s2| - 1];
    assert k[|k| - 2] == s1[|s1| - 2] == s2[|s2| - 2];
    assert f1 == f2;
    assert n1 == k[..|n1|] && n2 == k[..|n2|];
  }

  function AlertValue(p: AlertParams, f: AlertField): JsValue {
    match f
    case Color => StrSlot(p.color)
    case Timeout => StrSlot(p.timeout)
    case AnimationName => StrSlot(p.animation)
    case Audios => ListSlot(p.audios)
    case Images => ListSlot(p.images)
  }

  /** One configured alert, read from its keys: an absent key leaves the
      field unset, and a present one is read so that its text is the
      parameter again. */
  function ReadAlert(name: string, params: map<string, string>): (p: AlertParams)
    ensures p.name == name
    ensures forall f :: AlertKey(name, f) !in params <==> AlertValue(p, f).IsUnset()
    ensures forall f :: AlertKey(name, f) in params ==> ToText(AlertValue(p, f)) == params[AlertKey(name, f)]
  {
    var p := AlertParams(name,
      FromGet(Lookup(params, AlertKey(name, Color))),
      FromGet(Lookup(params, AlertKey(name, Timeout))),
      FromGet(Lookup(params, AlertKey(name, AnimationName))),
      AlertOverrides.SplitList(Lookup(params, AlertKey(name, Audios))),
      AlertOverrides.SplitList(Lookup(params, AlertKey(name, Images))));
    assert forall f :: AlertKey(name, f) in params ==> ToText(AlertValue(p, f)) == params[AlertKey(name, f)] by {
      forall f | AlertKey(name, f) in params
        ensures ToText(AlertValue(p, f)) == params[AlertKey(name, f)]
      {
        if f == Audios || f == Images {
          var text := params[AlertKey(name, f)];
          StrListText(Split(text, ','));
          JoinSplit(text, ',');
        }
      }
    }
    p
  }

  /** `deconstructAlertParams`: the map is cleared and refilled with one
      entry per configured alert, whatever it held before. */
  function ReadAlerts(alerts: seq<string>, params: map<string, string>): (m: JsMap<AlertParams>)
    ensures m.Valid()
    ensures forall k :: m.Get(k) == if k in alerts then Some(ReadAlert(k, params)) else None
    decreases |alerts|
  {
    if |alerts| == 0 then Empty()
    else
      var init := alerts[..|alerts| - 1];
      var last := alerts[|alerts| - 1];
      assert forall k :: k in alerts <==> k in init || k == last by {
        assert alerts == init + [last];
      }
      ReadAlerts(init, params).Set(last, ReadAlert(last, params))
  }

  lemma ReadAlertsStep(alerts: seq<string>, i: nat, params: map<string, string>)
    requires i < |alerts|
    ensures ReadAlerts(alerts[..i + 1], params) == ReadAlerts(alerts[..i], params).Set(alerts[i], ReadAlert(alerts[i], params))
  {
    assert alerts[..i + 1][..i] == alerts[..i];
  }

  /** The fields of one alert in the order `constructAlertParams` writes
      them. */
  const AlertFields: seq<AlertField> := [Color, Timeout, AnimationName, Audios, Images]

  /** The listed fields of one alert that are truthy, under its own name. */
  function WriteAlertFields(p: AlertParams, fs: seq<AlertField>, e: map<string, string>): map<string, string>
    decreases |fs|
  {
    if |fs| == 0 then e
    else
      var f := fs[|fs| - 1];
      SetIfTruthy(WriteAlertFields(p, fs[..|fs| - 1], e), AlertKey(p.name, f), AlertValue(p, f))
  }

  lemma {:induction false} WriteAlertFieldsLookup(p: AlertParams, fs: seq<AlertField>, e: map<string, string>, n: string, f: AlertField)
    ensures Lookup(WriteAlertFields(p, fs, e), AlertKey(n, f)) ==
      if n == p.name && f in fs && Truthy(AlertValue(p, f)) then Some(ToText(AlertValue(p, f)))
      else Lookup(e, AlertKey(n, f))
    decreases |fs|
  {
    if |fs| > 0 {
      var init, g := fs[..|fs| - 1], fs[|fs| - 1];
      assert fs == init + [g];
      WriteAlertFieldsLookup(p, init, e, n, f);
      if AlertKey(n, f) == AlertKey(p.name, g) {
        AlertKeyInjective(n, f, p.name, g);
      }
    }
  }

  lemma WriteAlertLookup(p: AlertParams, e: map<string, string>)
    ensures forall n, f :: Lookup(WriteAlertFields(p, AlertFields, e), AlertKey(n, f)) ==
               (if n == p.name && Truthy(AlertValue(p, f)) then Some(ToText(AlertValue(p, f))) else Lookup(e, AlertKey(n, f)))
  {
    forall n, f ensures Lookup(WriteAlertFields(p, AlertFields, e), AlertKey(n, f)) ==
      (if n == p.name && Truthy(AlertValue(p, f)) then Some(ToText(AlertValue(p, f))) else Lookup(e, AlertKey(n, f)))
    {
      WriteAlertFieldsLookup(p, AlertFields, e, n, f);
      assert f in AlertFields by {
        match f
        case Color => assert AlertFields[0] == f;
        case Timeout => assert AlertFields[1] == f;
        case AnimationName => assert AlertFields[2] == f;
        case Audios => assert AlertFields[3] == f;
        case Images => assert AlertFields[4] == f;
      }
    }
  }

  /** One alert's truthy fields, under its own name; no other alert's keys
      change. */
  function WriteAlert(p: AlertParams, e: map<string, string>): (r: map<string, string>)
    ensures forall f :: Lookup(r, AlertKey(p.name, f)) ==
               (if Truthy(AlertValue(p, f)) then Some(ToText(AlertValue(p, f))) else Lookup(e, AlertKey(p.name, f)))
    ensures forall n, f :: n != p.name ==> Lookup(r, AlertKey(n, f)) == Lookup(e, AlertKey(n, f))
  {
    WriteAlertLookup(p, e);
    WriteAlertFields(p, AlertFields, e)
  }

  /** `constructAlertParams`: the entries in map order, each written under
      its record's own name. */
  function WriteAlerts(m: JsMap<AlertParams>, keys: seq<string>, e: map<string, string>): map<string, string>
    requires forall k :: k in keys ==> k in m.values
    decreases |keys|
  {
    if |keys| == 0 then e
    else WriteAlert(m.values[keys[|keys| - 1]], WriteAlerts(m, keys[..|keys| - 1], e))
  }

  /** Every record is filed under its own name, as the reader files them. */
  predicate AlertsNamed(m: JsMap<AlertParams>) {
    forall k :: k in m.values ==> m.values[k].name == k
  }

  lemma {:induction false} WriteAlertsLookup(m: JsMap<AlertParams>, keys: seq<string>, e: map<string, string>, n: string, f: AlertField)
    requires AlertsNamed(m)
    requires forall k :: k in keys ==> k in m.values
    requires forall i, j :: 0 <= i < j < |keys| ==> keys[i] != keys[j]
    ensures Lookup(WriteAlerts(m, keys, e), AlertKey(n, f)) ==
      if n in keys && Truthy(AlertValue(m.values[n], f)) then Some(ToText(AlertValue(m.values[n], f)))
      else Lookup(e, AlertKey(n, f))
    decreases |keys|
  {
    if |keys| > 0 {
      var init := keys[..|keys| - 1];
      var last := keys[|keys| - 1];
      assert keys == init + [last];
      WriteAlertsLookup(m, init, e, n, f);
    }
  }

  /** An alert with none of its keys in the URL. */
  function UnsetAlert(name: string): AlertParams {
    AlertParams(name, Null, Null, Null, Undefined, Undefined)
  }

  /** An alert as it reads back: an empty or unset text comes back `null`,
      an unset list `undefined`, and an empty list `[""]`. */
  function AlertReadBack(p: AlertParams): (r: AlertParams)
    ensures r.name == p.name
    ensures forall f :: Truthy(AlertValue(r, f)) <==> Truthy(AlertValue(p, f))
  {
    AlertParams(p.name, TextReadBack(p.color), TextReadBack(p.timeout), TextReadBack(p.animation),
                ListReadBack(p.audios), ListReadBack(p.images))
  }

  /** Reading back the written alerts gives, for every configured alert,
      its record as it reads back, or an unset record when the map had
      none. */
  lemma AlertsRoundTrip(m: JsMap<AlertParams>, alerts: seq<string>, e: map<string, string>, n: string)
    requires m.Valid() && AlertsNamed(m)
    requires n in alerts
    requires forall f :: AlertKey(n, f) !in e
    requires n in m.values ==> ListTravels(m.values[n].audios) && ListTravels(m.values[n].images)
    ensures ReadAlerts(alerts, WriteAlerts(m, m.keys, e)).Get(n) ==
      Some(if n in m.values then AlertReadBack(m.values[n]) else UnsetAlert(n))
  {
    var w := WriteAlerts(m, m.keys, e);
    forall f ensures Lookup(w, AlertKey(n, f)) ==
      if n in m.values && Truthy(AlertValue(m.values[n], f)) then Some(ToText(AlertValue(m.values[n], f))) else None
    {
      WriteAlertsLookup(m, m.keys, e, n, f);
    }
    if n in m.values {
      ReadAlertOf(m.values[n], w);
    } else {
      ReadAlertUnset(n, w);
    }
  }

  /** An alert's keys holding its truthy fields read back as the alert
      reads back. */
  lemma ReadAlertOf(p: AlertParams, w: map<string, string>)
    requires ListTravels(p.audios) && ListTravels(p.images)
    requires forall f :: Lookup(w, AlertKey(p.name, f)) == (if Truthy(AlertValue(p, f)) then Some(ToText(AlertValue(p, f))) else None)
    ensures ReadAlert(p.name, w) == AlertReadBack(p)
  {
    var n := p.name;
    var r := ReadAlert(n, w);
    ListReadsBack(p.audios, Lookup(w, AlertKey(n, Audios)));
    ListReadsBack(p.images, Lookup(w, AlertKey(n, Images)));
    assert r.color == TextReadBack(p.color) by {
      assert Lookup(w, AlertKey(n, Color)) == if Truthy(AlertValue(p, Color)) then Some(ToText(AlertValue(p, Color))) else None;
    }
    assert r.timeout == TextReadBack(p.timeout) by {
      assert Lookup(w, AlertKey(n, Timeout)) == if Truthy(AlertValue(p, Timeout)) then Some(ToText(AlertValue(p, Timeout))) else None;
    }
    assert r.animation == TextReadBack(p.animation) by {
      assert Lookup(w, AlertKey(n, AnimationName)) == if Truthy(AlertValue(p, AnimationName)) then Some(ToText(AlertValue(p, AnimationName))) else None;
    }
  }

  /** An alert none of whose keys is present reads back unset. */
  lemma ReadAlertUnset(n: string, w: map<string, string>)
    requires forall f :: Lookup(w, AlertKey(n, f)) == None
    ensures ReadAlert(n, w) == UnsetAlert(n)
  {
    assert Lookup(w, AlertKey(n, Color)) == None && Lookup(w, AlertKey(n, Timeout)) == None;
    assert Lookup(w, AlertKey(n, AnimationName)) == None && Lookup(w, AlertKey(n, Audios)) == None;
    assert Lookup(w, AlertKey(n, Images)) == None;
  }

  // ---------------------------------------------------------------------
  // animations

  datatype AnimationField = Duration | Timing | Iterations

  function AnimationSuffix(g: AnimationField): (s: string)
    ensures |s| >= 2
  {
    match g
    case Duration => "-duration"
    case Timing => "-timing"
    case Iterations => "-iterations"
  }

  function AnimationKey(name: string, g: AnimationField): string {
    name + AnimationSuffix(g)
  }

  lemma AnimationKeyInjective(n1: string, g1: AnimationField, n2: string, g2: AnimationField)
    requires AnimationKey(n1, g1) == AnimationKey(n2, g2)
    ensures n1 == n2 && g1 == g2
  {
    var k := AnimationKey(n1, g1);
    var s1, s2 := AnimationSuffix(g1), AnimationSuffix(g2);
    assert k[|k| - 1] == s1[|s1| - 1] == s2[|s2| - 1];
    assert k[|k| - 2] == s1[|s1| - 2] == s2[|s2| - 2];
    assert g1 == g2;
    assert n1 == k[..|n1|] && n2 == k[..|n2|];
  }

  function AnimationValue(p: AnimationParams, g: AnimationField): Nullable<string> {
    match g
    case Duration => p.duration
    case Timing => p.timingFunction
    case Iterations => p.iterations
  }

  /** One configured animation, read from its keys; absent keys are `null`. */
  function ReadAnimation(name: string, params: map<string, string>): (p: AnimationParams)
    ensures p.name == name
    ensures forall g :: AnimationValue(p, g) ==
               (if AnimationKey(name, g) in params then Val(params[AnimationKey(name, g)]) else Null)
  {
    AnimationParams(name,
      FromGet(Lookup(params, AnimationKey(name, Duration))),
      FromGet(Lookup(params, AnimationKey(name, Timing))),
      FromGet(Lookup(params, AnimationKey(name, Iterations))))
  }

  /** `deconstructAnimationParams`: cleared, then one entry per configured
      animation. */
  function ReadAnimations(animations: seq<string>, params: map<string, string>): (m: JsMap<AnimationParams>)
    ensures m.Valid()
    ensures forall k :: m.Get(k) == if k in animations then Some(ReadAnimation(k, params)) else None
    decreases |animations|
  {
    if |animations| == 0 then Empty()
    else
      var init := animations[..|animations| - 1];
      var last := animations[|animations| - 1];
      assert forall k :: k in animations <==> k in init || k == last by {
        assert animations == init + [last];
      }
      ReadAnimations(init, params).Set(last, ReadAnimation(last, params))
  }

  lemma ReadAnimationsStep(animations: seq<string>, i: nat, params: map<string, string>)
    requires i < |animations|
    ensures ReadAnimations(animations[..i + 1], params) == ReadAnimations(animations[..i], params).Set(animations[i], ReadAnimation(animations[i], params))
  {
    assert animations[..i + 1][..i] == animations[..i];
  }

  function WriteAnimation(p: AnimationParams, e: map<string, string>): (r: map<string, string>)
    ensures forall g :: Lookup(r, AnimationKey(p.name, g)) ==
               (if Truthy(StrSlot(AnimationValue(p, g))) then Some(AnimationValue(p, g).value) else Lookup(e, AnimationKey(p.name, g)))
    ensures forall n, g :: n != p.name ==> Lookup(r, AnimationKey(n, g)) == Lookup(e, AnimationKey(n, g))
  {
    var e1 := SetIfTruthy(e, AnimationKey(p.name, Duration), StrSlot(p.duration));
    var e2 := SetIfTruthy(e1, AnimationKey(p.name, Timing), StrSlot(p.timingFunction));
    var r := SetIfTruthy(e2, AnimationKey(p.name, Iterations), StrSlot(p.iterations));
    assert forall n, g, h :: AnimationKey(n, g) == AnimationKey(p.name, h) ==> n == p.name && g == h by {
      forall n, g, h | AnimationKey(n, g) == AnimationKey(p.name, h) ensures n == p.name && g == h {
        AnimationKeyInjective(n, g, p.name, h);
      }
    }
    r
  }

  /** `constructAnimationParams` */
  function WriteAnimations(m: JsMap<AnimationParams>, keys: seq<string>, e: map<string, string>): map<string, string>
    requires forall k :: k in keys ==> k in m.values
    decreases |keys|
  {
    if |keys| == 0 then e
    else WriteAnimation(m.values[keys[|keys| - 1]], WriteAnimations(m, keys[..|keys| - 1], e))
  }

  /** One more key written: the prefix's writes, then that key's. */
  lemma WriteAnimationsStep(m: JsMap<AnimationParams>, keys: seq<string>, i: nat, e: map<string, string>)
    requires forall k :: k in keys ==> k in m.values
    requires i < |keys|
    ensures forall k :: k in keys[..i] ==> k in m.values
    ensures WriteAnimations(m, keys[..i + 1], e) == WriteAnimation(m.values[keys[i]], WriteAnimations(m, keys[..i], e))
  {
    assert keys[..i + 1][..i] == keys[..i];
  }

  predicate AnimationsNamed(m: JsMap<AnimationParams>) {
    forall k :: k in m.values ==> m.values[k].name == k
  }

  lemma {:induction false} WriteAnimationsLookup(m: JsMap<AnimationParams>, keys: seq<string>, e: map<string, string>, n: string, g: AnimationField)
    requires AnimationsNamed(m)
    requires forall k :: k in keys ==> k in m.values
    requires forall i, j :: 0 <= i < j < |keys| ==> keys[i] != keys[j]
    ensures Lookup(WriteAnimations(m, keys, e), AnimationKey(n, g)) ==
      if n in keys && Truthy(StrSlot(AnimationValue(m.values[n], g))) then Some(AnimationValue(m.values[n], g).value)
      else Lookup(e, AnimationKey(n, g))
    decreases |keys|
  {
    if |keys| > 0 {
      var init := keys[..|keys| - 1];
      var last := keys[|keys| - 1];
      assert keys == init + [last];
      WriteAnimationsLookup(m, init, e, n, g);
    }
  }

  /** An animation as it reads back: empty or unset fields come back `null`. */
  function AnimationReadBack(p: AnimationParams): (r: AnimationParams)
    ensures r.name == p.name
    ensures forall g :: AnimationValue(r, g) == TextReadBack(AnimationValue(p, g))
  {
    AnimationParams(p.name, TextReadBack(p.duration), TextReadBack(p.timingFunction), TextReadBack(p.iterations))
  }

  lemma AnimationsRoundTrip(m: JsMap<AnimationParams>, animations: seq<string>, e: map<string, string>, n: string)
    requires m.Valid() && AnimationsNamed(m)
    requires n in animations
    requires forall g :: AnimationKey(n, g) !in e
    ensures ReadAnimations(animations, WriteAnimations(m, m.keys, e)).Get(n) ==
      Some(if n in m.values then AnimationReadBack(m.values[n]) else AnimationParams(n, Null, Null, Null))
  {
    ReadWrittenAnimation(m, e, n);
  }

  /** One animation read back from the written parameters. */
  lemma ReadWrittenAnimation(m: JsMap<AnimationParams>, e: map<string, string>, n: string)
    requires m.Valid() && AnimationsNamed(m)
    requires forall g :: AnimationKey(n, g) !in e
    ensures ReadAnimation(n, WriteAnimations(m, m.keys, e)) ==
      if n in m.values then AnimationReadBack(m.values[n]) else AnimationParams(n, Null, Null, Null)
  {
    var w := WriteAnimations(m, m.keys, e);
    forall g ensures Lookup(w, AnimationKey(n, g)) ==
      if n in m.values && Truthy(StrSlot(AnimationValue(m.values[n], g))) then Some(AnimationValue(m.values[n], g).value) else None
    {
      WriteAnimationsLookup(m, m.keys, e, n, g);
    }
    var r := ReadAnimation(n, w);
    var expected := if n in m.values then AnimationReadBack(m.values[n]) else AnimationParams(n, Null, Null, Null);
    assert AnimationValue(r, Duration) == AnimationValue(expected, Duration);
    assert AnimationValue(r, Timing) == AnimationValue(expected, Timing);
    assert AnimationValue(r, Iterations) == AnimationValue(expected, Iterations);
  }

  // ---------------------------------------------------------------------
  // font

  datatype FontField = Font | Style | Size | StrokeWidth | Shadow

  function FontKey(f: FontField): string {
    match f
    case Font => "font"
    case Style => "font-style"
    case Size => "font-size"
    case StrokeWidth => "font-stroke-width"
    case Shadow => "font-shadow"
  }

  /** The five keys differ, since their lengths do. */
  lemma FontKeysDistinct()
    ensures forall f, g :: f != g ==> FontKey(f) != FontKey(g)
  {
    assert |FontKey(Font)| == 4 && |FontKey(Style)| == 10 && |FontKey(Size)| == 9;
    assert |FontKey(StrokeWidth)| == 17 && |FontKey(Shadow)| == 11;
  }

  /** The defaults: Arial, normal, 12, 0 and none. */
  function FontDefault(f: FontField): string {
    match f
    case Font => "Arial"
    case Style => "normal"
    case Size => "12"
    case StrokeWidth => "0"
    case Shadow => "none"
  }

  function FontValue(fp: FontParams, f: FontField): Nullable<string> {
    match f
    case Font => fp.font
    case Style => fp.style
    case Size => fp.size
    case StrokeWidth => fp.strokeWidth
    case Shadow => fp.shadow
  }

  /** `params.get(key) || default` */
  function OrDefault(o: Option<string>, default: string): (r: string)
    ensures r == if o.Some? && o.value != "" then o.value else default
  {
    match o
    case Some(s) => if s != "" then s else default
    case None => default
  }

  /** `deconstructFontParams`: a missing or empty parameter gives the
      default, so no field is left unset or empty. */
  function ReadFont(params: map<string, string>): (fp: FontParams)
    ensures forall f :: FontValue(fp, f) == Val(if FontKey(f) in params && params[FontKey(f)] != "" then params[FontKey(f)] else FontDefault(f))
  {
    FontParams(
      Val(OrDefault(Lookup(params, FontKey(Font)), FontDefault(Font))),
      Val(OrDefault(Lookup(params, FontKey(Style)), FontDefault(Style))),
      Val(OrDefault(Lookup(params, FontKey(Size)), FontDefault(Size))),
      Val(OrDefault(Lookup(params, FontKey(StrokeWidth)), FontDefault(StrokeWidth))),
      Val(OrDefault(Lookup(params, FontKey(Shadow)), FontDefault(Shadow))))
  }

  /** `if (value !== default) params.set(key, value)` */
  function SetIfNotDefault(e: map<string, string>, key: string, v: Nullable<string>, default: string): (r: map<string, string>)
    ensures Lookup(r, key) == if v != Val(default) then Some(ToText(StrSlot(v))) else Lookup(e, key)
    ensures forall k :: k != key ==> Lookup(r, k) == Lookup(e, k)
  {
    if v != Val(default) then e[key := ToText(StrSlot(v))] else e
  }

  /** `constructFontParams`: a key is written only when its value differs
      from the default. */
  function WriteFont(fp: FontParams, e: map<string, string>): (r: map<string, string>)
    ensures forall f :: Lookup(r, FontKey(f)) ==
               (if FontValue(fp, f) != Val(FontDefault(f)) then Some(ToText(StrSlot(FontValue(fp, f)))) else Lookup(e, FontKey(f)))
  {
    FontKeysDistinct();
    var e1 := SetIfNotDefault(e, FontKey(Font), fp.font, FontDefault(Font));
    var e2 := SetIfNotDefault(e1, FontKey(Style), fp.style, FontDefault(Style));
    var e3 := SetIfNotDefault(e2, FontKey(Size), fp.size, FontDefault(Size));
    var e4 := SetIfNotDefault(e3, FontKey(StrokeWidth), fp.strokeWidth, FontDefault(StrokeWidth));
    SetIfNotDefault(e4, FontKey(Shadow), fp.shadow, FontDefault(Shadow))
  }

  /** With every field set and non-empty, reading back the written font
      gives it back. */
  lemma FontRoundTrip(fp: FontParams, e: map<string, string>)
    requires forall f :: FontValue(fp, f).Val? && FontValue(fp, f).value != ""
    requires forall f :: FontKey(f) !in e
    ensures ReadFont(WriteFont(fp, e)) == fp
  {
    var r := ReadFont(WriteFont(fp, e));
    assert FontValue(r, Font) == FontValue(fp, Font);
    assert FontValue(r, Style) == FontValue(fp, Style);
    assert FontValue(r, Size) == FontValue(fp, Size);
    assert FontValue(r, StrokeWidth) == FontValue(fp, StrokeWidth);
    assert FontValue(r, Shadow) == FontValue(fp, Shadow);
  }

  // ---------------------------------------------------------------------
  // Archipelago

  /** `${params.get(key)}`: the parameter, or the text "null". */
  function Interpolated(o: Option<string>): (s: string)
    ensures o.Some? ==> s == o.value
    ensures o.None? ==> s == "null"
  {
    match o
    case Some(s) => s
    case None => "null"
  }

  /** `deconstructArchipelagoParams`: the url is `url` and `port` joined by
      ":", even when either is absent. */
  function ReadArchipelago(params: map<string, string>): (a: ArchipelagoParams)
    ensures a.url.Val? && ':' in a.url.value
    ensures "slots" !in params <==> a.slots.Undefined?
    ensures a.password == if "password" in params then Val(params["password"]) else Null
  {
    var url := Interpolated(Lookup(params, "url")) + ":" + Interpolated(Lookup(params, "port"));
    assert url[|Interpolated(Lookup(params, "url"))|] == ':';
    ArchipelagoParams(Val(url), AlertOverrides.SplitList(Lookup(params, "slots")), FromGet(Lookup(params, "password")))
  }

  /** What a writer leaves, and whether it threw part way. */
  datatype Written = Written(entries: map<string, string>, threw: bool)

  /** `constructArchipelagoParams`: the url is split at ":" into host and
      port; the port is written only when non-empty. An unset url throws
      before anything is written, and unset slots throw after the url and
      port are. */
  function WriteArchipelago(a: ArchipelagoParams, e: map<string, string>): (r: Written)
    ensures r.threw <==> !a.url.Val? || !a.slots.Val?
    ensures !a.url.Val? ==> r.entries == e
    ensures a.url.Val? ==> Lookup(r.entries, "url") == Some(Split(a.url.value, ':')[0])
  {
    if !a.url.Val? then Written(e, true)
    else
      var pieces := Split(a.url.value, ':');
      var host := pieces[0];
      var port := if |pieces| > 1 then pieces[1] else "";
      var e1 := e["url" := host];
      var e2 := if port != "" then e1["port" := port] else e1;
      if !a.slots.Val? then Written(e2, true)
      else Written(e2["slots" := Join(a.slots.value, ',')]["password" := ToText(StrSlot(a.password))], false)
  }

  lemma SplitAtColon(host: string, port: string)
    requires ':' !in host && ':' !in port
    ensures Split(host + ":" + port, ':') == [host, port]
  {
    assert Join([host, port], ':') == host + ":" + port by {
      assert [host, port][1..] == [port];
    }
    SplitJoin([host, port], ':');
  }

  /** A url of one host and a non-empty port, a non-empty list of
      comma-free slots and a password read back unchanged. */
  lemma ArchipelagoRoundTrip(host: string, port: string, slots: seq<string>, password: string, e: map<string, string>)
    requires ':' !in host && ':' !in port && port != ""
    requires |slots| >= 1 && SeparatorFree(slots, ',')
    ensures var a := ArchipelagoParams(Val(host + ":" + port), Val(slots), Val(password));
      !WriteArchipelago(a, e).threw && ReadArchipelago(WriteArchipelago(a, e).entries) == a
  {
    SplitAtColon(host, port);
    SplitJoin(slots, ',');
  }

  /** A url without a port reads back with ":null" appended. */
  lemma PortlessUrlReadsBackWithNull(host: string, slots: seq<string>, password: Nullable<string>, e: map<string, string>)
    requires ':' !in host && "port" !in e
    ensures var a := ArchipelagoParams(Val(host), Val(slots), password);
      ReadArchipelago(WriteArchipelago(a, e).entries).url == Val(host + ":null")
  {
    SplitWithoutSeparator(host, ':');
    var a := ArchipelagoParams(Val(host), Val(slots), password);
    var w := WriteArchipelago(a, e).entries;
    assert w == e["url" := host]["slots" := Join(slots, ',')]["password" := ToText(StrSlot(password))];
    assert Lookup(w, "url") == Some(host) && Lookup(w, "port") == None;
    assert host + ":" + "null" == host + ":null";
  }

  // ---------------------------------------------------------------------
  // image

  datatype ImageField = Width | Height | Contrast

  function ImageKey(g: ImageField): string {
    match g
    case Width => "image-width"
    case Height => "image-height"
    case Contrast => "image-contrast"
  }

  function ImageValue(ip: ImageParams, g: ImageField): Nullable<string> {
    match g
    case Width => ip.width
    case Height => ip.height
    case Contrast => ip.contrast
  }

  /** `deconstructImageParams`: the parameters as they are, with no
      default. */
  function ReadImage(params: map<string, string>): (ip: ImageParams)
    ensures forall g :: ImageValue(ip, g) == if ImageKey(g) in params then Val(params[ImageKey(g)]) else Null
  {
    ImageParams(FromGet(Lookup(params, ImageKey(Width))), FromGet(Lookup(params, ImageKey(Height))),
                FromGet(Lookup(params, ImageKey(Contrast))))
  }

  /** `constructImageParams`: every value other than "100" is written, an
      unset one as its text. */
  function WriteImage(ip: ImageParams, e: map<string, string>): (r: map<string, string>)
    ensures forall g :: Lookup(r, ImageKey(g)) ==
               (if ImageValue(ip, g) != Val("100") then Some(ToText(StrSlot(ImageValue(ip, g)))) else Lookup(e, ImageKey(g)))
  {
    var e1 := SetIfNotDefault(e, ImageKey(Width), ip.width, "100");
    var e2 := SetIfNotDefault(e1, ImageKey(Height), ip.height, "100");
    SetIfNotDefault(e2, ImageKey(Contrast), ip.contrast, "100")
  }

  /** An image value as it reads back: "100" comes back `null`, and `null`
      or `undefined` come back as the text "null" or "undefined". */
  function ImageReadBack(x: Nullable<string>): (r: Nullable<string>)
    ensures r.Val? <==> x != Val("100")
  {
    if x == Val("100") then Null else Val(ToText(StrSlot(x)))
  }

  lemma ImageRoundTrip(ip: ImageParams, e: map<string, string>)
    requires forall g :: ImageKey(g) !in e
    ensures forall g :: ImageValue(ReadImage(WriteImage(ip, e)), g) == ImageReadBack(ImageValue(ip, g))
  {
  }

  /** A missing image value is not a fixed point: it is written as "null"
      and reads back as that text. */
  lemma MissingImageWidthBecomesText(ip: ImageParams, e: map<string, string>)
    requires ip.width.Null? && ImageKey(Width) !in e
    ensures ReadImage(WriteImage(ip, e)).width == Val("null")
  {
    assert ImageValue(ip, Width) == Null;
  }

  // ---------------------------------------------------------------------
  // The class

  /** `URLParser`. `alerts` and `animations` are the names the settings
      manager holds when a reader runs. */
  class UrlParser {
    var configParams: Nullable<string>
    var alertParams: JsMap<AlertParams>
    var animationParams: JsMap<AnimationParams>
    var fontParams: Option<FontParams>
    var archipelagoParams: Option<ArchipelagoParams>
    var imageParams: Option<ImageParams>

    ghost predicate Valid()
      reads this
    {
      alertParams.Valid() && animationParams.Valid()
    }

    /** The fields never assigned by the constructor are `undefined`. */
    constructor ()
      ensures Valid() && configParams.Undefined?
      ensures alertParams == Empty() && animationParams == Empty()
      ensures fontParams.None? && archipelagoParams.None? && imageParams.None?
    {
      configParams := Undefined;
      alertParams := Empty();
      animationParams := Empty();
      fontParams := None;
      archipelagoParams := None;
      imageParams := None;
    }

    /** Loading the named configuration file is not part of this model. */
    method DeconstructConfigParams(params: UrlSearchParams)
      modifies this
      ensures configParams == Val(ReadConfig(params.entries))
      ensures alertParams == old(alertParams) && animationParams == old(animationParams)
      ensures fontParams == old(fontParams) && archipelagoParams == old(archipelagoParams) && imageParams == old(imageParams)
    {
      var configName := params.Get("config");
      configParams := Val(OrDefault(configName, "config"));
    }

    /** The loop of the reader: one entry per configured name. */
    static method CollectAlerts(alerts: seq<string>, params: UrlSearchParams) returns (m: JsMap<AlertParams>)
      ensures m == ReadAlerts(alerts, params.entries)
    {
      m := Empty();
      for i := 0 to |alerts|
        invariant m == ReadAlerts(alerts[..i], params.entries)
      {
        ReadAlertsStep(alerts, i, params.entries);
        m := m.Set(alerts[i], ReadAlert(alerts[i], params.entries));
      }
      assert alerts[..|alerts|] == alerts;
    }

    method DeconstructAlertParams(params: UrlSearchParams, alerts: seq<string>)
      requires Valid()
      modifies this
      ensures Valid() && alertParams == ReadAlerts(alerts, params.entries)
      ensures configParams == old(configParams) && animationParams == old(animationParams)
      ensures fontParams == old(fontParams) && archipelagoParams == old(archipelagoParams) && imageParams == old(imageParams)
    {
      alertParams := CollectAlerts(alerts, params);
    }

    /** The loop of the reader: one entry per configured name. */
    static method CollectAnimations(animations: seq<string>, params: UrlSearchParams) returns (m: JsMap<AnimationParams>)
      ensures m == ReadAnimations(animations, params.entries)
    {
      m := Empty();
      for i := 0 to |animations|
        invariant m == ReadAnimations(animations[..i], params.entries)
      {
        ReadAnimationsStep(animations, i, params.entries);
        m := m.Set(animations[i], ReadAnimation(animations[i], params.entries));
      }
      assert animations[..|animations|] == animations;
    }

    method DeconstructAnimationParams(params: UrlSearchParams, animations: seq<string>)
      requires Valid()
      modifies this
      ensures Valid() && animationParams == ReadAnimations(animations, params.entries)
      ensures configParams == old(configParams) && alertParams == old(alertParams)
      ensures fontParams == old(fontParams) && archipelagoParams == old(archipelagoParams) && imageParams == old(imageParams)
    {
      animationParams := CollectAnimations(animations, params);
    }

    method DeconstructFontParams(params: UrlSearchParams)
      modifies this
      ensures fontParams == Some(ReadFont(params.entries))
      ensures configParams == old(configParams) && alertParams == old(alertParams) && animationParams == old(animationParams)
      ensures archipelagoParams == old(archipelagoParams) && imageParams == old(imageParams)
    {
      fontParams := Some(ReadFont(params.entries));
    }

    method DeconstructArchipelagoParams(params: UrlSearchParams)
      modifies this
      ensures archipelagoParams == Some(ReadArchipelago(params.entries))
      ensures configParams == old(configParams) && alertParams == old(alertParams) && animationParams == old(animationParams)
      ensures fontParams == old(fontParams) && imageParams == old(imageParams)
    {
      archipelagoParams := Some(ReadArchipelago(params.entries));
    }

    method DeconstructImageParams(params: UrlSearchParams)
      modifies this
      ensures imageParams == Some(ReadImage(params.entries))
      ensures configParams == old(configParams) && alertParams == old(alertParams) && animationParams == old(animationParams)
      ensures fontParams == old(fontParams) && archipelagoParams == old(archipelagoParams)
    {
      imageParams := Some(ReadImage(params.entries));
    }

    method ConstructConfigParams(params: UrlSearchParams)
      modifies params
      ensures params.entries == WriteConfig(configParams, old(params.entries))
    {
      params.Set("config", ToText(StrSlot(configParams)));
    }

    method ConstructAlertParams(params: UrlSearchParams)
      requires Valid()
      modifies params
      ensures params.entries == WriteAlerts(alertParams, alertParams.keys, old(params.entries))
    {
      var keys := alertParams.keys;
      ghost var e0 := params.entries;
      for i := 0 to |keys|
        invariant params.entries == WriteAlerts(alertParams, keys[..i], e0)
      {
        assert keys[..i + 1][..i] == keys[..i];
        var param := alertParams.values[keys[i]];
        params.entries := WriteAlert(param, params.entries);
      }
      assert keys[..|keys|] == keys;
    }

    method ConstructAnimationParams(params: UrlSearchParams)
      requires Valid()
      modifies params
      ensures params.entries == WriteAnimations(animationParams, animationParams.keys, old(params.entries))
    {
      var keys := animationParams.keys;
      ghost var e0 := params.entries;
      for i := 0 to |keys|
        invariant params.entries == WriteAnimations(animationParams, keys[..i], e0)
      {
        var param := animationParams.values[keys[i]];
        WriteAnimationsStep(animationParams, keys, i, e0);
        params.entries := WriteAnimation(param, params.entries);
      }
      assert keys[..|keys|] == keys;
    }

    /** Before any reader ran, `this.fontParams.font` throws. */
    method ConstructFontParams(params: UrlSearchParams)
      requires fontParams.Some?
      modifies params
      ensures params.entries == WriteFont(fontParams.value, old(params.entries))
    {
      params.entries := WriteFont(fontParams.value, params.entries);
    }

    method ConstructArchipelagoParams(params: UrlSearchParams) returns (threw: bool)
      requires archipelagoParams.Some?
      modifies params
      ensures Written(params.entries, threw) == WriteArchipelago(archipelagoParams.value, old(params.entries))
    {
      var a := archipelagoParams.value;
      if !a.url.Val? {
        return true;
      }
      var pieces := Split(a.url.value, ':');
      var host := pieces[0];
      var port := if |pieces| > 1 then pieces[1] else "";
      params.Set("url", host);
      if port != "" {
        params.Set("port", port);
      }
      if !a.slots.Val? {
        return true;
      }
      params.Set("slots", Join(a.slots.value, ','));
      params.Set("password", ToText(StrSlot(a.password)));
      return false;
    }

    method ConstructImageParams(params: UrlSearchParams)
      requires imageParams.Some?
      modifies params
      ensures params.entries == WriteImage(imageParams.value, old(params.entries))
    {
      var ip := imageParams.value;
      if ip.width != Val("100") {
        params.Set("image-width", ToText(StrSlot(ip.width)));
      }
      if ip.height != Val("100") {
        params.Set("image-height", ToText(StrSlot(ip.height)));
      }
      if ip.contrast != Val("100") {
        params.Set("image-contrast", ToText(StrSlot(ip.contrast)));
      }
    }
  }
}
