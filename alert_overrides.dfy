/** What the two per-name alert stores (`src/lib/alert.ts` and
    `src/lib/alertManager.ts`) share: the seven fields an override can
    change, the URL keys `<name><suffix>` they travel under, and how an
    override is read back from URL parameters. */
module AlertOverrides {
  import opened Js
  import opened Strings
  import opened JsValues
  import opened NumberParsing
  import opened SearchParams

  datatype AnimationConfig = AnimationConfig(reference: string, duration: int, iterations: int, timing: string)

  /** The overridable part of an alert's base configuration. */
  datatype Overridable = Overridable(
    timeout: int,
    audioReferences: seq<string>,
    imageReferences: seq<string>,
    animation: AnimationConfig)

  datatype AnimationOverride = AnimationOverride(
    reference: Nullable<string>,
    duration: Nullable<int>,
    iterations: Nullable<int>,
    timing: Nullable<string>)

  /** An override; fields the stores always leave `undefined` (its
      translations, and in `src/lib/alertManager.ts` its alert reference
      and style) are not kept. */
  datatype AlertOverride = AlertOverride(
    timeout: Nullable<int>,
    audioReferences: Nullable<seq<string>>,
    imageReferences: Nullable<seq<string>>,
    animation: AnimationOverride)

  /** The argument of `setAlertOverride`: a partial override. `None` is a
      key the caller left out, which is not the same as a key given as
      `undefined` (`Some(Undefined)`). */
  datatype AnimationPatch = AnimationPatch(
    reference: Option<Nullable<string>>,
    duration: Option<Nullable<int>>,
    iterations: Option<Nullable<int>>,
    timing: Option<Nullable<string>>)

  datatype AlertPatch = AlertPatch(
    timeout: Option<Nullable<int>>,
    audioReferences: Option<Nullable<seq<string>>>,
    imageReferences: Option<Nullable<seq<string>>>,
    animation: Option<AnimationPatch>)

  /** `patch?.field`: a left-out key reads as `undefined`. */
  function Given<T>(x: Option<Nullable<T>>): (r: Nullable<T>)
    ensures x.None? ==> r.Undefined?
    ensures x.Some? ==> r == x.value
  {
    if x.Some? then x.value else Undefined
  }

  /** The override every configured name starts with: every field
      `undefined`, the animation's included. */
  function BlankOverride(): AlertOverride {
    AlertOverride(Undefined, Undefined, Undefined, AnimationOverride(Undefined, Undefined, Undefined, Undefined))
  }

  /** `override?.field ?? base.field`, field by field; a missing override
      leaves the base. */
  function Resolve(o: Option<AlertOverride>, b: Overridable): (r: Overridable)
    ensures o.None? ==> r == b
  {
    match o
    case None => b
    case Some(v) =>
      Overridable(
        v.timeout.OrElse(b.timeout),
        v.audioReferences.OrElse(b.audioReferences),
        v.imageReferences.OrElse(b.imageReferences),
        AnimationConfig(
          v.animation.reference.OrElse(b.animation.reference),
          v.animation.duration.OrElse(b.animation.duration),
          v.animation.iterations.OrElse(b.animation.iterations),
          v.animation.timing.OrElse(b.animation.timing)))
  }

  /** A blank override resolves to the base, and so does one whose fields
      are all `null`. */
  lemma BlankResolvesToBase(b: Overridable)
    ensures Resolve(Some(BlankOverride()), b) == b
    ensures Resolve(Some(AlertOverride(Null, Null, Null, AnimationOverride(Null, Null, Null, Null))), b) == b
  {
  }

  /** Resolution is field by field: changing one field of the override
      changes only that field of the result. */
  lemma ResolveFieldByField(o: AlertOverride, b: Overridable, t: int)
    ensures var r := Resolve(Some(o), b);
      var r2 := Resolve(Some(o.(timeout := Val(t))), b);
      r2 == r.(timeout := t)
  {
  }

  // ---------------------------------------------------------------------
  // URL keys

  datatype Field = Timeout | Audio | Image | Anim | AnimDuration | AnimIterations | AnimTiming

  /** The key of a field is the alert's name followed by this suffix. */
  function Suffix(f: Field): (s: string)
    ensures |s| >= 2 && s[0] == '-'
  {
    match f
    case Timeout => "-timeout"
    case Audio => "-a"
    case Image => "-i"
    case Anim => "-anim"
    case AnimDuration => "-anim-duration"
    case AnimIterations => "-anim-iterations"
    case AnimTiming => "-anim-timing"
  }

  function Key(name: string, f: Field): string {
    name + Suffix(f)
  }

  /** No suffix ends another: the last characters already differ. */
  lemma SuffixLastCharsDiffer(f: Field, g: Field)
    requires f != g
    ensures Suffix(f)[|Suffix(f)| - 1] != Suffix(g)[|Suffix(g)| - 1]
  {
  }

  /** The keys of two different names never meet. */
  lemma KeysOfOtherName(name: string, f: Field, other: string)
    requires name != other
    ensures forall g :: Key(name, f) != Key(other, g)
  {
    forall g ensures Key(name, f) != Key(other, g) {
      if Key(name, f) == Key(other, g) {
        KeyInjective(name, f, other, g);
      }
    }
  }

  /** Keys never collide, whatever the names: a key determines both the
      alert and the field. */
  lemma KeyInjective(n1: string, f1: Field, n2: string, f2: Field)
    requires Key(n1, f1) == Key(n2, f2)
    ensures n1 == n2 && f1 == f2
  {
    var k := Key(n1, f1);
    assert k[|k| - 1] == Suffix(f1)[|Suffix(f1)| - 1];
    assert k[|k| - 1] == Suffix(f2)[|Suffix(f2)| - 1];
    if f1 != f2 {
      SuffixLastCharsDiffer(f1, f2);
    }
    assert n1 == k[..|n1|] && n2 == k[..|n2|];
  }

  /** The override's value of a field, as a JavaScript value. */
  function Value(o: AlertOverride, f: Field): JsValue {
    match f
    case Timeout => NumSlot(o.timeout)
    case Audio => ListSlot(o.audioReferences)
    case Image => ListSlot(o.imageReferences)
    case Anim => StrSlot(o.animation.reference)
    case AnimDuration => NumSlot(o.animation.duration)
    case AnimIterations => NumSlot(o.animation.iterations)
    case AnimTiming => StrSlot(o.animation.timing)
  }

  /** The base's value of a field, as a JavaScript value. */
  function BaseValue(b: Overridable, f: Field): JsValue {
    match f
    case Timeout => Num(b.timeout)
    case Audio => StrList(b.audioReferences)
    case Image => StrList(b.imageReferences)
    case Anim => Str(b.animation.reference)
    case AnimDuration => Num(b.animation.duration)
    case AnimIterations => Num(b.animation.iterations)
    case AnimTiming => Str(b.animation.timing)
  }

  // ---------------------------------------------------------------------
  // Reading an override from URL parameters

  /** `text?.split(",")`: `undefined` when there is no text. */
  function SplitList(text: Option<string>): (r: Nullable<seq<string>>)
    ensures text.None? ==> r == Undefined
    ensures text.Some? ==> r == Val(Split(text.value, ','))
  {
    match text
    case None => Undefined
    case Some(s) => Val(Split(s, ','))
  }

  /** The override one alert gets from the URL: numbers parsed with the
      base value as fallback, lists split on ",", absent strings `null`. */
  function Decode(name: string, b: Overridable, params: map<string, string>): AlertOverride {
    AlertOverride(
      Val(StringToNumber(Lookup(params, Key(name, Timeout)), b.timeout)),
      SplitList(Lookup(params, Key(name, Audio))),
      SplitList(Lookup(params, Key(name, Image))),
      AnimationOverride(
        FromGet(Lookup(params, Key(name, Anim))),
        Val(StringToNumber(Lookup(params, Key(name, AnimDuration)), b.animation.duration)),
        Val(StringToNumber(Lookup(params, Key(name, AnimIterations)), b.animation.iterations)),
        FromGet(Lookup(params, Key(name, AnimTiming)))))
  }

  /** Without any of its keys in the URL, an alert decodes to an override
      that resolves to the base. */
  lemma DecodeNothing(name: string, b: Overridable, params: map<string, string>)
    requires forall f :: Key(name, f) !in params
    ensures Resolve(Some(Decode(name, b, params)), b) == b
  {
    assert Key(name, Timeout) !in params && Key(name, Audio) !in params && Key(name, Image) !in params;
    assert Key(name, Anim) !in params && Key(name, AnimDuration) !in params;
    assert Key(name, AnimIterations) !in params && Key(name, AnimTiming) !in params;
  }

  /** The reference rule for what goes into the URL under a field's key:
      nothing when the override leaves the field unset or gives the base's
      own value, and otherwise the value's text, a list comma-joined. */
  function Differing(o: AlertOverride, b: Overridable, f: Field): Option<string> {
    match f
    case Timeout =>
      if o.timeout.Val? && o.timeout.value != b.timeout then Some(IntToString(o.timeout.value)) else None
    case Audio =>
      if o.audioReferences.Val? && o.audioReferences.value != b.audioReferences
      then Some(Join(o.audioReferences.value, ',')) else None
    case Image =>
      if o.imageReferences.Val? && o.imageReferences.value != b.imageReferences
      then Some(Join(o.imageReferences.value, ',')) else None
    case Anim =>
      if o.animation.reference.Val? && o.animation.reference.value != b.animation.reference
      then Some(o.animation.reference.value) else None
    case AnimDuration =>
      if o.animation.duration.Val? && o.animation.duration.value != b.animation.duration
      then Some(IntToString(o.animation.duration.value)) else None
    case AnimIterations =>
      if o.animation.iterations.Val? && o.animation.iterations.value != b.animation.iterations
      then Some(IntToString(o.animation.iterations.value)) else None
    case AnimTiming =>
      if o.animation.timing.Val? && o.animation.timing.value != b.animation.timing
      then Some(o.animation.timing.value) else None
  }

  /** A number written only when it differs from the base reads back, with
      the base as fallback, as the number the override resolves to. */
  lemma NumberFieldRoundTrip(x: Nullable<int>, base: int)
    ensures var text := if x.Val? && x.value != base then Some(IntToString(x.value)) else None;
      StringToNumber(text, base) == x.OrElse(base)
  {
    if x.Val? && x.value != base {
      StringToNumberOfText(x.value, base);
    }
  }

  /** A string written only when it differs from the base reads back, an
      absent key as `null`, as the string the override resolves to. */
  lemma TextFieldRoundTrip(x: Nullable<string>, base: string)
    ensures var text := if x.Val? && x.value != base then Some(x.value) else None;
      FromGet(text).OrElse(base) == x.OrElse(base)
  {
  }

  /** A list written comma-joined only when it differs from the base reads
      back as the list the override resolves to, as long as it is
      non-empty and its strings hold no comma. */
  lemma ListFieldRoundTrip(x: Nullable<seq<string>>, base: seq<string>)
    requires x.Val? ==> |x.value| >= 1 && SeparatorFree(x.value, ',')
    ensures var text := if x.Val? && x.value != base then Some(Join(x.value, ',')) else None;
      SplitList(text).OrElse(base) == x.OrElse(base)
  {
    if x.Val? && x.value != base {
      SplitJoin(x.value, ',');
    }
  }

  /** Decoding parameters that hold, under each of an alert's keys, what
      the reference rule writes gives an override that resolves exactly
      like the one written. */
  lemma DecodeDiffering(name: string, o: AlertOverride, b: Overridable, params: map<string, string>)
    requires ListsTravel(o)
    requires forall f :: Lookup(params, Key(name, f)) == Differing(o, b, f)
    ensures Resolve(Some(Decode(name, b, params)), b) == Resolve(Some(o), b)
  {
    assert Lookup(params, Key(name, Timeout)) == Differing(o, b, Timeout);
    assert Lookup(params, Key(name, Audio)) == Differing(o, b, Audio);
    assert Lookup(params, Key(name, Image)) == Differing(o, b, Image);
    assert Lookup(params, Key(name, Anim)) == Differing(o, b, Anim);
    assert Lookup(params, Key(name, AnimDuration)) == Differing(o, b, AnimDuration);
    assert Lookup(params, Key(name, AnimIterations)) == Differing(o, b, AnimIterations);
    assert Lookup(params, Key(name, AnimTiming)) == Differing(o, b, AnimTiming);
    NumberFieldRoundTrip(o.timeout, b.timeout);
    ListFieldRoundTrip(o.audioReferences, b.audioReferences);
    ListFieldRoundTrip(o.imageReferences, b.imageReferences);
    TextFieldRoundTrip(o.animation.reference, b.animation.reference);
    NumberFieldRoundTrip(o.animation.duration, b.animation.duration);
    NumberFieldRoundTrip(o.animation.iterations, b.animation.iterations);
    TextFieldRoundTrip(o.animation.timing, b.animation.timing);
  }

  /** The overrides whose lists survive a trip through a comma-joined URL
      parameter: every given list is non-empty and holds no comma. */
  predicate ListsTravel(o: AlertOverride) {
    (o.audioReferences.Val? ==> |o.audioReferences.value| >= 1 && SeparatorFree(o.audioReferences.value, ',')) &&
    (o.imageReferences.Val? ==> |o.imageReferences.value| >= 1 && SeparatorFree(o.imageReferences.value, ','))
  }
}
