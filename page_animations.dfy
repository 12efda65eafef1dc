/** The animation registry of `src/animation.ts`: one style tag holding the
    keyframe blocks of the loaded animations, a map from animation name to
    its generated CSS (`currentAnimations`), and `applyAnimation`, which
    reads an animation's property lines back into style assignments. */
module PageAnimations {
  import opened Js
  import opened Strings
  import opened JsMaps
  import opened Keyframes
  import opened CssText

  /** `AnimationConfig` as `src/settingsManager.ts` builds it. */
  datatype AnimationConfig = AnimationConfig(name: string, duration: int, timingFunction: string, iterationCount: IterationCount, keyframes: seq<Keyframe>)

  /** The generated CSS of one animation. */
  datatype Animation = Animation(keyframeCss: string, animationCss: string)

  /** The four property lines of `animationCss`: name, duration in
      milliseconds, timing function and iteration count. */
  function PropertyLines(c: AnimationConfig): (lines: seq<string>)
    ensures |lines| == 4
  {
    [PropertyLine("animation-name", c.name),
     PropertyLine("animation-duration", IntToString(c.duration) + "ms"),
     PropertyLine("animation-timing-function", c.timingFunction),
     PropertyLine("animation-iteration-count", IterationText(c.iterationCount))]
  }

  /** What `generateAnimationCss(config)` returns. */
  function Generated(c: AnimationConfig): Animation {
    Animation(KeyframeCss(c.name, c.keyframes), Join(PropertyLines(c), '\n'))
  }

  /** `generateAnimationCss(config)`: the keyframe block built line by line
      and the property lines joined by newlines. */
  method GenerateAnimationCss(c: AnimationConfig) returns (a: Animation)
    ensures a == Generated(c)
  {
    var keyframesCss := BuildKeyframeCss(c.name, c.keyframes);
    var animationCss := Join(PropertyLines(c), '\n');
    a := Animation(keyframesCss, animationCss);
  }

  /** The keyframe text is the header, one line per keyframe in entry order,
      and "}". */
  lemma GeneratedKeyframeLines(c: AnimationConfig)
    requires SingleLine(c.name, c.keyframes)
    ensures Split(Generated(c).keyframeCss, '\n') == KeyframeLines(c.name, c.keyframes)
  {
    KeyframeCssLines(c.name, c.keyframes);
  }

  /** The animation text is exactly four lines: name, duration in ms,
      timing function and iteration count. */
  lemma GeneratedPropertyLines(c: AnimationConfig)
    requires '\n' !in c.name && '\n' !in c.timingFunction
    ensures Split(Generated(c).animationCss, '\n') == PropertyLines(c)
  {
    var lines := PropertyLines(c);
    IntToStringHasNoSeparator(c.duration, '\n');
    IterationTextIsToken(c.iterationCount);
    assert IsSpace('\n');
    forall i | 0 <= i < 4
      ensures '\n' !in lines[i]
    {
    }
    SplitJoin(lines, '\n');
  }

  // ---------------------------------------------------------------------
  // loadAnimations

  /** The module's state: whether the style tag exists, its text, and
      `currentAnimations`. */
  datatype Registry = Registry(hasStyleTag: bool, styleText: string, current: JsMap<Animation>) {
    predicate Valid() {
      current.Valid()
    }
  }

  /** The registry that `loadAnimations` starts from: the text and the map
      cleared. */
  function Cleared(): (r: Registry)
    ensures r.Valid()
  {
    Registry(true, "", Empty())
  }

  /** The configs registered one after the other: a name already present
      is skipped; otherwise the keyframe block and a newline are appended
      to the style text and the name is mapped to its generated CSS. */
  function Registered(r: Registry, configs: seq<AnimationConfig>): (q: Registry)
    requires r.Valid()
    ensures q.Valid() && q.hasStyleTag == r.hasStyleTag
    decreases |configs|
  {
    if |configs| == 0 then r
    else Register(Registered(r, configs[..|configs| - 1]), configs[|configs| - 1])
  }

  /** One config of `loadAnimations`: skipped when its name is already
      registered, otherwise its keyframe block appended to the style text and
      its generated CSS stored under its name. */
  function Register(p: Registry, c: AnimationConfig): (q: Registry)
    requires p.Valid()
    ensures q.Valid() && q.hasStyleTag == p.hasStyleTag
  {
    if p.current.Has(c.name) then p
    else Registry(p.hasStyleTag, p.styleText + Generated(c).keyframeCss + "\n", p.current.Set(c.name, Generated(c)))
  }

  /** `loadAnimations(configs)`: nothing without a style tag; otherwise the
      configs registered into the cleared registry. */
  function Loaded(r: Registry, configs: seq<AnimationConfig>): (q: Registry)
    requires r.Valid()
    ensures q.Valid()
    ensures !r.hasStyleTag ==> q == r
    ensures r.hasStyleTag ==> q == Registered(Cleared(), configs)
  {
    if !r.hasStyleTag then r else Registered(Cleared(), configs)
  }

  /** A name is registered exactly when some config carries it. */
  lemma {:induction false} RegisteredNames(configs: seq<AnimationConfig>, name: string)
    ensures Registered(Cleared(), configs).current.Has(name) <==> exists i :: 0 <= i < |configs| && configs[i].name == name
    decreases |configs|
  {
    if |configs| > 0 {
      var init := configs[..|configs| - 1];
      RegisteredNames(init, name);
      RegisteredStep(configs, name);
      NamedSnoc(configs, name);
    }
  }

  /** Some config carries the name. */
  predicate Named(configs: seq<AnimationConfig>, name: string) {
    exists i :: 0 <= i < |configs| && configs[i].name == name
  }

  /** Some config carries a name exactly when one before the last does or
      the last one does. */
  lemma NamedSnoc(configs: seq<AnimationConfig>, name: string)
    requires |configs| > 0
    ensures Named(configs, name) <==> Named(configs[..|configs| - 1], name) || configs[|configs| - 1].name == name
  {
    var init := configs[..|configs| - 1];
    if exists i :: 0 <= i < |init| && init[i].name == name {
      var i :| 0 <= i < |init| && init[i].name == name;
      assert configs[i].name == name;
    }
    if exists i :: 0 <= i < |configs| && configs[i].name == name {
      var i :| 0 <= i < |configs| && configs[i].name == name;
      if i < |init| {
        assert init[i].name == name;
      }
    }
  }

  /** One more config registers its name and keeps the others. */
  lemma RegisteredStep(configs: seq<AnimationConfig>, name: string)
    requires |configs| > 0
    ensures Registered(Cleared(), configs).current.Has(name) <==>
      Registered(Cleared(), configs[..|configs| - 1]).current.Has(name) || configs[|configs| - 1].name == name
  {
  }

  /** The first config with a name is the one registered under it: later
      configs with the same name are skipped. */
  lemma {:induction false} FirstOccurrenceWins(configs: seq<AnimationConfig>, i: nat)
    requires i < |configs|
    requires forall j :: 0 <= j < i ==> configs[j].name != configs[i].name
    ensures Registered(Cleared(), configs).current.Get(configs[i].name) == Some(Generated(configs[i]))
    decreases |configs|
  {
    var n := |configs|;
    var init := configs[..n - 1];
    var name := configs[i].name;
    if i == n - 1 {
      RegisteredNames(init, name);
      assert forall j :: 0 <= j < |init| ==> init[j].name != name;
      RegisterGet(Registered(Cleared(), init), configs[i], name);
    } else {
      assert forall j :: 0 <= j < i ==> init[j] == configs[j];
      FirstOccurrenceWins(init, i);
      assert init[i] == configs[i];
      RegisterGet(Registered(Cleared(), init), configs[n - 1], name);
    }
  }

  /** Registering a config maps its name to its generated CSS when the name
      is new, and leaves every registered name as it was. */
  lemma RegisterGet(p: Registry, c: AnimationConfig, name: string)
    requires p.Valid()
    ensures p.current.Has(name) ==> Register(p, c).current.Get(name) == p.current.Get(name)
    ensures !p.current.Has(name) && name == c.name ==> Register(p, c).current.Get(name) == Some(Generated(c))
  {
  }

  /** The style text of a registration in which no name repeats: every
      config's keyframe block followed by a newline, in config order. */
  function StyleBlocks(configs: seq<AnimationConfig>): string
    decreases |configs|
  {
    if |configs| == 0 then ""
    else StyleBlocks(configs[..|configs| - 1]) + Generated(configs[|configs| - 1]).keyframeCss + "\n"
  }

  predicate DistinctNames(configs: seq<AnimationConfig>) {
    forall i, j :: 0 <= i < j < |configs| ==> configs[i].name != configs[j].name
  }

  function Names(configs: seq<AnimationConfig>): (ns: seq<string>)
    ensures |ns| == |configs|
    ensures forall i :: 0 <= i < |configs| ==> ns[i] == configs[i].name
  {
    seq(|configs|, i requires 0 <= i < |configs| => configs[i].name)
  }

  /** With no repeated name every config is registered: the names in config
      order, and every block in the style text in config order. */
  lemma {:induction false} DistinctNamesAllRegistered(configs: seq<AnimationConfig>)
    requires DistinctNames(configs)
    ensures Registered(Cleared(), configs).current.keys == Names(configs)
    ensures Registered(Cleared(), configs).styleText == StyleBlocks(configs)
    decreases |configs|
  {
    if |configs| > 0 {
      var init := configs[..|configs| - 1];
      var c := configs[|configs| - 1];
      assert forall i :: 0 <= i < |init| ==> init[i] == configs[i];
      DistinctNamesAllRegistered(init);
      LastNameIsNew(configs);
      RegisterNew(Registered(Cleared(), init), c);
      NamesSnoc(configs);
    }
  }

  lemma NamesSnoc(configs: seq<AnimationConfig>)
    requires |configs| > 0
    ensures Names(configs) == Names(configs[..|configs| - 1]) + [configs[|configs| - 1].name]
  {
  }

  /** With no repeated name, the last config's name is not yet registered
      by the ones before it. */
  lemma LastNameIsNew(configs: seq<AnimationConfig>)
    requires |configs| > 0 && DistinctNames(configs)
    ensures !Registered(Cleared(), configs[..|configs| - 1]).current.Has(configs[|configs| - 1].name)
  {
    var init := configs[..|configs| - 1];
    var c := configs[|configs| - 1];
    RegisteredNames(init, c.name);
    assert forall i :: 0 <= i < |init| ==> init[i].name != c.name;
  }

  /** A config whose name is new is registered: its name goes last and its
      block is appended. */
  lemma RegisterNew(p: Registry, c: AnimationConfig)
    requires p.Valid() && !p.current.Has(c.name)
    ensures Register(p, c).current.keys == p.current.keys + [c.name]
    ensures Register(p, c).styleText == p.styleText + Generated(c).keyframeCss + "\n"
  {
  }

  // ---------------------------------------------------------------------
  // applyAnimation

  /** `value.replace(/;$/, "")`: one trailing semicolon removed. */
  function DropFinalSemicolon(s: string): (r: string)
    ensures |s| > 0 && s[|s| - 1] == ';' ==> r == s[..|s| - 1]
    ensures !(|s| > 0 && s[|s| - 1] == ';') ==> r == s
  {
    if |s| > 0 && s[|s| - 1] == ';' then s[..|s| - 1] else s
  }

  /** One line of `applyAnimation`'s loop: the text before the first ":"
      names the property and the text between the first and the second ":"
      is the value; a line where either is missing or empty is skipped. */
  function LineWrite(line: string): Option<StyleWrite> {
    var parts := Split(line, ':');
    if parts[0] == "" || |parts| < 2 || parts[1] == "" then None
    else Some(StyleWrite(CamelCase(Trim(parts[0])), DropFinalSemicolon(Trim(parts[1]))))
  }

  /** The assignments `applyAnimation(element, name)` makes: none for an
      unknown name, otherwise one per complete line of the trimmed
      animation text. */
  function AppliedWrites(current: JsMap<Animation>, name: string): seq<StyleWrite> {
    match current.Get(name)
    case None => []
    case Some(a) => MapDefined(Split(Trim(a.animationCss), '\n'), LineWrite)
  }

  /** A line `prop: value;` splits at its one colon. */
  lemma SplitPropertyLine(prop: string, value: string)
    requires ':' !in prop && ':' !in value
    ensures Split(prop + ": " + value + ";", ':') == [prop, " " + value + ";"]
  {
    var rest := " " + value + ";";
    assert prop + ": " + value + ";" == prop + [':'] + rest;
    SplitAtFirst(prop, rest, ':');
    assert ':' !in rest;
    SplitWithoutSeparator(rest, ':');
  }

  /** The value part of such a line trims to the value and its semicolon. */
  lemma TrimPropertyValue(value: string)
    requires CssToken(value)
    ensures Trim(" " + value + ";") == value + ";"
  {
    var t := value + ";";
    assert " " + value + ";" == " " + t + "";
    assert AllSpace(" ") && AllSpace("");
    assert t[0] != ' ' && !IsSpace(t[0]);
    TrimPadded(" ", t, "");
  }

  /** A line made of a colon-free, untrimmable property, a colon and a
      value part that trims to the value and a semicolon. */
  lemma SplitLineWrite(line: string, prop: string, value: string)
    requires Split(line, ':') == [prop, " " + value + ";"]
    requires |prop| > 0 && Trim(prop) == prop && Trim(" " + value + ";") == value + ";"
    ensures LineWrite(line) == Some(StyleWrite(CamelCase(prop), value))
  {
    assert (value + ";")[..|value|] == value;
  }

  /** A line `prop: value;` gives the camel-cased property and the value. */
  lemma PropertyLineWrite(prop: string, value: string)
    requires |prop| > 0 && ':' !in prop && !IsSpace(prop[0]) && !IsSpace(prop[|prop| - 1]) && CssToken(value)
    ensures LineWrite(prop + ": " + value + ";") == Some(StyleWrite(CamelCase(prop), value))
  {
    assert ':' !in value;
    SplitPropertyLine(prop, value);
    TrimUnchanged(prop);
    TrimPropertyValue(value);
    SplitLineWrite(prop + ": " + value + ";", prop, value);
  }

  /** `PropertyLineWrite` with the camel-cased name given. */
  lemma NamedLineWrite(prop: string, camel: string, value: string)
    requires PlainProperty(prop) && CssToken(value) && CamelCase(prop) == camel
    ensures LineWrite(PropertyLine(prop, value)) == Some(StyleWrite(camel, value))
  {
    PropertyLineWrite(prop, value);
  }

  /** The trimmed animation text splits into the four property lines. */
  lemma TrimmedPropertyLines(c: AnimationConfig)
    requires CssToken(c.name) && CssToken(c.timingFunction)
    ensures Split(Trim(Generated(c).animationCss), '\n') == PropertyLines(c)
  {
    var lines := PropertyLines(c);
    var css := Generated(c).animationCss;
    assert IsSpace('\n');
    assert '\n' !in c.name && '\n' !in c.timingFunction;
    JoinEnds(lines, '\n');
    TrimUnchanged(css);
    GeneratedPropertyLines(c);
  }

  // The property names are passed in rather than written as literals, so
  // that the solver does not evaluate the string functions on them.

  lemma NameLineWrite(c: AnimationConfig, prop: string)
    requires prop == "animation-name" && CssToken(c.name)
    ensures LineWrite(PropertyLines(c)[0]) == Some(StyleWrite("animationName", c.name))
  {
    assert PlainProperty(prop);
    NameProperty(prop);
    NamedLineWrite(prop, "animationName", c.name);
  }

  lemma DurationLineWrite(c: AnimationConfig, prop: string)
    requires prop == "animation-duration"
    ensures LineWrite(PropertyLines(c)[1]) == Some(StyleWrite("animationDuration", IntToString(c.duration) + "ms"))
  {
    var duration := IntToString(c.duration) + "ms";
    IntTextIsToken(c.duration);
    assert CssToken(duration);
    assert PlainProperty(prop);
    DurationProperty(prop);
    NamedLineWrite(prop, "animationDuration", duration);
  }

  lemma TimingLineWrite(c: AnimationConfig, prop: string)
    requires prop == "animation-timing-function" && CssToken(c.timingFunction)
    ensures LineWrite(PropertyLines(c)[2]) == Some(StyleWrite("animationTimingFunction", c.timingFunction))
  {
    assert PlainProperty(prop);
    TimingProperty(prop);
    NamedLineWrite(prop, "animationTimingFunction", c.timingFunction);
  }

  lemma IterationLineWrite(c: AnimationConfig, prop: string)
    requires prop == "animation-iteration-count"
    ensures LineWrite(PropertyLines(c)[3]) == Some(StyleWrite("animationIterationCount", IterationText(c.iterationCount)))
  {
    IterationTextIsToken(c.iterationCount);
    assert PlainProperty(prop);
    IterationProperty(prop);
    NamedLineWrite(prop, "animationIterationCount", IterationText(c.iterationCount));
  }

  /** The four property lines read back as the four assignments. */
  lemma PropertyLinesWrites(c: AnimationConfig)
    requires CssToken(c.name) && CssToken(c.timingFunction)
    ensures var writes := AnimationWrites(c.name, IntToString(c.duration) + "ms", c.timingFunction, IterationText(c.iterationCount));
      forall k :: 0 <= k < 4 ==> LineWrite(PropertyLines(c)[k]) == Some(writes[k])
  {
    forall k | 0 <= k < 4
      ensures LineWrite(PropertyLines(c)[k]) == Some(AnimationWrites(c.name, IntToString(c.duration) + "ms", c.timingFunction, IterationText(c.iterationCount))[k])
    {
      if k == 0 {
        NameLineWrite(c, "animation-name");
      } else if k == 1 {
        DurationLineWrite(c, "animation-duration");
      } else if k == 2 {
        TimingLineWrite(c, "animation-timing-function");
      } else {
        IterationLineWrite(c, "animation-iteration-count");
      }
    }
  }

  /** Reading back the generated animation text gives the four assignments
      of the config's name, duration in ms, timing function and iteration
      count, when the name and timing function are CSS tokens. */
  lemma ParsedGeneratedWrites(c: AnimationConfig)
    requires CssToken(c.name) && CssToken(c.timingFunction)
    ensures MapDefined(Split(Trim(Generated(c).animationCss), '\n'), LineWrite) ==
      AnimationWrites(c.name, IntToString(c.duration) + "ms", c.timingFunction, IterationText(c.iterationCount))
  {
    TrimmedPropertyLines(c);
    PropertyLinesWrites(c);
    MapDefinedAllDefined(PropertyLines(c), LineWrite);
  }

  /** After loading, applying an animation whose name is a CSS token and
      whose first config is `c` makes exactly the four assignments of `c`. */
  lemma ApplyAfterLoad(configs: seq<AnimationConfig>, i: nat)
    requires i < |configs|
    requires forall j :: 0 <= j < i ==> configs[j].name != configs[i].name
    requires CssToken(configs[i].name) && CssToken(configs[i].timingFunction)
    ensures AppliedWrites(Loaded(Cleared(), configs).current, configs[i].name) ==
      AnimationWrites(configs[i].name, IntToString(configs[i].duration) + "ms", configs[i].timingFunction, IterationText(configs[i].iterationCount))
  {
    FirstOccurrenceWins(configs, i);
    ParsedGeneratedWrites(configs[i]);
  }

  /** An unknown name makes no assignment. */
  lemma UnknownNameAppliesNothing(configs: seq<AnimationConfig>, name: string)
    requires forall j :: 0 <= j < |configs| ==> configs[j].name != name
    ensures AppliedWrites(Loaded(Cleared(), configs).current, name) == []
  {
    RegisteredNames(configs, name);
  }

  /** `removeAnimationFromElement(element)`: the four animation properties
      emptied, in the order `applyAnimation` writes them for a generated
      animation. */
  function RemovedWrites(): (ws: seq<StyleWrite>)
    ensures |ws| == 4
    ensures forall k :: 0 <= k < 4 ==> ws[k].value == "" && ws[k].property == AnimationWrites("", "", "", "")[k].property
  {
    [StyleWrite("animationName", ""), StyleWrite("animationDuration", ""),
     StyleWrite("animationTimingFunction", ""), StyleWrite("animationIterationCount", "")]
  }

  /** The module's style tag and `currentAnimations`. */
  class AnimationRegistry {
    var hasStyleTag: bool
    var styleText: string
    var current: JsMap<Animation>

    function State(): Registry
      reads this
    {
      Registry(hasStyleTag, styleText, current)
    }

    ghost predicate Valid()
      reads this
    {
      current.Valid()
    }

    /** The module's initialisation: the style tag is looked up and created
        when missing, so it exists from then on (keeping the text of one
        already on the page); the map starts empty. */
    constructor (existingText: Option<string>)
      ensures Valid() && State() == Registry(true, existingText.OrElse(""), Empty())
    {
      hasStyleTag := true;
      styleText := existingText.OrElse("");
      current := Empty();
    }

    /** `loadAnimations(animationConfigs)` */
    method LoadAnimations(configs: seq<AnimationConfig>)
      requires Valid()
      modifies this
      ensures Valid() && State() == Loaded(old(State()), configs)
    {
      if !hasStyleTag {
        return;
      }
      styleText := "";
      current := Empty();
      for i := 0 to |configs|
        invariant Valid() && hasStyleTag
        invariant State() == Registered(Cleared(), configs[..i])
      {
        assert configs[..i + 1][..i] == configs[..i];
        var c := configs[i];
        var animation := GenerateAnimationCss(c);
        if current.Has(c.name) {
          continue;
        }
        styleText := styleText + animation.keyframeCss + "\n";
        current := current.Set(c.name, animation);
      }
      assert configs[..|configs|] == configs;
    }

    /** `applyAnimation(element, name)`, with the assignments to
        `element.style` returned in order. */
    method ApplyAnimation(name: string) returns (writes: seq<StyleWrite>)
      ensures writes == AppliedWrites(current, name)
    {
      var animation := current.Get(name);
      if animation.None? {
        return [];
      }
      var lines := Split(Trim(animation.value.animationCss), '\n');
      writes := [];
      for i := 0 to |lines|
        invariant writes == MapDefined(lines[..i], LineWrite)
      {
        MapDefinedStep(lines, LineWrite, i);
        var parts := Split(lines[i], ':');
        if parts[0] == "" || |parts| < 2 || parts[1] == "" {
          continue;
        }
        var prop := Trim(parts[0]);
        var value := DropFinalSemicolon(Trim(parts[1]));
        writes := writes + [StyleWrite(CamelCase(prop), value)];
      }
      assert lines[..|lines|] == lines;
    }
  }
}
