/** The keyframe loader of `src/lib/animation.ts`: `createConfigs` turns a
    record of named keyframe lists into `@keyframes` blocks, writes them all
    into the style tag (replacing its text) and appends the names to the
    module's `loadedAnimations`, which is never cleared; `applyAnimation`
    puts an alert's animation settings on an element. */
module KeyframeLoader {
  import opened Js
  import opened Strings
  import opened JsMaps
  import opened Keyframes
  import opened CssText
  import PageAnimations

  /** The module's state: `loadedAnimations` and the text of the style tag
      `#dynamic-animation-styles` (created on the first write when the page
      has none). */
  datatype Loader = Loader(loadedAnimations: seq<string>, styleText: string)

  /** `Object.entries(config)`: each name with its keyframes, in entry
      order. */
  function ConfigBlocks(config: JsMap<seq<Keyframe>>): (bs: seq<(string, seq<Keyframe>)>)
    requires config.Valid()
    ensures |bs| == |config.keys|
    ensures forall i :: 0 <= i < |bs| ==> bs[i] == (config.keys[i], config.values[config.keys[i]])
  {
    seq(|config.keys|, i requires 0 <= i < |config.keys| => (config.keys[i], config.values[config.keys[i]]))
  }

  /** The style text `createConfigs` writes: every block joined by newlines,
      and a final newline. */
  function ConfigCss(config: JsMap<seq<Keyframe>>): string
    requires config.Valid()
  {
    Join(BlockTexts(ConfigBlocks(config)), '\n') + "\n"
  }

  /** `createConfigs(config)`: the names appended to `loadedAnimations` in
      entry order, and the style text replaced by the blocks. */
  function Created(l: Loader, config: JsMap<seq<Keyframe>>): (r: Loader)
    requires config.Valid()
    ensures |r.loadedAnimations| == |l.loadedAnimations| + |config.keys|
    ensures r.loadedAnimations[..|l.loadedAnimations|] == l.loadedAnimations
    ensures forall i :: 0 <= i < |config.keys| ==> r.loadedAnimations[|l.loadedAnimations| + i] == config.keys[i]
    ensures r.styleText == ConfigCss(config)
  {
    Loader(l.loadedAnimations + config.keys, ConfigCss(config))
  }

  /** `loadedAnimations` is never cleared: loading the same record twice
      lists its names twice, and the text is that of the last load. */
  lemma LoadTwiceListsTwice(l: Loader, config: JsMap<seq<Keyframe>>)
    requires config.Valid()
    ensures Created(Created(l, config), config).loadedAnimations == l.loadedAnimations + config.keys + config.keys
    ensures Created(Created(l, config), config).styleText == Created(l, config).styleText
  {
  }

  /** Read line by line, the style text after a load is every block's lines
      (header, one line per keyframe, "}") in entry order, then an empty
      line after the final newline. */
  lemma StyleTextLines(config: JsMap<seq<Keyframe>>)
    requires config.Valid() && |config.keys| >= 1
    requires forall k :: k in config.values ==> SingleLine(k, config.values[k])
    ensures Split(ConfigCss(config), '\n') == BlocksLines(ConfigBlocks(config)) + [""]
  {
    var blocks := ConfigBlocks(config);
    assert forall i :: 0 <= i < |blocks| ==> SingleLine(blocks[i].0, blocks[i].1) by {
      forall i | 0 <= i < |blocks|
        ensures SingleLine(blocks[i].0, blocks[i].1)
      {
        assert config.keys[i] in config.values;
      }
    }
    BlocksCssLines(blocks);
    BlocksLinesSingleLine(blocks);
    var lines := BlocksLines(blocks);
    SplitJoin(lines + [""], '\n');
    JoinAppend(lines, [""], '\n');
    assert Join([""], '\n') == "";
    JoinedBlocksJoinTheirLines(blocks);
    assert ConfigCss(config) == Join(lines, '\n') + ['\n'] + Join([""], '\n');
    assert SeparatorFree(lines + [""], '\n') by {
      forall i | 0 <= i < |lines + [""]|
        ensures '\n' !in (lines + [""])[i]
      {
        if i < |lines| {
          assert (lines + [""])[i] == lines[i];
        }
      }
    }
  }

  /** `AlertAnimationConfig` */
  datatype AlertAnimation = AlertAnimation(reference: string, duration: int, iterations: int, timing: string)

  /** `applyAnimation(element, animation)`: nothing when the element or the
      animation is missing; otherwise the name, the duration in ms, the
      timing function and the iteration count, in that order. */
  function AppliedWrites(hasElement: bool, animation: Option<AlertAnimation>): (ws: seq<StyleWrite>)
    ensures !hasElement || animation.None? ==> ws == []
    ensures hasElement && animation.Some? ==>
      var a := animation.value;
      ws == AnimationWrites(a.reference, IntToString(a.duration) + "ms", a.timing, IntToString(a.iterations))
  {
    if !hasElement || animation.None? then []
    else
      var a := animation.value;
      AnimationWrites(a.reference, IntToString(a.duration) + "ms", a.timing, IntToString(a.iterations))
  }

  /** `removeAnimation(element)`: nothing without an element; otherwise the
      four animation properties emptied. */
  function RemovedWrites(hasElement: bool): (ws: seq<StyleWrite>)
    ensures !hasElement ==> ws == []
    ensures hasElement ==> |ws| == 4 && forall k :: 0 <= k < 4 ==> ws[k] == StyleWrite(AnimationWrites("", "", "", "")[k].property, "")
  {
    if hasElement then AnimationWrites("", "", "", "") else []
  }

  /** Removing resets exactly the properties applying sets, in the same
      order. */
  lemma RemoveResetsApplied(a: AlertAnimation, k: nat)
    requires k < 4
    ensures RemovedWrites(true)[k].property == AppliedWrites(true, Some(a))[k].property
    ensures RemovedWrites(true)[k].value == ""
  {
  }

  /** The two ways of putting an animation on an element agree: these
      assignments are the ones the registry of `src/animation.ts` reads back
      from the CSS it generated for the same name, duration, timing function
      and count. */
  lemma AgreesWithRegistry(c: PageAnimations.AnimationConfig, n: int)
    requires c.iterationCount == Count(n)
    requires CssToken(c.name) && CssToken(c.timingFunction)
    ensures AppliedWrites(true, Some(AlertAnimation(c.name, c.duration, n, c.timingFunction))) ==
      PageAnimations.AppliedWrites(PageAnimations.Loaded(PageAnimations.Cleared(), [c]).current, c.name)
  {
    PageAnimations.ApplyAfterLoad([c], 0);
  }

  /** The loader's module state. */
  class AnimationLoader {
    var loadedAnimations: seq<string>
    var styleText: string

    function State(): Loader
      reads this
    {
      Loader(loadedAnimations, styleText)
    }

    /** The module's initialisation: no names loaded; the style tag holds
        what the page put there. */
    constructor (pageText: string)
      ensures State() == Loader([], pageText)
    {
      loadedAnimations := [];
      styleText := pageText;
    }

    /** `createConfigs(config)`: one block per entry built and collected,
        the name pushed, and the blocks written to the style tag. */
    method CreateConfigs(config: JsMap<seq<Keyframe>>)
      requires config.Valid()
      modifies this
      ensures State() == Created(old(State()), config)
    {
      var blocks := ConfigBlocks(config);
      var allKeyframesCss: seq<string> := [];
      for i := 0 to |config.keys|
        invariant allKeyframesCss == BlockTexts(blocks)[..i]
        invariant loadedAnimations == old(loadedAnimations) + config.keys[..i]
        invariant styleText == old(styleText)
      {
        var name := config.keys[i];
        var css := BuildKeyframeCss(name, config.values[name]);
        CreatedStep(config, i, allKeyframesCss, css, old(loadedAnimations), loadedAnimations);
        allKeyframesCss := allKeyframesCss + [css];
        loadedAnimations := loadedAnimations + [name];
      }
      assert BlockTexts(blocks)[..|config.keys|] == BlockTexts(blocks);
      assert config.keys[..|config.keys|] == config.keys;
      styleText := Join(allKeyframesCss, '\n') + "\n";
    }

    /** One more entry of the loop of `createConfigs`: its block text
        collected and its name pushed. */
    static lemma CreatedStep(config: JsMap<seq<Keyframe>>, i: nat, texts: seq<string>, css: string, names0: seq<string>, names: seq<string>)
      requires config.Valid() && i < |config.keys|
      requires texts == BlockTexts(ConfigBlocks(config))[..i] && names == names0 + config.keys[..i]
      requires css == KeyframeCss(config.keys[i], config.values[config.keys[i]])
      ensures texts + [css] == BlockTexts(ConfigBlocks(config))[..i + 1]
      ensures names + [config.keys[i]] == names0 + config.keys[..i + 1]
    {
      assert config.keys[..i + 1] == config.keys[..i] + [config.keys[i]];
    }

    /** `getAnimationNames()` */
    function AnimationNames(): (names: seq<string>)
      reads this
      ensures names == State().loadedAnimations
    {
      loadedAnimations
    }
  }
}
