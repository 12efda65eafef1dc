/** The animation helpers of `src/util.ts`: `generateAnimationCss` writes an
    animation's `@keyframes` block and its four animation properties as one
    text, the two parts separated by a blank line; `applyAnimationToElement`
    splits such a text at the blank line, adds the keyframe block to the
    page's style tag unless the tag already contains it, and reads the
    property lines back into style assignments. */
module InlineAnimations {
  import opened Js
  import opened Strings
  import opened Keyframes
  import opened CssText
  import opened VariantSettings
  import PageAnimations

  // ---------------------------------------------------------------------
  // generateAnimationCss

  /** ` prop: val;` */
  function DeclText(d: (string, CssValue)): string {
    " " + d.0 + ": " + ValueText(d.1) + ";"
  }

  /** ` prop: val;` for each declaration, in entry order. */
  function DeclsText(ds: seq<(string, CssValue)>): string
    decreases |ds|
  {
    if |ds| == 0 then "" else DeclsText(ds[..|ds| - 1]) + DeclText(ds[|ds| - 1])
  }

  /** `\n  pct {` */
  function KeyframeOpen(k: Keyframe): string {
    "\n  " + k.selector + " {"
  }

  /** What one keyframe adds: `\n  pct {`, its declarations and ` }`. */
  function KeyframeBlock(k: Keyframe): string {
    KeyframeOpen(k) + DeclsText(k.declarations) + " }"
  }

  /** Every keyframe's block, in entry order. */
  function KeyframesText(kfs: seq<Keyframe>): string
    decreases |kfs|
  {
    if |kfs| == 0 then "" else KeyframesText(kfs[..|kfs| - 1]) + KeyframeBlock(kfs[|kfs| - 1])
  }

  /** The line of one keyframe: the block without its line break. */
  function InlineKeyframeLine(k: Keyframe): string {
    "  " + k.selector + " {" + DeclsText(k.declarations) + " }"
  }

  lemma BlockIsLine(k: Keyframe)
    ensures KeyframeBlock(k) == ['\n'] + InlineKeyframeLine(k)
  {
  }

  /** The last keyframe's line comes last, after a line break. */
  lemma TextSnoc(kfs: seq<Keyframe>)
    requires |kfs| > 0
    ensures KeyframesText(kfs) == KeyframesText(kfs[..|kfs| - 1]) + ['\n'] + InlineKeyframeLine(kfs[|kfs| - 1])
  {
    BlockIsLine(kfs[|kfs| - 1]);
  }

  /** The keyframe part of `generateAnimationCss`. */
  function InlineKeyframeCss(name: string, kfs: seq<Keyframe>): string {
    Header(name) + KeyframesText(kfs) + "\n}"
  }

  /** `${timing}` of a timing function that may be `null`. */
  function TimingText(t: Option<string>): (s: string)
    ensures t.None? ==> s == "null"
    ensures t.Some? ==> s == t.value
  {
    match t
    case None => "null"
    case Some(v) => v
  }

  /** The indentation of the property lines in the template. */
  const Indent := "      "

  /** The property part of `generateAnimationCss`: a line break, the four
      property lines each indented by six spaces, and a line break with four
      spaces. */
  function AnimProps(c: RawAnimation): string {
    PropsText(PropertyLine("animation-name", c.name),
      PropertyLine("animation-duration", IntToString(c.duration) + "ms"),
      PropertyLine("animation-timing-function", TimingText(c.timingFunction)),
      PropertyLine("animation-iteration-count", IterationText(c.iterationCount)))
  }

  /** The template of the property part, over its four lines. */
  function PropsText(l0: string, l1: string, l2: string, l3: string): string {
    "\n" + Indent + l0 + "\n" + Indent + l1 + "\n" + Indent + l2 + "\n" + Indent + l3 + "\n    "
  }

  /** `generateAnimationCss(config)`: keyframes, a blank line, properties. */
  function Generated(c: RawAnimation): string {
    InlineKeyframeCss(c.name, c.keyframes) + "\n\n" + AnimProps(c)
  }

  /** `generateAnimationCss(config)`, the text built with `+=` in two nested
      loops. */
  method GenerateAnimationCss(c: RawAnimation) returns (css: string)
    ensures css == Generated(c)
  {
    var keyframesCss := "@keyframes " + c.name + " {";
    keyframesCss := AppendKeyframes(keyframesCss, c.keyframes);
    keyframesCss := keyframesCss + "\n}";
    css := keyframesCss + "\n\n" + AnimProps(c);
  }

  /** The outer loop of `generateAnimationCss`: for each keyframe, its
      opening, its declarations and ` }` appended. */
  method AppendKeyframes(text: string, kfs: seq<Keyframe>) returns (r: string)
    ensures r == text + KeyframesText(kfs)
  {
    r := text;
    for i := 0 to |kfs|
      invariant r == text + KeyframesText(kfs[..i])
    {
      var k := kfs[i];
      ghost var before := r;
      r := r + KeyframeOpen(k);
      r := AppendDeclarations(r, k.declarations);
      r := r + " }";
      AppendedBlock(text, kfs, i, before);
    }
    assert kfs[..|kfs|] == kfs;
  }

  /** One more keyframe's opening, declarations and ` }` after the text of
      the ones before it. */
  lemma AppendedBlock(text: string, kfs: seq<Keyframe>, i: nat, before: string)
    requires i < |kfs| && before == text + KeyframesText(kfs[..i])
    ensures before + KeyframeOpen(kfs[i]) + DeclsText(kfs[i].declarations) + " }" == text + KeyframesText(kfs[..i + 1])
  {
    assert kfs[..i + 1][..i] == kfs[..i];
    Append4(before, KeyframeOpen(kfs[i]), DeclsText(kfs[i].declarations), " }");
    Append3(text, KeyframesText(kfs[..i]), KeyframeBlock(kfs[i]));
  }

  lemma Append4(a: string, b: string, c: string, d: string)
    ensures a + b + c + d == a + (b + c + d)
  {
  }

  lemma Append3(a: string, b: string, c: string)
    ensures a + (b + c) == a + b + c
  {
  }

  lemma EmptyPrefix(s: string)
    ensures "" + s == s
  {
  }

  /** A prefix before a property line. */
  lemma PrefixedPropertyLine(pre: string, prop: string, value: string)
    ensures pre + PropertyLine(prop, value) == (pre + prop) + ": " + value + ";"
  {
    Append3(pre, (prop + ": ") + value, ";");
    Append3(pre, prop + ": ", value);
    Append3(pre, prop, ": ");
  }

  /** The inner loop of `generateAnimationCss`: ` prop: val;` appended for
      each declaration. */
  method AppendDeclarations(text: string, ds: seq<(string, CssValue)>) returns (r: string)
    ensures r == text + DeclsText(ds)
  {
    r := text;
    for j := 0 to |ds|
      invariant r == text + DeclsText(ds[..j])
    {
      AppendedDecl(text, ds, j, r);
      r := r + DeclText(ds[j]);
    }
    assert ds[..|ds|] == ds;
  }

  /** One more declaration after the text of the ones before it. */
  lemma AppendedDecl(text: string, ds: seq<(string, CssValue)>, j: nat, before: string)
    requires j < |ds| && before == text + DeclsText(ds[..j])
    ensures before + DeclText(ds[j]) == text + DeclsText(ds[..j + 1])
  {
    assert ds[..j + 1][..j] == ds[..j];
    Append3(text, DeclsText(ds[..j]), DeclText(ds[j]));
  }

  // ---------------------------------------------------------------------
  // The keyframe text line by line

  /** One line per keyframe, in entry order. */
  function LinesOf(kfs: seq<Keyframe>): (lines: seq<string>)
    ensures |lines| == |kfs|
    ensures forall i :: 0 <= i < |kfs| ==> lines[i] == InlineKeyframeLine(kfs[i])
  {
    seq(|kfs|, i requires 0 <= i < |kfs| => InlineKeyframeLine(kfs[i]))
  }

  /** The lines of the keyframe text: the header, one line per keyframe in
      entry order, and "}". */
  function InlineKeyframeLines(name: string, kfs: seq<Keyframe>): (lines: seq<string>)
    ensures |lines| == |kfs| + 2
    ensures lines[0] == Header(name) && lines[|lines| - 1] == "}"
    ensures forall i :: 0 <= i < |kfs| ==> lines[i + 1] == InlineKeyframeLine(kfs[i])
  {
    [Header(name)] + LinesOf(kfs) + ["}"]
  }

  lemma LinesSnoc(kfs: seq<Keyframe>)
    requires |kfs| > 0
    ensures LinesOf(kfs) == LinesOf(kfs[..|kfs| - 1]) + [InlineKeyframeLine(kfs[|kfs| - 1])]
  {
  }

  /** A list followed by one more piece joins to the list's join, the
      separator and the piece. */
  lemma JoinSnoc(xs: seq<string>, x: string, sep: char)
    requires |xs| >= 1
    ensures Join(xs + [x], sep) == Join(xs, sep) + [sep] + x
  {
    JoinAppend(xs, [x], sep);
  }

  /** A first line followed by the keyframe lines, each after a line break,
      is the join of the first line and the keyframe lines. */
  lemma {:induction false} KeyframesTextJoin(h: string, kfs: seq<Keyframe>)
    ensures h + KeyframesText(kfs) == Join([h] + LinesOf(kfs), '\n')
    decreases |kfs|
  {
    if |kfs| == 0 {
      assert [h] + LinesOf(kfs) == [h];
      assert h + KeyframesText(kfs) == h;
    } else {
      var init := kfs[..|kfs| - 1];
      KeyframesTextJoin(h, init);
      LinesSnoc(kfs);
      TextSnoc(kfs);
      JoinExtend(h, KeyframesText(init), LinesOf(init), InlineKeyframeLine(kfs[|kfs| - 1]));
    }
  }

  /** One more line after a line break extends the join by that line. */
  lemma JoinExtend(h: string, t: string, lines: seq<string>, last: string)
    requires h + t == Join([h] + lines, '\n')
    ensures h + (t + ['\n'] + last) == Join([h] + (lines + [last]), '\n')
  {
    assert [h] + (lines + [last]) == ([h] + lines) + [last];
    JoinSnoc([h] + lines, last, '\n');
    assert h + (t + ['\n'] + last) == (h + t) + ['\n'] + last;
  }

  /** No newline in the declarations of a keyframe whose properties and
      values have none. */
  lemma {:induction false} DeclsTextSingleLine(ds: seq<(string, CssValue)>)
    requires forall j :: 0 <= j < |ds| ==> '\n' !in ds[j].0 && '\n' !in ValueText(ds[j].1)
    ensures '\n' !in DeclsText(ds)
    decreases |ds|
  {
    if |ds| > 0 {
      DeclsTextSingleLine(ds[..|ds| - 1]);
    }
  }

  /** Read line by line, the keyframe text is the header, one line per
      keyframe in entry order, and "}". */
  lemma InlineKeyframeCssLines(name: string, kfs: seq<Keyframe>)
    requires SingleLine(name, kfs)
    ensures Split(InlineKeyframeCss(name, kfs), '\n') == InlineKeyframeLines(name, kfs)
  {
    InlineKeyframeCssJoin(name, kfs);
    InlineKeyframeLinesSingle(name, kfs);
    SplitJoin(InlineKeyframeLines(name, kfs), '\n');
  }

  /** The keyframe text is its lines joined by line breaks. */
  lemma InlineKeyframeCssJoin(name: string, kfs: seq<Keyframe>)
    ensures InlineKeyframeCss(name, kfs) == Join(InlineKeyframeLines(name, kfs), '\n')
  {
    var front := [Header(name)] + LinesOf(kfs);
    KeyframesTextJoin(Header(name), kfs);
    JoinSnoc(front, "}", '\n');
    assert InlineKeyframeCss(name, kfs) == (Header(name) + KeyframesText(kfs)) + ['\n'] + "}";
  }

  /** No line of the keyframe text holds a line break. */
  lemma InlineKeyframeLinesSingle(name: string, kfs: seq<Keyframe>)
    requires SingleLine(name, kfs)
    ensures SeparatorFree(InlineKeyframeLines(name, kfs), '\n')
  {
    var lines := InlineKeyframeLines(name, kfs);
    forall i | 0 <= i < |lines|
      ensures '\n' !in lines[i]
    {
      if 1 <= i <= |kfs| {
        KeyframeLineSingle(kfs[i - 1]);
      }
    }
  }

  lemma KeyframeLineSingle(k: Keyframe)
    requires '\n' !in k.selector
    requires forall j :: 0 <= j < |k.declarations| ==> '\n' !in k.declarations[j].0 && '\n' !in ValueText(k.declarations[j].1)
    ensures '\n' !in InlineKeyframeLine(k)
  {
    DeclsTextSingleLine(k.declarations);
  }

  // ---------------------------------------------------------------------
  // Splitting the generated text at the blank line

  /** Every line break is followed by a character other than a line break:
      the text has no blank line and does not end with a line break. */
  predicate LoneBreaks(s: string) {
    forall i :: 0 <= i < |s| && s[i] == '\n' ==> i + 1 < |s| && s[i + 1] != '\n'
  }

  lemma LoneBreaksAppend(a: string, b: string)
    requires LoneBreaks(a) && LoneBreaks(b)
    ensures LoneBreaks(a + b)
  {
    var s := a + b;
    forall i | 0 <= i < |s| && s[i] == '\n'
      ensures i + 1 < |s| && s[i + 1] != '\n'
    {
      if i < |a| {
        assert a[i] == '\n';
      } else {
        assert b[i - |a|] == '\n';
      }
    }
  }

  /** A line break, then a line that starts with something other than a
      line break and has none inside. */
  lemma BreakThenLine(line: string)
    requires |line| > 0 && line[0] != '\n' && '\n' !in line
    ensures LoneBreaks("\n" + line)
  {
    var s := "\n" + line;
    assert forall i :: 1 <= i < |s| ==> s[i] == line[i - 1];
  }

  /** A text without a blank line, a line break and a line. */
  lemma LoneBreaksThenLine(a: string, line: string)
    requires LoneBreaks(a) && |line| > 0 && line[0] != '\n' && '\n' !in line
    ensures LoneBreaks(a + ['\n'] + line)
  {
    BreakThenLine(line);
    assert a + ['\n'] + line == a + ("\n" + line);
    LoneBreaksAppend(a, "\n" + line);
  }

  /** A text without any blank line has no occurrence of "\n\n". */
  lemma LoneBreaksNoBlankLine(s: string)
    requires LoneBreaks(s)
    ensures forall j :: 0 <= j < |s| ==> !OccursAt(s, "\n\n", j)
  {
    forall j | 0 <= j < |s|
      ensures !OccursAt(s, "\n\n", j)
    {
      if j + 2 <= |s| {
        assert s[j..j + 2][0] == s[j] && s[j..j + 2][1] == s[j + 1];
      }
    }
  }

  lemma {:induction false} KeyframesTextLoneBreaks(kfs: seq<Keyframe>)
    requires forall i :: 0 <= i < |kfs| ==> '\n' !in InlineKeyframeLine(kfs[i])
    ensures LoneBreaks(KeyframesText(kfs))
    decreases |kfs|
  {
    if |kfs| > 0 {
      var init := kfs[..|kfs| - 1];
      assert forall i :: 0 <= i < |init| ==> init[i] == kfs[i];
      KeyframesTextLoneBreaks(init);
      TextSnoc(kfs);
      LoneBreaksThenLine(KeyframesText(init), InlineKeyframeLine(kfs[|kfs| - 1]));
    }
  }

  /** The keyframe text has no blank line. */
  lemma InlineKeyframeCssLoneBreaks(name: string, kfs: seq<Keyframe>)
    requires SingleLine(name, kfs)
    ensures LoneBreaks(InlineKeyframeCss(name, kfs))
  {
    forall i | 0 <= i < |kfs|
      ensures '\n' !in InlineKeyframeLine(kfs[i])
    {
      DeclsTextSingleLine(kfs[i].declarations);
    }
    KeyframesTextLoneBreaks(kfs);
    assert LoneBreaks(Header(name));
    LoneBreaksAppend(Header(name), KeyframesText(kfs));
    BreakThenLine("}");
    LoneBreaksAppend(Header(name) + KeyframesText(kfs), "\n}");
  }

  /** No newline in a name, a timing function, the duration and the count. */
  predicate PropsSingleLine(c: RawAnimation) {
    '\n' !in c.name && '\n' !in TimingText(c.timingFunction)
  }

  /** An indented line after a line break. */
  lemma IndentedLoneBreaks(line: string)
    requires '\n' !in line
    ensures LoneBreaks("\n" + Indent + line)
  {
    var indented := Indent + line;
    assert "\n" + Indent + line == "\n" + indented;
    assert indented[0] == ' ';
    BreakThenLine(indented);
  }

  /** Four indented lines and the closing indentation. */
  lemma PropsLoneBreaks(l0: string, l1: string, l2: string, l3: string)
    requires '\n' !in l0 && '\n' !in l1 && '\n' !in l2 && '\n' !in l3
    ensures LoneBreaks(PropsText(l0, l1, l2, l3))
  {
    var b0 := "\n" + Indent + l0;
    var b1 := "\n" + Indent + l1;
    var b2 := "\n" + Indent + l2;
    var b3 := "\n" + Indent + l3;
    IndentedLoneBreaks(l0);
    IndentedLoneBreaks(l1);
    IndentedLoneBreaks(l2);
    IndentedLoneBreaks(l3);
    BreakThenLine("    ");
    LoneBreaksAppend(b0, b1);
    LoneBreaksAppend(b0 + b1, b2);
    LoneBreaksAppend(b0 + b1 + b2, b3);
    LoneBreaksAppend(b0 + b1 + b2 + b3, "\n    ");
    assert PropsText(l0, l1, l2, l3) == b0 + b1 + b2 + b3 + "\n    ";
  }

  /** The property text has no blank line. */
  lemma AnimPropsLoneBreaks(c: RawAnimation)
    requires PropsSingleLine(c)
    ensures LoneBreaks(AnimProps(c))
  {
    IntTextIsToken(c.duration);
    IterationTextIsToken(c.iterationCount);
    assert IsSpace('\n');
    assert '\n' !in IntToString(c.duration) + "ms";
    PropsLoneBreaks(PropertyLine("animation-name", c.name),
      PropertyLine("animation-duration", IntToString(c.duration) + "ms"),
      PropertyLine("animation-timing-function", TimingText(c.timingFunction)),
      PropertyLine("animation-iteration-count", IterationText(c.iterationCount)));
  }

  /** Splitting the generated text at "\n\n" gives the keyframe text and the
      property text back. */
  lemma SplitGenerated(c: RawAnimation)
    requires SingleLine(c.name, c.keyframes) && PropsSingleLine(c)
    ensures SplitOn(Generated(c), "\n\n") == [InlineKeyframeCss(c.name, c.keyframes), AnimProps(c)]
  {
    var kf := InlineKeyframeCss(c.name, c.keyframes);
    var props := AnimProps(c);
    var s := kf + "\n\n" + props;
    InlineKeyframeCssLoneBreaks(c.name, c.keyframes);
    AnimPropsLoneBreaks(c);
    forall j | 0 <= j < |kf|
      ensures !OccursAt(s, "\n\n", j)
    {
      if j + 2 <= |s| {
        assert s[j..j + 2][0] == s[j] == kf[j] && s[j..j + 2][1] == s[j + 1];
        if j + 1 < |kf| {
          assert s[j + 1] == kf[j + 1];
        }
      }
    }
    SplitOnFirst(kf, "\n\n", props);
    LoneBreaksNoBlankLine(props);
    SplitOnWithout(props, "\n\n");
  }

  // ---------------------------------------------------------------------
  // applyAnimationToElement

  /** `s.includes(t)` */
  predicate Includes(s: string, t: string) {
    |t| == 0 || IndexOfText(s, t) < |s|
  }

  /** `includes` holds exactly when the text occurs somewhere. */
  lemma IncludesOccurs(s: string, t: string)
    requires |t| > 0
    ensures Includes(s, t) <==> exists i :: 0 <= i < |s| && OccursAt(s, t, i)
  {
  }

  /** Text just appended is included. */
  lemma IncludesAppended(s: string, t: string)
    ensures Includes(s + t, t)
  {
    if |t| > 0 {
      assert (s + t)[|s|..|s| + |t|] == t;
      assert OccursAt(s + t, t, |s|);
    }
  }

  /** One line of the `forEach`: the line split at ":" and the first two
      pieces trimmed; with both non-empty, the camel-cased property gets the
      value with its first ";" removed. */
  function InlineLineWrite(line: string): (w: Option<StyleWrite>)
    ensures w.Some? <==> |Split(line, ':')| >= 2 && Trim(Split(line, ':')[0]) != "" && Trim(Split(line, ':')[1]) != ""
  {
    var parts := Split(line, ':');
    var prop := Trim(parts[0]);
    if |parts| < 2 then None
    else
      var value := Trim(parts[1]);
      if prop == "" || value == "" then None
      else Some(StyleWrite(CamelCase(prop), RemoveFirst(value, ';')))
  }

  /** What `applyAnimationToElement` leaves: the style tag's text, the
      assignments made, and whether it threw because the text had no blank
      line (`animProperties` is then `undefined`). */
  datatype Outcome = Outcome(styleText: string, writes: seq<StyleWrite>, threw: bool)

  /** `applyAnimationToElement(element, css)`: nothing for a missing or
      empty text; otherwise the part before the first blank line added to
      the style tag unless already included, and the assignments read from
      the trimmed lines of the part after it. */
  function Applied(styleText: string, css: Option<string>): (o: Outcome)
    ensures css.None? || css.value == "" ==> o == Outcome(styleText, [], false)
    ensures css.Some? && css.value != "" ==>
      var parts := SplitOn(css.value, "\n\n");
      && Includes(o.styleText, parts[0])
      && o.styleText == (if Includes(styleText, parts[0]) then styleText else styleText + parts[0])
      && (o.threw <==> |parts| < 2)
      && (o.threw ==> o.writes == [])
  {
    if css.None? || css.value == "" then Outcome(styleText, [], false)
    else
      var parts := SplitOn(css.value, "\n\n");
      var keyframesCss := parts[0];
      var text := if Includes(styleText, keyframesCss) then styleText else styleText + keyframesCss;
      IncludesAppended(styleText, keyframesCss);
      if |parts| < 2 then Outcome(text, [], true)
      else Outcome(text, MapDefined(Split(Trim(parts[1]), '\n'), InlineLineWrite), false)
  }

  /** Applying the same text again leaves the style tag as it is: the
      keyframe block is added at most once. */
  lemma AppliedTwiceAddsOnce(styleText: string, css: Option<string>)
    ensures Applied(Applied(styleText, css).styleText, css).styleText == Applied(styleText, css).styleText
  {
  }

  // ---------------------------------------------------------------------
  // Reading the generated properties back

  /** The trimmed lines of the template: the first unindented, the others
      still indented. */
  function PropsLines(l0: string, l1: string, l2: string, l3: string): seq<string> {
    [l0, Indent + l1, Indent + l2, Indent + l3]
  }

  /** The trimmed property text of a generated animation. */
  function TrimmedProps(c: RawAnimation): (lines: seq<string>)
    ensures |lines| == 4
  {
    PropsLines(PropertyLine("animation-name", c.name),
      PropertyLine("animation-duration", IntToString(c.duration) + "ms"),
      PropertyLine("animation-timing-function", TimingText(c.timingFunction)),
      PropertyLine("animation-iteration-count", IterationText(c.iterationCount)))
  }

  /** The template is its trimmed lines joined, between white space. */
  lemma PropsTextShape(l0: string, l1: string, l2: string, l3: string)
    ensures PropsText(l0, l1, l2, l3) == ("\n" + Indent) + Join(PropsLines(l0, l1, l2, l3), '\n') + "\n    "
  {
    var ls := PropsLines(l0, l1, l2, l3);
    assert Join(ls[3..], '\n') == ls[3];
    assert Join(ls[2..], '\n') == ls[2] + "\n" + ls[3];
    assert Join(ls[1..], '\n') == ls[1] + "\n" + ls[2] + "\n" + ls[3];
  }

  /** Trimmed and split, the template gives its lines back when they hold no
      line break and the text starts and ends with something else than
      white space. */
  lemma PropsTextLines(l0: string, l1: string, l2: string, l3: string)
    requires '\n' !in l0 && '\n' !in l1 && '\n' !in l2 && '\n' !in l3
    requires |l0| > 0 && !IsSpace(l0[0]) && |l3| > 0 && !IsSpace(l3[|l3| - 1])
    ensures Split(Trim(PropsText(l0, l1, l2, l3)), '\n') == PropsLines(l0, l1, l2, l3)
  {
    var ls := PropsLines(l0, l1, l2, l3);
    var core := Join(ls, '\n');
    PropsTextShape(l0, l1, l2, l3);
    assert IsSpace('\n');
    JoinEnds(ls, '\n');
    assert AllSpace("\n" + Indent) && AllSpace("\n    ");
    TrimPadded("\n" + Indent, core, "\n    ");
    assert '\n' !in Indent;
    SplitJoin(ls, '\n');
  }

  /** Trimmed and split, the property text gives its four lines. */
  lemma AnimPropsLines(c: RawAnimation)
    requires CssToken(c.name) && CssToken(TimingText(c.timingFunction))
    ensures Split(Trim(AnimProps(c)), '\n') == TrimmedProps(c)
  {
    IntTextIsToken(c.duration);
    IterationTextIsToken(c.iterationCount);
    assert IsSpace('\n');
    var l3 := PropertyLine("animation-iteration-count", IterationText(c.iterationCount));
    assert l3[|l3| - 1] == ';';
    PropsTextLines(PropertyLine("animation-name", c.name),
      PropertyLine("animation-duration", IntToString(c.duration) + "ms"),
      PropertyLine("animation-timing-function", TimingText(c.timingFunction)), l3);
  }

  /** A line whose two colon-separated pieces trim to a property and to a
      value with its semicolon gives the camel-cased property and the
      value. */
  lemma SplitInlineWrite(line: string, head: string, prop: string, value: string)
    requires Split(line, ':') == [head, " " + value + ";"]
    requires |prop| > 0 && Trim(head) == prop && Trim(" " + value + ";") == value + ";" && ';' !in value
    ensures InlineLineWrite(line) == Some(StyleWrite(CamelCase(prop), value))
  {
    var parts := Split(line, ':');
    assert Trim(parts[0]) == prop && Trim(parts[1]) == value + ";";
    RemoveFinalSemicolon(value);
  }

  /** The first ";" of a value and its final semicolon is the final one. */
  lemma RemoveFinalSemicolon(value: string)
    requires ';' !in value
    ensures RemoveFirst(value + ";", ';') == value
  {
    assert IndexOf(value + ";", ';') == |value|;
    assert (value + ";")[..|value|] == value;
  }

  /** A line of white space, a property, ": ", a value and ";" gives the
      property camel-cased and the value. */
  lemma InlineLineOf(pre: string, prop: string, value: string, camel: string)
    requires AllSpace(pre) && ':' !in pre
    requires |prop| > 0 && ':' !in prop && !IsSpace(prop[0]) && !IsSpace(prop[|prop| - 1])
    requires CssToken(value) && CamelCase(prop) == camel
    ensures InlineLineWrite(pre + PropertyLine(prop, value)) == Some(StyleWrite(camel, value))
  {
    assert ':' !in value && ';' !in value;
    assert ':' !in pre + prop;
    PageAnimations.SplitPropertyLine(pre + prop, value);
    PrefixedPropertyLine(pre, prop, value);
    TrimPadded(pre, prop, "");
    assert pre + prop + "" == pre + prop;
    PageAnimations.TrimPropertyValue(value);
    SplitInlineWrite(pre + PropertyLine(prop, value), pre + prop, prop, value);
  }

  /** A plain property's line, after some indentation, gives the
      camel-cased property and the value. */
  lemma IndentedLine(pre: string, prop: string, camel: string, value: string, line: string)
    requires pre == "" || pre == Indent
    requires PlainProperty(prop) && CamelCase(prop) == camel && CssToken(value)
    requires line == pre + PropertyLine(prop, value)
    ensures InlineLineWrite(line) == Some(StyleWrite(camel, value))
  {
    assert AllSpace(pre) && ':' !in pre;
    InlineLineOf(pre, prop, value, camel);
  }

  // The property names are passed in rather than written as literals, so
  // that the solver does not evaluate the string functions on them.

  lemma NameLine(c: RawAnimation, prop: string)
    requires prop == "animation-name" && CssToken(c.name)
    ensures InlineLineWrite(TrimmedProps(c)[0]) == Some(StyleWrite("animationName", c.name))
  {
    assert PlainProperty(prop);
    NameProperty(prop);
    EmptyPrefix(PropertyLine(prop, c.name));
    IndentedLine("", prop, "animationName", c.name, TrimmedProps(c)[0]);
  }

  lemma DurationLine(c: RawAnimation, prop: string)
    requires prop == "animation-duration"
    ensures InlineLineWrite(TrimmedProps(c)[1]) == Some(StyleWrite("animationDuration", IntToString(c.duration) + "ms"))
  {
    var duration := IntToString(c.duration) + "ms";
    IntTextIsToken(c.duration);
    assert CssToken(duration);
    assert PlainProperty(prop);
    DurationProperty(prop);
    IndentedLine(Indent, prop, "animationDuration", duration, TrimmedProps(c)[1]);
  }

  lemma TimingLine(c: RawAnimation, prop: string)
    requires prop == "animation-timing-function" && CssToken(TimingText(c.timingFunction))
    ensures InlineLineWrite(TrimmedProps(c)[2]) == Some(StyleWrite("animationTimingFunction", TimingText(c.timingFunction)))
  {
    assert PlainProperty(prop);
    TimingProperty(prop);
    IndentedLine(Indent, prop, "animationTimingFunction", TimingText(c.timingFunction), TrimmedProps(c)[2]);
  }

  lemma IterationLine(c: RawAnimation, prop: string)
    requires prop == "animation-iteration-count"
    ensures InlineLineWrite(TrimmedProps(c)[3]) == Some(StyleWrite("animationIterationCount", IterationText(c.iterationCount)))
  {
    IterationTextIsToken(c.iterationCount);
    assert PlainProperty(prop);
    IterationProperty(prop);
    IndentedLine(Indent, prop, "animationIterationCount", IterationText(c.iterationCount), TrimmedProps(c)[3]);
  }

  /** The writes of the generated properties. */
  function GeneratedWrites(c: RawAnimation): seq<StyleWrite> {
    AnimationWrites(c.name, IntToString(c.duration) + "ms", TimingText(c.timingFunction), IterationText(c.iterationCount))
  }

  lemma TrimmedPropsWrites(c: RawAnimation)
    requires CssToken(c.name) && CssToken(TimingText(c.timingFunction))
    ensures forall k :: 0 <= k < 4 ==> InlineLineWrite(TrimmedProps(c)[k]) == Some(GeneratedWrites(c)[k])
  {
    forall k | 0 <= k < 4
      ensures InlineLineWrite(TrimmedProps(c)[k]) == Some(GeneratedWrites(c)[k])
    {
      if k == 0 {
        NameLine(c, "animation-name");
      } else if k == 1 {
        DurationLine(c, "animation-duration");
      } else if k == 2 {
        TimingLine(c, "animation-timing-function");
      } else {
        IterationLine(c, "animation-iteration-count");
      }
    }
  }

  /** The four generated property lines read back as the four
      assignments. */
  lemma GeneratedWritesRead(c: RawAnimation)
    requires CssToken(c.name) && CssToken(TimingText(c.timingFunction))
    ensures MapDefined(TrimmedProps(c), InlineLineWrite) == GeneratedWrites(c)
  {
    TrimmedPropsWrites(c);
    MapDefinedAllDefined(TrimmedProps(c), InlineLineWrite);
  }

  /** A text that splits at its first blank line into two parts. */
  lemma AppliedParts(styleText: string, css: string, kf: string, props: string)
    requires css != "" && SplitOn(css, "\n\n") == [kf, props]
    ensures Applied(styleText, Some(css)) ==
      Outcome(if Includes(styleText, kf) then styleText else styleText + kf, MapDefined(Split(Trim(props), '\n'), InlineLineWrite), false)
  {
  }

  /** Applying generated CSS adds its keyframe block to the style tag (once)
      and makes the four assignments of the name, the duration in ms, the
      timing function ("null" when missing) and the iteration count, when
      the texts carry no line break and the name and timing function are CSS
      tokens. */
  lemma ApplyGenerated(styleText: string, c: RawAnimation)
    requires SingleLine(c.name, c.keyframes)
    requires CssToken(c.name) && CssToken(TimingText(c.timingFunction))
    ensures var kf := InlineKeyframeCss(c.name, c.keyframes);
      Applied(styleText, Some(Generated(c))) ==
        Outcome(if Includes(styleText, kf) then styleText else styleText + kf, GeneratedWrites(c), false)
  {
    var css := Generated(c);
    assert css[|css| - 1] == ' ';
    assert IsSpace('\n');
    SplitGenerated(c);
    AppliedParts(styleText, css, InlineKeyframeCss(c.name, c.keyframes), AnimProps(c));
    AnimPropsLines(c);
    GeneratedWritesRead(c);
  }

  /** Both generators agree on the assignments: for a config with a timing
      function, the registry of `src/animation.ts` reads the same four back
      from its own CSS. */
  lemma AgreesWithRegistry(styleText: string, c: RawAnimation)
    requires SingleLine(c.name, c.keyframes) && c.timingFunction.Some?
    requires CssToken(c.name) && CssToken(c.timingFunction.value)
    ensures var p := PageAnimations.AnimationConfig(c.name, c.duration, c.timingFunction.value, c.iterationCount, c.keyframes);
      Applied(styleText, Some(Generated(c))).writes ==
        PageAnimations.AppliedWrites(PageAnimations.Loaded(PageAnimations.Cleared(), [p]).current, c.name)
  {
    ApplyGenerated(styleText, c);
    PageAnimations.ApplyAfterLoad([PageAnimations.AnimationConfig(c.name, c.duration, c.timingFunction.value, c.iterationCount, c.keyframes)], 0);
  }

  /** The `forEach` of `applyAnimationToElement`: each line split at ":",
      and an assignment made for each line with a property and a value. */
  method ReadStyleLines(lines: seq<string>) returns (writes: seq<StyleWrite>)
    ensures writes == MapDefined(lines, InlineLineWrite)
  {
    writes := [];
    for i := 0 to |lines|
      invariant writes == MapDefined(lines[..i], InlineLineWrite)
    {
      MapDefinedStep(lines, InlineLineWrite, i);
      var pieces := Split(lines[i], ':');
      var prop := Trim(pieces[0]);
      if |pieces| < 2 {
        continue;
      }
      var value := Trim(pieces[1]);
      if prop != "" && value != "" {
        writes := writes + [StyleWrite(CamelCase(prop), RemoveFirst(value, ';'))];
      }
    }
    assert lines[..|lines|] == lines;
  }

  /** The page's style tag `#dynamic-animation-styles`. */
  class StyleTag {
    var text: string

    constructor (text: string)
      ensures this.text == text
    {
      this.text := text;
    }

    /** `applyAnimationToElement(element, css)`, with the assignments to
        `element.style` returned in order. */
    method ApplyAnimationToElement(css: Option<string>) returns (writes: seq<StyleWrite>, threw: bool)
      modifies this
      ensures Outcome(text, writes, threw) == Applied(old(text), css)
    {
      if css.None? || css.value == "" {
        return [], false;
      }
      var parts := SplitOn(css.value, "\n\n");
      var keyframesCss := parts[0];
      if !Includes(text, keyframesCss) {
        text := text + keyframesCss;
      }
      if |parts| < 2 {
        return [], true;
      }
      writes := ReadStyleLines(Split(Trim(parts[1]), '\n'));
      threw := false;
    }
  }
}
