/** The `@keyframes` block the animation code writes into the page's style
    tag: a header line, one line per keyframe with its declarations in entry
    order, and a closing brace, joined by newlines. The same text is built
    by `buildKeyframeCss` in `src/settings/AnimationManager.ts`,
    `createKeyframeCss` in `src/lib/animation.ts` and the keyframe half of
    `generateAnimationCss` in `src/animation.ts`. */
module Keyframes {
  import opened Strings

  /** A declaration value: a JSON string or (integer) number. */
  datatype CssValue = CssText(s: string) | CssNumber(n: int)

  /** `${val}` */
  function ValueText(v: CssValue): string {
    match v
    case CssText(s) => s
    case CssNumber(n) => IntToString(n)
  }

  /** One keyframe: its selector ("0%", "from", ...) and its declarations in
      entry order. */
  datatype Keyframe = Keyframe(selector: string, declarations: seq<(string, CssValue)>)

  /** `    prop: val;` */
  function Declaration(prop: string, v: CssValue): string {
    "    " + prop + ": " + ValueText(v) + ";"
  }

  /** The declarations of a keyframe, in entry order. */
  function Declarations(k: Keyframe): (ds: seq<string>)
    ensures |ds| == |k.declarations|
    ensures forall i :: 0 <= i < |ds| ==> ds[i] == Declaration(k.declarations[i].0, k.declarations[i].1)
  {
    seq(|k.declarations|, i requires 0 <= i < |k.declarations| => Declaration(k.declarations[i].0, k.declarations[i].1))
  }

  /** `  pct { decl decl ... }`: the declarations joined by a space. */
  function KeyframeLine(k: Keyframe): string {
    "  " + k.selector + " { " + Join(Declarations(k), ' ') + " }"
  }

  function Header(name: string): string {
    "@keyframes " + name + " {"
  }

  /** The lines of the block: the header, one line per keyframe in entry
      order, and "}". */
  function KeyframeLines(name: string, kfs: seq<Keyframe>): (lines: seq<string>)
    ensures |lines| == |kfs| + 2
    ensures lines[0] == Header(name) && lines[|lines| - 1] == "}"
    ensures forall i :: 0 <= i < |kfs| ==> lines[i + 1] == KeyframeLine(kfs[i])
  {
    [Header(name)] + seq(|kfs|, i requires 0 <= i < |kfs| => KeyframeLine(kfs[i])) + ["}"]
  }

  /** The block's text. */
  function KeyframeCss(name: string, kfs: seq<Keyframe>): string {
    Join(KeyframeLines(name, kfs), '\n')
  }

  /** No newline in the name, a selector, a property or a text value. */
  predicate SingleLine(name: string, kfs: seq<Keyframe>) {
    '\n' !in name &&
    forall i :: 0 <= i < |kfs| ==>
      '\n' !in kfs[i].selector &&
      forall j :: 0 <= j < |kfs[i].declarations| ==>
        '\n' !in kfs[i].declarations[j].0 && '\n' !in ValueText(kfs[i].declarations[j].1)
  }

  lemma ValueTextSingleLine(v: CssValue)
    requires v.CssText? ==> '\n' !in v.s
    ensures '\n' !in ValueText(v)
  {
    if v.CssNumber? {
      IntToStringHasNoSeparator(v.n, '\n');
    }
  }

  lemma KeyframeLineSingleLine(k: Keyframe)
    requires '\n' !in k.selector
    requires forall j :: 0 <= j < |k.declarations| ==> '\n' !in k.declarations[j].0 && '\n' !in ValueText(k.declarations[j].1)
    ensures '\n' !in KeyframeLine(k)
  {
    var ds := Declarations(k);
    JoinAvoids(ds, ' ', '\n');
  }

  /** Splitting the block at its newlines gives back exactly its lines: the
      header, one line per keyframe in entry order, and "}". */
  lemma KeyframeCssLines(name: string, kfs: seq<Keyframe>)
    requires SingleLine(name, kfs)
    ensures Split(KeyframeCss(name, kfs), '\n') == KeyframeLines(name, kfs)
  {
    var lines := KeyframeLines(name, kfs);
    forall i | 0 <= i < |lines| ensures '\n' !in lines[i] {
      if 0 < i < |lines| - 1 {
        KeyframeLineSingleLine(kfs[i - 1]);
      }
    }
    SplitJoin(lines, '\n');
  }

  /** The block built line by line, as each of the builders does: the
      header, a line pushed per keyframe, "}", then the join. */
  method BuildKeyframeCss(name: string, keyframes: seq<Keyframe>) returns (css: string)
    ensures css == KeyframeCss(name, keyframes)
  {
    var lines := [Header(name)];
    for i := 0 to |keyframes|
      invariant lines == [Header(name)] + seq(i, j requires 0 <= j < i => KeyframeLine(keyframes[j]))
    {
      lines := lines + [KeyframeLine(keyframes[i])];
    }
    lines := lines + ["}"];
    assert lines == KeyframeLines(name, keyframes);
    css := Join(lines, '\n');
  }

  /** The texts of several blocks, in order. */
  function BlockTexts(blocks: seq<(string, seq<Keyframe>)>): (r: seq<string>)
    ensures |r| == |blocks|
    ensures forall i :: 0 <= i < |blocks| ==> r[i] == KeyframeCss(blocks[i].0, blocks[i].1)
  {
    seq(|blocks|, i requires 0 <= i < |blocks| => KeyframeCss(blocks[i].0, blocks[i].1))
  }

  /** The lines of several blocks, one block after the other. */
  function BlocksLines(blocks: seq<(string, seq<Keyframe>)>): (r: seq<string>)
    ensures |r| >= 2 * |blocks|
    decreases |blocks|
  {
    if |blocks| == 0 then []
    else
      var last := blocks[|blocks| - 1];
      BlocksLines(blocks[..|blocks| - 1]) + KeyframeLines(last.0, last.1)
  }

  /** Joining the blocks' texts with newlines is joining all their lines. */
  lemma {:induction false} JoinedBlocksJoinTheirLines(blocks: seq<(string, seq<Keyframe>)>)
    requires |blocks| >= 1
    ensures Join(BlockTexts(blocks), '\n') == Join(BlocksLines(blocks), '\n')
    decreases |blocks|
  {
    var n := |blocks|;
    var last := blocks[n - 1];
    if n == 1 {
      assert BlocksLines(blocks) == KeyframeLines(last.0, last.1);
    } else {
      var init := blocks[..n - 1];
      JoinedBlocksJoinTheirLines(init);
      assert BlockTexts(blocks) == BlockTexts(init) + [KeyframeCss(last.0, last.1)];
      JoinAppend(BlockTexts(init), [KeyframeCss(last.0, last.1)], '\n');
      JoinAppend(BlocksLines(init), KeyframeLines(last.0, last.1), '\n');
    }
  }

  lemma {:induction false} BlocksLinesSingleLine(blocks: seq<(string, seq<Keyframe>)>)
    requires forall i :: 0 <= i < |blocks| ==> SingleLine(blocks[i].0, blocks[i].1)
    ensures SeparatorFree(BlocksLines(blocks), '\n')
    decreases |blocks|
  {
    if |blocks| > 0 {
      var last := blocks[|blocks| - 1];
      BlocksLinesSingleLine(blocks[..|blocks| - 1]);
      KeyframeCssLines(last.0, last.1);
      SplitPiecesAreSeparatorFree(KeyframeCss(last.0, last.1), '\n');
    }
  }

  /** Blocks joined by newlines, as a style tag receives them: splitting the
      text at its newlines gives every block's lines, block after block. */
  lemma BlocksCssLines(blocks: seq<(string, seq<Keyframe>)>)
    requires |blocks| >= 1
    requires forall i :: 0 <= i < |blocks| ==> SingleLine(blocks[i].0, blocks[i].1)
    ensures Split(Join(BlockTexts(blocks), '\n'), '\n') == BlocksLines(blocks)
  {
    JoinedBlocksJoinTheirLines(blocks);
    BlocksLinesSingleLine(blocks);
    SplitJoin(BlocksLines(blocks), '\n');
  }
}
