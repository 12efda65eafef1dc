/** The translation templating of `src/lib/textParser.ts`: an alert's text
    in the current language (or English) with `{{word}}` placeholders
    replaced by variable values and `[[key:value]]` tags, both turned into
    `<span>` markup. Each global regular-expression replacement is a scan
    from the left: at each position the pattern either matches (the match
    is replaced and the scan resumes after it) or the character is kept. */
module TextParser {
  import opened Js

  const FallbackLang: string := "en"

  /** The module's language; nothing assigns it another value. */
  const Lang: string := "en"

  /** The part of an alert the parser reads. */
  datatype AlertInstance = AlertInstance(translations: Nullable<map<string, string>>)

  /** `\w`: letters, digits and underscore. */
  predicate IsWordChar(c: char) {
    ('a' <= c <= 'z') || ('A' <= c <= 'Z') || ('0' <= c <= '9') || c == '_'
  }

  predicate IsWord(w: string) {
    |w| > 0 && forall i :: 0 <= i < |w| ==> IsWordChar(w[i])
  }

  /** The length of the longest prefix of word characters. */
  function WordRun(s: string): (n: nat)
    ensures n <= |s|
    ensures forall i :: 0 <= i < n ==> IsWordChar(s[i])
    ensures n < |s| ==> !IsWordChar(s[n])
  {
    if |s| > 0 && IsWordChar(s[0]) then 1 + WordRun(s[1..]) else 0
  }

  /** The length of the longest prefix without "]". */
  function TextRun(s: string): (n: nat)
    ensures n <= |s|
    ensures forall i :: 0 <= i < n ==> s[i] != ']'
    ensures n < |s| ==> s[n] == ']'
  {
    if |s| > 0 && s[0] != ']' then 1 + TextRun(s[1..]) else 0
  }

  // ---------------------------------------------------------------------
  // {{word}}

  /** `/\{\{(\w+)\}\}/` at the start of `s`: the length of the word when it
      matches. The word run is maximal, so no shorter run can match. */
  function MatchVar(s: string): (r: Option<nat>)
    ensures r.Some? ==> 0 < r.value && 2 + r.value + 2 <= |s|
    ensures r.Some? ==> s[..2] == "{{" && IsWord(s[2..2 + r.value]) && s[2 + r.value..4 + r.value] == "}}"
  {
    if |s| >= 2 && s[..2] == "{{" then
      var n := WordRun(s[2..]);
      if n > 0 && 2 + n + 2 <= |s| && s[2 + n..4 + n] == "}}" then Some(n) else None
    else None
  }

  /** The replacement of `{{w}}`: the variable's value, or `w` itself when
      the variable is not set. */
  function VarSpan(w: string, variables: map<string, string>): string {
    "<span class=" + w + ">" + (if w in variables then variables[w] else w) + "</span>"
  }

  /** `input.replace(/\{\{(\w+)\}\}/g, ...)` */
  function ReplaceVars(s: string, variables: map<string, string>): string
    decreases |s|
  {
    if |s| == 0 then ""
    else match MatchVar(s)
      case Some(n) => VarSpan(s[2..2 + n], variables) + ReplaceVars(s[4 + n..], variables)
      case None => [s[0]] + ReplaceVars(s[1..], variables)
  }

  /** Text where the pattern matches nowhere comes back unchanged. */
  lemma {:induction false} VarsUnchanged(s: string, variables: map<string, string>)
    requires forall i :: 0 <= i < |s| ==> MatchVar(s[i..]).None?
    ensures ReplaceVars(s, variables) == s
    decreases |s|
  {
    if |s| > 0 {
      assert s[0..] == s;
      forall i | 0 <= i < |s| - 1 ensures MatchVar(s[1..][i..]).None? {
        assert s[1..][i..] == s[i + 1..];
      }
      VarsUnchanged(s[1..], variables);
    }
  }

  /** In particular, text without "{" comes back unchanged. */
  lemma NoBraceUnchanged(s: string, variables: map<string, string>)
    requires '{' !in s
    ensures ReplaceVars(s, variables) == s
  {
    forall i | 0 <= i < |s| ensures MatchVar(s[i..]).None? {
      assert s[i..][0] == s[i];
    }
    VarsUnchanged(s, variables);
  }

  /** Text before the first "{" is copied as it is. */
  lemma {:induction false} VarsPrefix(p: string, s: string, variables: map<string, string>)
    requires '{' !in p
    ensures ReplaceVars(p + s, variables) == p + ReplaceVars(s, variables)
    decreases |p|
  {
    if |p| > 0 {
      assert (p + s)[0] == p[0];
      assert (p + s)[1..] == p[1..] + s;
      assert MatchVar(p + s).None?;
      VarsPrefix(p[1..], s, variables);
      assert p == [p[0]] + p[1..];
    } else {
      assert p + s == s;
    }
  }

  /** A placeholder is replaced by its span and the scan goes on after it. */
  lemma VarReplaced(w: string, rest: string, variables: map<string, string>)
    requires IsWord(w)
    ensures ReplaceVars("{{" + w + "}}" + rest, variables) == VarSpan(w, variables) + ReplaceVars(rest, variables)
  {
    var s := "{{" + w + "}}" + rest;
    assert s[..2] == "{{";
    assert s[2..][..|w|] == w;
    assert WordRun(s[2..]) == |w| by {
      WordRunOfWord(w, "}}" + rest);
      assert s[2..] == w + ("}}" + rest);
    }
    assert s[2 + |w|..4 + |w|] == "}}";
    assert s[2..2 + |w|] == w;
    assert s[4 + |w|..] == rest;
  }

  /** A word followed by a non-word character runs exactly to its end. */
  lemma {:induction false} WordRunOfWord(w: string, t: string)
    requires forall i :: 0 <= i < |w| ==> IsWordChar(w[i])
    requires |t| > 0 && !IsWordChar(t[0])
    ensures WordRun(w + t) == |w|
    decreases |w|
  {
    if |w| > 0 {
      assert (w + t)[1..] == w[1..] + t;
      WordRunOfWord(w[1..], t);
    } else {
      assert w + t == t;
    }
  }

  // ---------------------------------------------------------------------
  // [[key:value]]

  /** `/\[\[(\w+):([^\]]+)\]\]/` at the start of `s`: the lengths of the
      key and of the value when it matches. */
  function MatchTag(s: string): (r: Option<(nat, nat)>)
    ensures r.Some? ==> 0 < r.value.0 && 0 < r.value.1 && 3 + r.value.0 + r.value.1 + 2 <= |s|
    ensures r.Some? ==> s[..2] == "[[" && IsWord(s[2..2 + r.value.0]) && s[2 + r.value.0] == ':'
  {
    if |s| >= 2 && s[..2] == "[[" then
      var k := WordRun(s[2..]);
      if k > 0 && 3 + k <= |s| && s[2 + k] == ':' then
        var v := TextRun(s[3 + k..]);
        if v > 0 && 3 + k + v + 2 <= |s| && s[3 + k + v..5 + k + v] == "]]" then Some((k, v)) else None
      else None
    else None
  }

  function TagSpan(k: string, v: string): string {
    "<span class=" + k + ">" + v + "</span>"
  }

  /** `input.replace(/\[\[(\w+):([^\]]+)\]\]/g, ...)` */
  function ReplaceTags(s: string): string
    decreases |s|, 1
  {
    if |s| == 0 then "" else ReplaceTagsAt(s, MatchTag(s))
  }

  /** One step of the scan, given what `MatchTag` found at its start: a
      matched tag written as its span, or the first character copied. */
  function ReplaceTagsAt(s: string, m: Option<(nat, nat)>): string
    requires |s| > 0 && m == MatchTag(s)
    decreases |s|, 0
  {
    match m
    case Some((k, v)) => TagSpan(s[2..2 + k], s[3 + k..3 + k + v]) + ReplaceTags(s[5 + k + v..])
    case None => [s[0]] + ReplaceTags(s[1..])
  }

  lemma {:induction false} TagsUnchanged(s: string)
    requires forall i :: 0 <= i < |s| ==> MatchTag(s[i..]).None?
    ensures ReplaceTags(s) == s
    decreases |s|
  {
    if |s| > 0 {
      assert s[0..] == s;
      forall i | 0 <= i < |s| - 1 ensures MatchTag(s[1..][i..]).None? {
        assert s[1..][i..] == s[i + 1..];
      }
      TagsUnchanged(s[1..]);
    }
  }

  lemma NoBracketUnchanged(s: string)
    requires '[' !in s
    ensures ReplaceTags(s) == s
  {
    forall i | 0 <= i < |s| ensures MatchTag(s[i..]).None? {
      assert s[i..][0] == s[i];
    }
    TagsUnchanged(s);
  }

  lemma {:induction false} TagsPrefix(p: string, s: string)
    requires '[' !in p
    ensures ReplaceTags(p + s) == p + ReplaceTags(s)
    decreases |p|
  {
    if |p| > 0 {
      assert (p + s)[0] == p[0];
      assert (p + s)[1..] == p[1..] + s;
      assert MatchTag(p + s).None?;
      TagsPrefix(p[1..], s);
      assert p == [p[0]] + p[1..];
    } else {
      assert p + s == s;
    }
  }

  /** A run without "]" followed by "]" ends exactly there. */
  lemma {:induction false} TextRunOfText(v: string, t: string)
    requires forall i :: 0 <= i < |v| ==> v[i] != ']'
    requires |t| > 0 && t[0] == ']'
    ensures TextRun(v + t) == |v|
    decreases |v|
  {
    if |v| > 0 {
      assert (v + t)[1..] == v[1..] + t;
      TextRunOfText(v[1..], t);
    } else {
      assert v + t == t;
    }
  }

  /** A well-formed tag matches with its key and value lengths. */
  lemma MatchTagOf(k: string, v: string, rest: string)
    requires IsWord(k) && |v| > 0 && ']' !in v
    ensures MatchTag("[[" + k + ":" + v + "]]" + rest) == Some((|k|, |v|))
  {
    var s := "[[" + k + ":" + v + "]]" + rest;
    assert s[..2] == "[[";
    assert s[2..] == k + (":" + v + "]]" + rest);
    WordRunOfWord(k, ":" + v + "]]" + rest);
    assert s[2 + |k|] == ':';
    assert s[3 + |k|..] == v + ("]]" + rest);
    forall i | 0 <= i < |v| ensures v[i] != ']' {
      assert v[i] in v;
    }
    TextRunOfText(v, "]]" + rest);
    var n := 3 + |k| + |v|;
    assert s[n..n + 2] == "]]";
  }

  /** A tag is replaced by its span and the scan goes on after it. */
  lemma TagReplaced(k: string, v: string, rest: string)
    requires IsWord(k) && |v| > 0 && ']' !in v
    ensures ReplaceTags("[[" + k + ":" + v + "]]" + rest) == TagSpan(k, v) + ReplaceTags(rest)
  {
    MatchTagOf(k, v, rest);
    TagSlices(k, v, rest);
    ReplaceTagsAtMatch("[[" + k + ":" + v + "]]" + rest, |k|, |v|);
  }

  /** Where a tag matches, its span is written and the scan goes on after
      it. */
  lemma ReplaceTagsAtMatch(s: string, a: nat, b: nat)
    requires MatchTag(s) == Some((a, b))
    ensures ReplaceTags(s) == TagSpan(s[2..2 + a], s[3 + a..3 + a + b]) + ReplaceTags(s[5 + a + b..])
  {
  }

  /** The key, the value and what follows, cut back out of a written tag. */
  lemma TagSlices(k: string, v: string, rest: string)
    ensures var s := "[[" + k + ":" + v + "]]" + rest;
      && |s| == 5 + |k| + |v| + |rest|
      && s[2..2 + |k|] == k && s[3 + |k|..3 + |k| + |v|] == v && s[5 + |k| + |v|..] == rest
  {
    var s := "[[" + k + ":" + v + "]]" + rest;
    assert s == "[[" + (k + (":" + (v + ("]]" + rest))));
    assert s[2..] == k + (":" + (v + ("]]" + rest)));
    assert s[3 + |k|..] == v + ("]]" + rest);
  }

  /** Word characters are neither brackets nor braces. */
  lemma WordHasNoBrackets(w: string)
    requires IsWord(w)
    ensures '[' !in w && '{' !in w
  {
    forall i | 0 <= i < |w| ensures w[i] != '[' && w[i] != '{' {
      assert IsWordChar(w[i]);
    }
  }

  // ---------------------------------------------------------------------
  // replaceText and parse

  /** `replaceText(input, variables)`: placeholders first, then tags. */
  function ReplaceText(s: string, variables: map<string, string>): string {
    ReplaceTags(ReplaceVars(s, variables))
  }

  /** Text with neither pattern's opening characters comes back unchanged. */
  lemma PlainTextUnchanged(s: string, variables: map<string, string>)
    requires '{' !in s && '[' !in s
    ensures ReplaceText(s, variables) == s
  {
    NoBraceUnchanged(s, variables);
    NoBracketUnchanged(s);
  }

  /** The tag pass over a span wrapped around a tag. */
  lemma TagInsideSpan(w: string, k: string, v: string)
    requires IsWord(w) && IsWord(k) && |v| > 0 && ']' !in v
    ensures ReplaceTags("<span class=" + w + ">" + ("[[" + k + ":" + v + "]]" + "</span>")) ==
      "<span class=" + w + ">" + (TagSpan(k, v) + "</span>")
  {
    var open := "<span class=" + w + ">";
    WordHasNoBrackets(w);
    assert '[' !in open;
    TagsPrefix(open, "[[" + k + ":" + v + "]]" + "</span>");
    TagReplaced(k, v, "</span>");
    NoBracketUnchanged("</span>");
  }

  /** Because placeholders are replaced first, a tag inside a variable's
      value is expanded too. */
  lemma SubstitutedTagsExpand(w: string, k: string, v: string, variables: map<string, string>)
    requires IsWord(w) && IsWord(k) && |v| > 0 && ']' !in v
    requires w in variables && variables[w] == "[[" + k + ":" + v + "]]"
    ensures ReplaceText("{{" + w + "}}", variables) == "<span class=" + w + ">" + TagSpan(k, v) + "</span>"
  {
    var placeholder := "{{" + w + "}}";
    VarReplaced(w, "", variables);
    assert placeholder + "" == placeholder;
    assert ReplaceVars("", variables) == "";
    var tag := "[[" + k + ":" + v + "]]";
    assert ReplaceVars(placeholder, variables) == "<span class=" + w + ">" + (tag + "</span>");
    TagInsideSpan(w, k, v);
  }

  /** The translation `parse` uses: the current language's text when it is
      not empty, else the English text. */
  function ChosenText(translations: map<string, string>): (r: Option<string>)
    ensures Lang in translations && translations[Lang] != "" ==> r == Some(translations[Lang])
    ensures !(Lang in translations && translations[Lang] != "") ==>
      r == (if FallbackLang in translations then Some(translations[FallbackLang]) else None)
  {
    if Lang in translations && translations[Lang] != "" then Some(translations[Lang])
    else if FallbackLang in translations then Some(translations[FallbackLang])
    else None
  }

  /** `parse(alert, variables)`: "" without an alert, without translations
      or without text; otherwise the chosen text with both replacements. */
  function Parse(alert: Option<AlertInstance>, variables: map<string, string>): (r: string)
    ensures alert.None? || !alert.value.translations.Val? ==> r == ""
    ensures alert.Some? && alert.value.translations.Val? ==>
      var text := ChosenText(alert.value.translations.value);
      r == (if text.None? || text.value == "" then "" else ReplaceText(text.value, variables))
  {
    if alert.None? || !alert.value.translations.Val? then ""
    else
      var text := ChosenText(alert.value.translations.value);
      if text.None? || text.value == "" then "" else ReplaceText(text.value, variables)
  }

  /** Neither the language's nor the English text given: the result is
      empty; a plain English text comes back as it is. */
  lemma ParseTexts(t: map<string, string>, variables: map<string, string>)
    ensures (Lang !in t || t[Lang] == "") && (FallbackLang !in t || t[FallbackLang] == "") ==>
      Parse(Some(AlertInstance(Val(t))), variables) == ""
    ensures FallbackLang in t && '{' !in t[FallbackLang] && '[' !in t[FallbackLang] ==>
      Parse(Some(AlertInstance(Val(t))), variables) == t[FallbackLang]
  {
    if FallbackLang in t && '{' !in t[FallbackLang] && '[' !in t[FallbackLang] {
      PlainTextUnchanged(t[FallbackLang], variables);
    }
  }
}
