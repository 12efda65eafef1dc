/** The text steps shared by the code that puts an animation on an element:
    the `${count}` of an iteration count, the camel-casing of a CSS property
    name into the name `element.style` uses, and the four style properties
    an animation sets. */
module CssText {
  import opened Js
  import opened Strings

  /** `number | "infinite"` */
  datatype IterationCount = Count(n: int) | Infinite

  /** `${iterationCount}`: the number's decimal text, or "infinite". */
  function IterationText(c: IterationCount): (s: string)
    ensures c.Infinite? ==> s == "infinite"
    ensures c.Count? ==> ParseDecimal(s) == Some(c.n)
  {
    match c
    case Infinite => "infinite"
    case Count(n) => ParseIntToString(n); IntToString(n)
  }

  /** Text that survives being written as `prop: text;` and read back by
      splitting at ":" and ";" and trimming: no white space (so no line
      break), no colon and no semicolon. */
  predicate CssToken(s: string) {
    forall i :: 0 <= i < |s| ==> !IsSpace(s[i]) && s[i] != ':' && s[i] != ';'
  }

  /** The text of an integer is a token. */
  lemma IntTextIsToken(i: int)
    ensures CssToken(IntToString(i))
  {
    var s := IntToString(i);
    if i < 0 {
      assert s == "-" + NatToString(-i);
    }
    assert forall k :: 0 <= k < |s| ==> IsDigit(s[k]) || s[k] == '-';
  }

  /** An iteration count's text is a token. */
  lemma IterationTextIsToken(c: IterationCount)
    ensures CssToken(IterationText(c))
  {
    if c.Count? {
      IntTextIsToken(c.n);
    }
  }

  predicate IsLower(c: char) {
    'a' <= c <= 'z'
  }

  function ToUpper(c: char): (u: char)
    requires IsLower(c)
    ensures 'A' <= u <= 'Z' && u as int - 'A' as int == c as int - 'a' as int
  {
    (c as int - 32) as char
  }

  /** `prop.replace(/-([a-z])/g, c => c.toUpperCase())`: every dash followed
      by a lower-case letter becomes that letter in upper case; matches are
      taken left to right without overlapping. */
  function CamelCase(s: string): (r: string)
    ensures |r| <= |s|
    decreases |s|
  {
    if |s| == 0 then ""
    else if |s| >= 2 && s[0] == '-' && IsLower(s[1]) then [ToUpper(s[1])] + CamelCase(s[2..])
    else [s[0]] + CamelCase(s[1..])
  }

  /** Text without a dash is left as it is. */
  lemma {:induction false} CamelCaseWithoutDash(s: string)
    requires '-' !in s
    ensures CamelCase(s) == s
    decreases |s|
  {
    if |s| > 0 {
      CamelCaseWithoutDash(s[1..]);
      assert [s[0]] + s[1..] == s;
    }
  }

  /** A dash-free prefix is copied as it is. */
  lemma {:induction false} CamelCasePrefix(p: string, s: string)
    requires '-' !in p
    ensures CamelCase(p + s) == p + CamelCase(s)
    decreases |p|
  {
    if |p| > 0 {
      assert p[0] != '-' && '-' !in p[1..];
      assert (p + s)[0] == p[0];
      assert (p + s)[1..] == p[1..] + s;
      CamelCasePrefix(p[1..], s);
      assert CamelCase(p + s) == [p[0]] + CamelCase(p[1..] + s);
      assert [p[0]] + (p[1..] + CamelCase(s)) == p + CamelCase(s);
    } else {
      assert p + s == s;
    }
  }

  /** A dash and a lower-case letter become the upper-case letter. */
  lemma CamelCaseDash(c: char, s: string)
    requires IsLower(c)
    ensures CamelCase(['-', c] + s) == [ToUpper(c)] + CamelCase(s)
  {
    assert (['-', c] + s)[2..] == s;
  }

  /** A dash-free word after a dash-free prefix and a dash: the letter after
      the dash in upper case. */
  lemma CamelCaseWord(p: string, c: char, rest: string)
    requires '-' !in p && IsLower(c)
    ensures CamelCase(p + (['-', c] + rest)) == p + ([ToUpper(c)] + CamelCase(rest))
  {
    CamelCasePrefix(p, ['-', c] + rest);
    CamelCaseDash(c, rest);
  }

  /** One dash-separated word after a dash-free prefix. */
  lemma CamelCaseOneWord(p: string, c: char, q: string)
    requires '-' !in p && '-' !in q && IsLower(c)
    ensures CamelCase(p + (['-', c] + q)) == p + ([ToUpper(c)] + q)
  {
    CamelCaseWord(p, c, q);
    CamelCaseWithoutDash(q);
  }

  lemma NameProperty(s: string)
    requires s == "animation-name"
    ensures CamelCase(s) == "animationName"
  {
    CamelCaseOneWordAt(s, "animation", 'n', "ame", "animationName");
  }

  lemma DurationProperty(s: string)
    requires s == "animation-duration"
    ensures CamelCase(s) == "animationDuration"
  {
    CamelCaseOneWordAt(s, "animation", 'd', "uration", "animationDuration");
  }

  /** `CamelCaseOneWord` for a text and its camel-cased form spelled out. */
  lemma CamelCaseOneWordAt(s: string, p: string, c: char, q: string, t: string)
    requires '-' !in p && '-' !in q && IsLower(c)
    requires s == p + (['-', c] + q) && t == p + ([ToUpper(c)] + q)
    ensures CamelCase(s) == t
  {
    CamelCaseOneWord(p, c, q);
  }

  /** Two dash-separated words after a dash-free prefix. */
  lemma CamelCaseTwoWords(p: string, c: char, q: string, d: char, r: string)
    requires '-' !in p && '-' !in q && '-' !in r && IsLower(c) && IsLower(d)
    ensures CamelCase(p + (['-', c] + (q + (['-', d] + r)))) == p + ([ToUpper(c)] + (q + ([ToUpper(d)] + r)))
  {
    CamelCaseWord(q, d, r);
    CamelCaseWithoutDash(r);
    CamelCaseWord(p, c, q + (['-', d] + r));
  }

  /** `CamelCaseTwoWords` for a text and its camel-cased form spelled
      out. */
  lemma CamelCaseTwoWordsAt(s: string, p: string, c: char, q: string, d: char, r: string, t: string)
    requires '-' !in p && '-' !in q && '-' !in r && IsLower(c) && IsLower(d)
    requires s == p + (['-', c] + (q + (['-', d] + r))) && t == p + ([ToUpper(c)] + (q + ([ToUpper(d)] + r)))
    ensures CamelCase(s) == t
  {
    CamelCaseTwoWords(p, c, q, d, r);
  }

  lemma TimingProperty(s: string)
    requires s == "animation-timing-function"
    ensures CamelCase(s) == "animationTimingFunction"
  {
    TimingSpelling();
    CamelCaseTwoWordsAt(s, "animation", 't', "iming", 'f', "unction", "animationTimingFunction");
  }

  lemma TimingSpelling()
    ensures "animation-timing-function" == "animation" + (['-', 't'] + ("iming" + (['-', 'f'] + "unction")))
    ensures "animationTimingFunction" == "animation" + ([ToUpper('t')] + ("iming" + ([ToUpper('f')] + "unction")))
    ensures '-' !in "animation" && '-' !in "iming" && '-' !in "unction"
  {
  }

  lemma IterationProperty(s: string)
    requires s == "animation-iteration-count"
    ensures CamelCase(s) == "animationIterationCount"
  {
    IterationSpelling();
    CamelCaseTwoWordsAt(s, "animation", 'i', "teration", 'c', "ount", "animationIterationCount");
  }

  lemma IterationSpelling()
    ensures "animation-iteration-count" == "animation" + (['-', 'i'] + ("teration" + (['-', 'c'] + "ount")))
    ensures "animationIterationCount" == "animation" + ([ToUpper('i')] + ("teration" + ([ToUpper('c')] + "ount")))
    ensures '-' !in "animation" && '-' !in "teration" && '-' !in "ount"
  {
  }

  /** The four animation properties are named, on `element.style`, by their
      camel-cased CSS names. */
  lemma AnimationPropertyNames()
    ensures CamelCase("animation-name") == "animationName"
    ensures CamelCase("animation-duration") == "animationDuration"
    ensures CamelCase("animation-timing-function") == "animationTimingFunction"
    ensures CamelCase("animation-iteration-count") == "animationIterationCount"
  {
    NameProperty("animation-name");
    DurationProperty("animation-duration");
    TimingProperty("animation-timing-function");
    IterationProperty("animation-iteration-count");
  }

  /** `prop: value;`, one line of the animation properties. */
  function PropertyLine(prop: string, value: string): string {
    prop + ": " + value + ";"
  }

  /** A property name that reads back as itself: not empty, no colon, no
      white space at either end. */
  predicate PlainProperty(prop: string) {
    |prop| > 0 && ':' !in prop && !IsSpace(prop[0]) && !IsSpace(prop[|prop| - 1])
  }

  /** One assignment `element.style[property] = value`. */
  datatype StyleWrite = StyleWrite(property: string, value: string)

  /** The four assignments that put an animation on an element, in the
      order the overlay makes them. */
  function AnimationWrites(name: string, duration: string, timing: string, iterations: string): seq<StyleWrite> {
    [StyleWrite("animationName", name), StyleWrite("animationDuration", duration),
     StyleWrite("animationTimingFunction", timing), StyleWrite("animationIterationCount", iterations)]
  }
}
