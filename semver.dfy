/** The part of the `semver` package the URL migration relies on: versions
    `major.minor.patch`, their order (`compare`, `gt`, `lte`) and
    `new SemVer(text)` in its strict form, which reads text of at most 256
    characters that, once trimmed, is an optional "v" followed by three
    decimal numerals without leading zeros, each at most
    `Number.MAX_SAFE_INTEGER`, and throws on anything else. */
module SemVers {
  import opened Js
  import opened Strings

  datatype SemVer = SemVer(major: nat, minor: nat, patch: nat)

  /** `MAX_LENGTH`: longer text is refused before it is trimmed. */
  const MaxLength: nat := 256

  /** `Number.MAX_SAFE_INTEGER`, the largest version field accepted. */
  const MaxSafeInteger: nat := 9007199254740991

  predicate Safe(v: SemVer) {
    v.major <= MaxSafeInteger && v.minor <= MaxSafeInteger && v.patch <= MaxSafeInteger
  }

  /** `version.version`: the canonical text. */
  function VersionText(v: SemVer): string {
    Join([NatToString(v.major), NatToString(v.minor), NatToString(v.patch)], '.')
  }

  /** `a.compare(b) < 0`: the version fields compared in order. */
  predicate Before(a: SemVer, b: SemVer) {
    a.major < b.major ||
    (a.major == b.major && (a.minor < b.minor || (a.minor == b.minor && a.patch < b.patch)))
  }

  /** `lte(a, b)` */
  predicate AtMost(a: SemVer, b: SemVer) {
    a == b || Before(a, b)
  }

  /** Two versions are equal or one comes before the other, never both. */
  lemma Trichotomy(a: SemVer, b: SemVer)
    ensures a == b || Before(a, b) || Before(b, a)
    ensures !(Before(a, b) && Before(b, a)) && !Before(a, a)
  {
  }

  lemma BeforeTransitive(a: SemVer, b: SemVer, c: SemVer)
    requires Before(a, b) && Before(b, c)
    ensures Before(a, c)
  {
  }

  predicate Numeral(s: string) {
    |s| >= 1 && AllDigits(s)
  }

  /** `text.trim()`: the white space at both ends removed (equal to
      `Strings.Trim`, as `UnpaddedIsTrim` shows). */
  function Unpadded(s: string): string
    decreases |s|
  {
    if |s| > 0 && IsSpace(s[0]) then Unpadded(s[1..])
    else if |s| > 0 && IsSpace(s[|s| - 1]) then Unpadded(s[..|s| - 1])
    else s
  }

  lemma {:induction false} UnpaddedIsTrim(s: string)
    ensures Unpadded(s) == Trim(s)
    decreases |s|
  {
    if |s| > 0 && IsSpace(s[0]) {
      UnpaddedIsTrim(s[1..]);
    } else if |s| > 0 && IsSpace(s[|s| - 1]) {
      var t := s[..|s| - 1];
      UnpaddedIsTrim(t);
      assert |t| > 0 && t[0] == s[0];
    } else {
      TrimUnchanged(s);
    }
  }

  /** The text after a leading "v", if there is one. */
  function WithoutV(s: string): string {
    if |s| > 0 && s[0] == 'v' then s[1..] else s
  }

  /** Three numerals without leading zeros, joined by dots. */
  function ParseCanonical(s: string): (r: Option<SemVer>)
    ensures r.Some? ==> VersionText(r.value) == s
  {
    var parts := Split(s, '.');
    if |parts| == 3 && Numeral(parts[0]) && Numeral(parts[1]) && Numeral(parts[2]) then
      var v := SemVer(DigitsValue(parts[0]), DigitsValue(parts[1]), DigitsValue(parts[2]));
      if VersionText(v) == s then Some(v) else None
    else None
  }

  /** `new SemVer(text)`; `None` where it throws. */
  function ParseVersion(s: string): (r: Option<SemVer>)
    ensures r.Some? ==> |s| <= MaxLength && Safe(r.value) && VersionText(r.value) == WithoutV(Unpadded(s))
  {
    if |s| > MaxLength then None
    else
      match ParseCanonical(WithoutV(Unpadded(s)))
      case Some(v) => if Safe(v) then Some(v) else None
      case None => None
  }

  function Pow10(k: nat): nat {
    if k == 0 then 1 else 10 * Pow10(k - 1)
  }

  lemma {:induction false} NatToStringLength(n: nat, k: nat)
    requires 1 <= k && n < Pow10(k)
    ensures |NatToString(n)| <= k
    decreases k
  {
    if n >= 10 {
      assert n / 10 < Pow10(k - 1);
      NatToStringLength(n / 10, k - 1);
    }
  }

  lemma {:induction false} Pow10Add(a: nat, b: nat)
    ensures Pow10(a + b) == Pow10(a) * Pow10(b)
    decreases a
  {
    if a > 0 {
      Pow10Add(a - 1, b);
    }
  }

  /** A field of at most `Number.MAX_SAFE_INTEGER` has at most 16 digits. */
  lemma SafeFieldLength(n: nat)
    requires n <= MaxSafeInteger
    ensures |NatToString(n)| <= 16
  {
    assert Pow10(2) == 100;
    Pow10Add(2, 2);
    Pow10Add(4, 4);
    Pow10Add(8, 8);
    NatToStringLength(n, 16);
  }

  /** The canonical text of a version is short, and starts and ends with a
      digit. */
  lemma VersionTextShape(v: SemVer)
    requires Safe(v)
    ensures 5 <= |VersionText(v)| <= 50
    ensures IsDigit(VersionText(v)[0]) && IsDigit(VersionText(v)[|VersionText(v)| - 1])
  {
    var a, b, c := NatToString(v.major), NatToString(v.minor), NatToString(v.patch);
    var xs := [a, b, c];
    assert xs[1..] == [b, c] && xs[1..][1..] == [c];
    assert Join(xs[1..], '.') == b + "." + c;
    var t := a + "." + (b + "." + c);
    assert VersionText(v) == t;
    SafeFieldLength(v.major);
    SafeFieldLength(v.minor);
    SafeFieldLength(v.patch);
    assert t[0] == a[0] && t[|t| - 1] == c[|c| - 1];
  }

  /** A safe version reads back from its canonical text, and also from that
      text after a "v" and with white space around it, as long as the whole
      fits in 256 characters. */
  lemma ParsePadded(pre: string, prefixed: bool, v: SemVer, post: string)
    requires Safe(v) && AllSpace(pre) && AllSpace(post)
    requires |pre| + |post| + 51 <= MaxLength
    ensures ParseVersion(pre + (if prefixed then "v" else "") + VersionText(v) + post) == Some(v)
  {
    var text := VersionText(v);
    VersionTextShape(v);
    WithoutVOfDigits(text);
    var t := if prefixed then "v" + text else text;
    assert pre + (if prefixed then "v" else "") + text + post == pre + t + post;
    assert !IsSpace(t[0]) && t[|t| - 1] == text[|text| - 1];
    TrimPadded(pre, t, post);
    UnpaddedIsTrim(pre + t + post);
    ParseVersionText(v);
    ReadsAs(pre + t + post, v);
  }

  lemma WithoutVOfDigits(text: string)
    requires |text| > 0 && IsDigit(text[0])
    ensures WithoutV(text) == text && WithoutV("v" + text) == text
  {
    assert ("v" + text)[1..] == text;
  }

  lemma ReadsAs(s: string, v: SemVer)
    requires |s| <= MaxLength && Safe(v) && ParseCanonical(WithoutV(Unpadded(s))) == Some(v)
    ensures ParseVersion(s) == Some(v)
  {
  }

  /** Every safe version reads back from its text, so a version and its text
      determine each other. */
  lemma ParseVersionText(v: SemVer)
    requires Safe(v)
    ensures ParseCanonical(VersionText(v)) == Some(v)
    ensures ParseVersion(VersionText(v)) == Some(v)
  {
    var parts := [NatToString(v.major), NatToString(v.minor), NatToString(v.patch)];
    assert SeparatorFree(parts, '.') by {
      forall i | 0 <= i < 3 ensures '.' !in parts[i] {
        assert AllDigits(parts[i]);
      }
    }
    SplitJoin(parts, '.');
    NatToStringValue(v.major);
    NatToStringValue(v.minor);
    NatToStringValue(v.patch);
    VersionTextShape(v);
    assert Unpadded(VersionText(v)) == VersionText(v);
  }

  /** Two readable texts give the same version exactly when they agree once
      trimmed and stripped of a leading "v". */
  lemma SameVersion(s: string, t: string)
    requires ParseVersion(s).Some? && ParseVersion(t).Some?
    ensures ParseVersion(s) == ParseVersion(t) <==> WithoutV(Unpadded(s)) == WithoutV(Unpadded(t))
  {
  }

  lemma TextOfTwo()
    ensures VersionText(SemVer(2, 0, 0)) == "2.0.0"
  {
    assert NatToString(2) == "2" && NatToString(0) == "0";
    var xs := ["2", "0", "0"];
    assert xs[1..] == ["0", "0"] && xs[1..][1..] == ["0"];
  }

  lemma TextOfOne()
    ensures VersionText(SemVer(1, 0, 0)) == "1.0.0"
  {
    assert NatToString(1) == "1" && NatToString(0) == "0";
    var xs := ["1", "0", "0"];
    assert xs[1..] == ["0", "0"] && xs[1..][1..] == ["0"];
  }

  lemma ReadOne()
    ensures ParseVersion("1.0.0") == Some(SemVer(1, 0, 0))
  {
    TextOfOne();
    ParseVersionText(SemVer(1, 0, 0));
  }

  lemma ReadTwo()
    ensures ParseVersion("2.0.0") == Some(SemVer(2, 0, 0))
  {
    TextOfTwo();
    ParseVersionText(SemVer(2, 0, 0));
  }

  /** `v1.0.0` is the version 1.0.0. */
  lemma PrefixedOne()
    ensures ParseVersion("v1.0.0") == Some(SemVer(1, 0, 0))
  {
    TextOfOne();
    ParsePadded("", true, SemVer(1, 0, 0), "");
    assert "" + "v" + "1.0.0" + "" == "v1.0.0";
  }

  /** `v2.0.0` is the version 2.0.0. */
  lemma PrefixedVersion()
    ensures ParseVersion("v2.0.0") == Some(SemVer(2, 0, 0))
  {
    TextOfTwo();
    ParsePadded("", true, SemVer(2, 0, 0), "");
    assert "" + "v" + "2.0.0" + "" == "v2.0.0";
  }

  /** The strict form reads only a "v" in front of the numbers: `=2.0.0`
      throws. */
  lemma EqualsPrefixIsRefused()
    ensures ParseVersion("=2.0.0") == None
  {
    var s := "=2.0.0";
    assert Unpadded(s) == s && WithoutV(s) == s;
    assert Split(s, '.')[0][0] == '=';
  }
}
