/** The string operations the overlay's codecs rely on: `String.prototype.split`
    and `Array.prototype.join` with a one-character separator, and decimal
    integer text (`String(n)` and `Number(s)` restricted to integers). */
module Strings {
  import opened Js

  /** `s.split(sep)` for a one-character separator: the pieces between
      separators, in order; `"".split(sep)` is `[""]`. */
  function Split(s: string, sep: char): (r: seq<string>)
    ensures |r| >= 1
    decreases |s|
  {
    if |s| == 0 then [""]
    else if s[0] == sep then [""] + Split(s[1..], sep)
    else
      var rest := Split(s[1..], sep);
      [[s[0]] + rest[0]] + rest[1..]
  }

  /** `xs.join(sep)` for a one-character separator. */
  function Join(xs: seq<string>, sep: char): (r: string)
    decreases |xs|
  {
    if |xs| == 0 then ""
    else if |xs| == 1 then xs[0]
    else xs[0] + [sep] + Join(xs[1..], sep)
  }

  /** No piece contains the separator. */
  predicate SeparatorFree(xs: seq<string>, sep: char) {
    forall i :: 0 <= i < |xs| ==> sep !in xs[i]
  }

  lemma {:induction false} SplitWithoutSeparator(s: string, sep: char)
    requires sep !in s
    ensures Split(s, sep) == [s]
    decreases |s|
  {
    if |s| > 0 {
      SplitWithoutSeparator(s[1..], sep);
      assert [s[0]] + s[1..] == s;
    }
  }

  /** Splitting `a + sep + b` cuts at the separator right after `a`. */
  lemma {:induction false} SplitAtFirst(a: string, b: string, sep: char)
    requires sep !in a
    ensures Split(a + [sep] + b, sep) == [a] + Split(b, sep)
    decreases |a|
  {
    var s := a + [sep] + b;
    if |a| == 0 {
      assert s[1..] == b;
    } else {
      assert s[1..] == a[1..] + [sep] + b;
      SplitAtFirst(a[1..], b, sep);
      assert [a[0]] + a[1..] == a;
    }
  }

  /** Splitting a join gives the list back when the list is non-empty and
      no piece holds the separator. */
  lemma {:induction false} SplitJoin(xs: seq<string>, sep: char)
    requires |xs| >= 1
    requires SeparatorFree(xs, sep)
    ensures Split(Join(xs, sep), sep) == xs
    decreases |xs|
  {
    if |xs| == 1 {
      SplitWithoutSeparator(xs[0], sep);
    } else {
      SplitJoin(xs[1..], sep);
      SplitAtFirst(xs[0], Join(xs[1..], sep), sep);
      assert [xs[0]] + xs[1..] == xs;
    }
  }

  /** Joining the pieces of a split gives the string back. */
  lemma {:induction false} JoinSplit(s: string, sep: char)
    ensures Join(Split(s, sep), sep) == s
    decreases |s|
  {
    if |s| > 0 {
      JoinSplit(s[1..], sep);
      var rest := Split(s[1..], sep);
      if s[0] == sep {
        assert Split(s, sep) == [""] + rest;
      } else {
        var r := [[s[0]] + rest[0]] + rest[1..];
        assert Split(s, sep) == r;
        if |rest| == 1 {
          assert Join(r, sep) == [s[0]] + rest[0];
        } else {
          assert r[1..] == rest[1..];
          assert Join(rest, sep) == rest[0] + [sep] + Join(rest[1..], sep);
        }
      }
      assert [s[0]] + s[1..] == s;
    }
  }

  /** A character that is neither the separator nor in any piece is not in
      the join. */
  lemma {:induction false} JoinAvoids(xs: seq<string>, sep: char, c: char)
    requires c != sep
    requires forall i :: 0 <= i < |xs| ==> c !in xs[i]
    ensures c !in Join(xs, sep)
    decreases |xs|
  {
    if |xs| > 1 {
      JoinAvoids(xs[1..], sep, c);
      assert Join(xs, sep) == xs[0] + [sep] + Join(xs[1..], sep);
    }
  }

  /** Every piece of a split is free of the separator. */
  lemma {:induction false} SplitPiecesAreSeparatorFree(s: string, sep: char)
    ensures SeparatorFree(Split(s, sep), sep)
    decreases |s|
  {
    if |s| > 0 {
      SplitPiecesAreSeparatorFree(s[1..], sep);
    }
  }

  // ---------------------------------------------------------------------
  // Decimal integer text

  predicate IsDigit(c: char) {
    '0' <= c <= '9'
  }

  predicate AllDigits(s: string) {
    forall i :: 0 <= i < |s| ==> IsDigit(s[i])
  }

  function DigitChar(d: nat): (c: char)
    requires d < 10
    ensures IsDigit(c) && c as int - '0' as int == d
  {
    ('0' as int + d) as char
  }

  /** The value of a run of decimal digits, most significant first. */
  function DigitsValue(s: string): nat
    requires AllDigits(s)
    decreases |s|
  {
    if |s| == 0 then 0
    else DigitsValue(s[..|s| - 1]) * 10 + (s[|s| - 1] as int - '0' as int)
  }

  /** `String(n)` for a natural number: its shortest decimal text. */
  function NatToString(n: nat): (s: string)
    ensures |s| >= 1 && AllDigits(s)
    decreases n
  {
    if n < 10 then [DigitChar(n)] else NatToString(n / 10) + [DigitChar(n % 10)]
  }

  /** `String(i)` for an integer. */
  function IntToString(i: int): (s: string)
    ensures |s| >= 1
  {
    if i < 0 then "-" + NatToString(-i) else NatToString(i)
  }

  /** Decimal integer text as `Number` reads it: an optional sign followed by
      at least one digit. Anything else is not a decimal integer. */
  function ParseDecimal(s: string): (r: Option<int>)
    ensures r.Some? ==> |s| >= 1
  {
    if |s| >= 2 && s[0] == '-' && AllDigits(s[1..]) then Some(-(DigitsValue(s[1..]) as int))
    else if |s| >= 2 && s[0] == '+' && AllDigits(s[1..]) then Some(DigitsValue(s[1..]))
    else if |s| >= 1 && AllDigits(s) then Some(DigitsValue(s))
    else None
  }

  lemma {:induction false} NatToStringValue(n: nat)
    ensures DigitsValue(NatToString(n)) == n
    decreases n
  {
    var s := NatToString(n);
    if n >= 10 {
      NatToStringValue(n / 10);
      assert s[..|s| - 1] == NatToString(n / 10);
    }
  }

  /** Reading back the text of an integer gives the integer. */
  lemma ParseIntToString(i: int)
    ensures ParseDecimal(IntToString(i)) == Some(i)
  {
    if i < 0 {
      NatToStringValue(-i);
      ParseNegative(NatToString(-i));
    } else {
      NatToStringValue(i);
      ParseDigits(NatToString(i));
    }
  }

  /** A minus sign and digits read as the negated digits' value. */
  lemma ParseNegative(t: string)
    requires |t| >= 1 && AllDigits(t)
    ensures ParseDecimal("-" + t) == Some(-(DigitsValue(t) as int))
  {
    assert ("-" + t)[1..] == t;
  }

  /** Digits alone read as their value. */
  lemma ParseDigits(t: string)
    requires |t| >= 1 && AllDigits(t)
    ensures ParseDecimal(t) == Some(DigitsValue(t))
  {
    assert IsDigit(t[0]);
  }

  /** The text of an integer holds only digits and a sign, so it survives
      being placed in a list separated by any other character. */
  lemma IntToStringHasNoSeparator(i: int, sep: char)
    requires !IsDigit(sep) && sep != '-'
    ensures sep !in IntToString(i)
  {
    var s := IntToString(i);
    if i < 0 {
      assert s == "-" + NatToString(-i);
      assert forall k :: 1 <= k < |s| ==> IsDigit(s[k]);
    } else {
      assert forall k :: 0 <= k < |s| ==> IsDigit(s[k]);
    }
  }

  /** `text?.split(",") || []`: a split array is never falsy, so only
      missing text gives `[]`; otherwise the pieces join back to the text. */
  function SplitOrEmpty(text: Option<string>, sep: char): (r: seq<string>)
    ensures text.None? ==> r == []
    ensures text.Some? ==> |r| >= 1 && SeparatorFree(r, sep) && Join(r, sep) == text.value
  {
    match text
    case None => []
    case Some(s) =>
      SplitPiecesAreSeparatorFree(s, sep);
      JoinSplit(s, sep);
      Split(s, sep)
  }

  // ---------------------------------------------------------------------
  // Searching, replacing and trimming

  /** The position of the first `c` in `s`, or `|s|` when there is none. */
  function IndexOf(s: string, c: char): (i: nat)
    ensures i <= |s| && c !in s[..i]
    ensures i < |s| ==> s[i] == c
    ensures i == |s| <==> c !in s
  {
    if |s| == 0 then 0
    else if s[0] == c then 0
    else
      var j := IndexOf(s[1..], c);
      assert s[..j + 1] == [s[0]] + s[1..][..j];
      j + 1
  }

  /** `s.replace(c, "")` with a one-character pattern: the first `c` is
      removed and every later one kept. */
  function RemoveFirst(s: string, c: char): (r: string)
    ensures c !in s ==> r == s
    ensures c in s ==> |r| == |s| - 1 && r == s[..IndexOf(s, c)] + s[IndexOf(s, c) + 1..]
  {
    var i := IndexOf(s, c);
    if i == |s| then s else s[..i] + s[i + 1..]
  }

  /** The characters `String.prototype.trim` and `parseInt` skip: the
      ECMAScript WhiteSpace (tab, vertical tab, form feed, the byte order
      mark and the Unicode space separators) and LineTerminator (line feed,
      carriage return, line and paragraph separators) code points. */
  predicate IsSpace(c: char) {
    c == '\t' || c == '\n' || c == '\U{B}' || c == '\U{C}' || c == '\r' || c == ' ' ||
    c == '\U{A0}' || c == '\U{1680}' || ('\U{2000}' <= c <= '\U{200A}') ||
    c == '\U{2028}' || c == '\U{2029}' || c == '\U{202F}' || c == '\U{205F}' ||
    c == '\U{3000}' || c == '\U{FEFF}'
  }

  /** `s.trimStart()`: the leading white space removed. */
  function TrimStart(s: string): (r: string)
    ensures |r| <= |s| && r == s[|s| - |r|..]
    ensures |r| > 0 ==> !IsSpace(r[0])
    ensures forall i :: 0 <= i < |s| - |r| ==> IsSpace(s[i])
    decreases |s|
  {
    if |s| > 0 && IsSpace(s[0]) then TrimStart(s[1..]) else s
  }

  /** `s.trimEnd()`: the trailing white space removed. */
  function TrimEnd(s: string): (r: string)
    ensures |r| <= |s| && r == s[..|r|]
    ensures |r| > 0 ==> !IsSpace(r[|r| - 1])
    ensures forall i :: |r| <= i < |s| ==> IsSpace(s[i])
    decreases |s|
  {
    if |s| > 0 && IsSpace(s[|s| - 1]) then TrimEnd(s[..|s| - 1]) else s
  }

  /** `s.trim()`: white space removed from both ends. */
  function Trim(s: string): (r: string)
    ensures |r| <= |s|
    ensures |r| > 0 ==> !IsSpace(r[0]) && !IsSpace(r[|r| - 1])
  {
    TrimEnd(TrimStart(s))
  }

  /** Text that neither starts nor ends with white space is its own trim. */
  lemma TrimUnchanged(s: string)
    requires |s| > 0 ==> !IsSpace(s[0]) && !IsSpace(s[|s| - 1])
    ensures Trim(s) == s
  {
  }

  predicate AllSpace(s: string) {
    forall i :: 0 <= i < |s| ==> IsSpace(s[i])
  }

  lemma {:induction false} TrimStartSkipsSpace(pre: string, t: string)
    requires AllSpace(pre) && |t| > 0 && !IsSpace(t[0])
    ensures TrimStart(pre + t) == t
    decreases |pre|
  {
    if |pre| > 0 {
      assert (pre + t)[1..] == pre[1..] + t;
      TrimStartSkipsSpace(pre[1..], t);
    } else {
      assert pre + t == t;
    }
  }

  lemma {:induction false} TrimEndSkipsSpace(t: string, post: string)
    requires AllSpace(post) && |t| > 0 && !IsSpace(t[|t| - 1])
    ensures TrimEnd(t + post) == t
    decreases |post|
  {
    if |post| > 0 {
      assert (t + post)[..|t + post| - 1] == t + post[..|post| - 1];
      TrimEndSkipsSpace(t, post[..|post| - 1]);
    } else {
      assert t + post == t;
    }
  }

  /** Trimming text padded with white space on both sides gives the text. */
  lemma TrimPadded(pre: string, t: string, post: string)
    requires AllSpace(pre) && AllSpace(post)
    requires |t| > 0 && !IsSpace(t[0]) && !IsSpace(t[|t| - 1])
    ensures Trim(pre + t + post) == t
  {
    assert pre + t + post == pre + (t + post);
    TrimStartSkipsSpace(pre, t + post);
    TrimEndSkipsSpace(t, post);
  }

  /** The last character of a join is its last piece's. */
  lemma {:induction false} JoinLast(xs: seq<string>, sep: char)
    requires |xs| >= 1 && |xs[|xs| - 1]| > 0
    ensures |Join(xs, sep)| > 0
    ensures Join(xs, sep)[|Join(xs, sep)| - 1] == xs[|xs| - 1][|xs[|xs| - 1]| - 1]
    decreases |xs|
  {
    if |xs| > 1 {
      JoinLast(xs[1..], sep);
      assert Join(xs, sep) == xs[0] + [sep] + Join(xs[1..], sep);
    }
  }

  /** The first character of a join is its first piece's, and its last
      character its last piece's. */
  lemma JoinEnds(xs: seq<string>, sep: char)
    requires |xs| >= 1 && |xs[0]| > 0 && |xs[|xs| - 1]| > 0
    ensures |Join(xs, sep)| > 0
    ensures Join(xs, sep)[0] == xs[0][0]
    ensures Join(xs, sep)[|Join(xs, sep)| - 1] == xs[|xs| - 1][|xs[|xs| - 1]| - 1]
  {
    JoinLast(xs, sep);
    if |xs| > 1 {
      assert Join(xs, sep) == xs[0] + [sep] + Join(xs[1..], sep);
    }
  }

  /** Joining two non-empty lists one after the other puts one separator
      between their joins. */
  lemma {:induction false} JoinAppend(xs: seq<string>, ys: seq<string>, sep: char)
    requires |xs| >= 1 && |ys| >= 1
    ensures Join(xs + ys, sep) == Join(xs, sep) + [sep] + Join(ys, sep)
    decreases |xs|
  {
    var s := xs + ys;
    if |xs| > 1 {
      assert s[1..] == xs[1..] + ys;
      JoinAppend(xs[1..], ys, sep);
    } else {
      assert s[1..] == ys;
    }
  }

  // ---------------------------------------------------------------------
  // Splitting at a separator text

  /** `t` occurs in `s` starting at `i`. */
  predicate OccursAt(s: string, t: string, i: nat) {
    i + |t| <= |s| && s[i..i + |t|] == t
  }

  /** `s.indexOf(t)` for a non-empty `t`, with `|s|` standing for -1. */
  function IndexOfText(s: string, t: string): (i: nat)
    requires |t| > 0
    ensures i == |s| || OccursAt(s, t, i)
    ensures forall j :: 0 <= j < i ==> !OccursAt(s, t, j)
    decreases |s|
  {
    if |s| < |t| then |s|
    else if s[..|t|] == t then 0
    else
      var k := IndexOfText(s[1..], t);
      forall j | 1 <= j < |s|
        ensures OccursAt(s, t, j) <==> OccursAt(s[1..], t, j - 1)
      {
        if j + |t| <= |s| {
          assert s[1..][j - 1..j - 1 + |t|] == s[j..j + |t|];
        }
      }
      assert s[0..|t|] == s[..|t|];
      assert !OccursAt(s, t, 0);
      k + 1
  }

  /** `s.split(t)` for a separator text of at least one character: the
      pieces between non-overlapping occurrences, found left to right. */
  function SplitOn(s: string, t: string): (r: seq<string>)
    requires |t| > 0
    ensures |r| >= 1
    decreases |s|
  {
    var i := IndexOfText(s, t);
    if i == |s| then [s] else [s[..i]] + SplitOn(s[i + |t|..], t)
  }

  /** Text in which the separator never occurs is one piece. */
  lemma SplitOnWithout(s: string, t: string)
    requires |t| > 0
    requires forall j :: 0 <= j < |s| ==> !OccursAt(s, t, j)
    ensures SplitOn(s, t) == [s]
  {
  }

  /** The first cut falls right after `a` when the separator does not occur
      any earlier. */
  lemma SplitOnFirst(a: string, t: string, b: string)
    requires |t| > 0
    requires forall j :: 0 <= j < |a| ==> !OccursAt(a + t + b, t, j)
    ensures SplitOn(a + t + b, t) == [a] + SplitOn(b, t)
  {
    var s := a + t + b;
    assert s[|a|..|a| + |t|] == t;
    assert OccursAt(s, t, |a|);
    var i := IndexOfText(s, t);
    assert i == |a|;
    assert s[..i] == a;
    assert s[i + |t|..] == b;
  }
}
