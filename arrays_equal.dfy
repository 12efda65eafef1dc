/** `arraysEqual(a, b)`: order-insensitive equality of two string lists,
    computed by comparing sorted copies position by position. */
module ArraysEqual {
  import opened Js

  /** The order `Array.prototype.sort` uses by default: character by
      character, a proper prefix first. A character here is a code point,
      where JavaScript compares UTF-16 code units; the two orders agree
      below U+E000 and may differ above it. */
  predicate LessEq(a: string, b: string)
    decreases |a|
  {
    |a| == 0 || (|b| > 0 && (a[0] < b[0] || (a[0] == b[0] && LessEq(a[1..], b[1..]))))
  }

  lemma {:induction false} LessEqTotal(a: string, b: string)
    ensures LessEq(a, b) || LessEq(b, a)
    decreases |a|
  {
    if |a| > 0 && |b| > 0 && a[0] == b[0] {
      LessEqTotal(a[1..], b[1..]);
    }
  }

  lemma {:induction false} LessEqReflexive(a: string)
    ensures LessEq(a, a)
    decreases |a|
  {
    if |a| > 0 {
      LessEqReflexive(a[1..]);
    }
  }

  lemma {:induction false} LessEqAntisymmetric(a: string, b: string)
    requires LessEq(a, b) && LessEq(b, a)
    ensures a == b
    decreases |a|
  {
    if |a| > 0 {
      LessEqAntisymmetric(a[1..], b[1..]);
      assert a == [a[0]] + a[1..] && b == [b[0]] + b[1..];
    }
  }

  lemma {:induction false} LessEqTransitive(a: string, b: string, c: string)
    requires LessEq(a, b) && LessEq(b, c)
    ensures LessEq(a, c)
    decreases |a|
  {
    if |a| > 0 && a[0] == b[0] && b[0] == c[0] {
      LessEqTransitive(a[1..], b[1..], c[1..]);
    }
  }

  predicate Sorted(s: seq<string>) {
    forall i, j :: 0 <= i < j < |s| ==> LessEq(s[i], s[j])
  }

  /** `x` placed before the first element it does not follow. */
  function Insert(x: string, s: seq<string>): (r: seq<string>)
    requires Sorted(s)
    ensures multiset(r) == multiset(s) + multiset{x}
    ensures Sorted(r)
    decreases |s|
  {
    if |s| == 0 then [x]
    else if LessEq(x, s[0]) then
      SortedCons(x, s);
      [x] + s
    else
      LessEqTotal(x, s[0]);
      SortedTail(s);
      var rest := Insert(x, s[1..]);
      HeadBelowInserted(x, s, rest);
      SortedCons(s[0], rest);
      assert s == [s[0]] + s[1..];
      [s[0]] + rest
  }

  /** The head of a sorted list comes before every string it holds. */
  lemma SortedHeadIsLeast(s: seq<string>, y: string)
    requires Sorted(s) && |s| > 0 && y in multiset(s)
    ensures LessEq(s[0], y)
  {
    var k :| 0 <= k < |s| && s[k] == y;
    if k == 0 {
      LessEqReflexive(y);
    }
  }

  lemma SortedTail(s: seq<string>)
    requires Sorted(s) && |s| > 0
    ensures Sorted(s[1..])
  {
    assert forall i :: 0 <= i < |s[1..]| ==> s[1..][i] == s[i + 1];
  }

  /** A string before every element of a sorted list keeps it sorted when
      put in front. */
  lemma SortedCons(x: string, s: seq<string>)
    requires Sorted(s)
    requires |s| > 0 ==> LessEq(x, s[0])
    ensures Sorted([x] + s)
  {
    var r := [x] + s;
    forall i, j | 0 <= i < j < |r| ensures LessEq(r[i], r[j]) {
      if i == 0 {
        assert r[j] == s[j - 1];
        if j > 1 {
          LessEqTransitive(x, s[0], s[j - 1]);
        }
      } else {
        assert r[i] == s[i - 1] && r[j] == s[j - 1];
      }
    }
  }

  /** When `x` goes after the head, the head stays before the rest. */
  lemma HeadBelowInserted(x: string, s: seq<string>, rest: seq<string>)
    requires Sorted(s) && |s| > 0 && LessEq(s[0], x)
    requires multiset(rest) == multiset(s[1..]) + multiset{x}
    ensures |rest| > 0 ==> LessEq(s[0], rest[0])
  {
    if |rest| > 0 {
      assert rest[0] in multiset(rest);
      if rest[0] != x {
        assert rest[0] in multiset(s[1..]);
        var k :| 0 <= k < |s[1..]| && s[1..][k] == rest[0];
        assert s[k + 1] == rest[0];
      }
    }
  }

  /** A sorted copy of `s`: the spread-and-`sort()` of the source. */
  function SortedCopy(s: seq<string>): (r: seq<string>)
    ensures multiset(r) == multiset(s)
    ensures Sorted(r)
    decreases |s|
  {
    if |s| == 0 then []
    else
      assert s == [s[0]] + s[1..];
      Insert(s[0], SortedCopy(s[1..]))
  }

  /** Two sorted lists holding the same strings are the same list. */
  lemma {:induction false} SortedUnique(a: seq<string>, b: seq<string>)
    requires Sorted(a) && Sorted(b)
    requires multiset(a) == multiset(b)
    ensures a == b
    decreases |a|
  {
    if |a| > 0 {
      assert |b| == |multiset(b)| == |a|;
      SameHeads(a, b);
      TailMultiset(a);
      TailMultiset(b);
      SortedTail(a);
      SortedTail(b);
      SortedUnique(a[1..], b[1..]);
      assert a == [a[0]] + a[1..] && b == [b[0]] + b[1..];
    }
  }

  /** Two non-empty sorted lists holding the same strings start alike. */
  lemma SameHeads(a: seq<string>, b: seq<string>)
    requires Sorted(a) && Sorted(b) && |a| > 0 && |b| > 0
    requires multiset(a) == multiset(b)
    ensures a[0] == b[0]
  {
    assert a[0] in multiset(a) && b[0] in multiset(b);
    SortedHeadIsLeast(a, b[0]);
    SortedHeadIsLeast(b, a[0]);
    LessEqAntisymmetric(a[0], b[0]);
  }

  lemma TailMultiset(a: seq<string>)
    requires |a| > 0
    ensures multiset(a[1..]) == multiset(a) - multiset{a[0]}
  {
    assert a == [a[0]] + a[1..];
  }

  /** `arraysEqual(a, b)`: false when either list is missing or the lengths
      differ, else whether the sorted copies agree position by position. */
  function ArraysEqual(a: Nullable<seq<string>>, b: Nullable<seq<string>>): (r: bool)
    ensures a.IsUnset() || b.IsUnset() ==> !r
    ensures a.Val? && b.Val? ==> (r <==> multiset(a.value) == multiset(b.value))
  {
    if a.IsUnset() || b.IsUnset() then false
    else if |a.value| != |b.value| then false
    else
      var sortedA := SortedCopy(a.value);
      var sortedB := SortedCopy(b.value);
      var r := forall i :: 0 <= i < |sortedA| ==> sortedA[i] == sortedB[i];
      assert |sortedA| == |multiset(a.value)| && |sortedB| == |multiset(b.value)|;
      assert r ==> sortedA == sortedB;
      if multiset(a.value) == multiset(b.value) then
        SortedUnique(sortedA, sortedB);
        r
      else r
  }

  /** The relation is symmetric, and reflexive on defined lists. */
  lemma ArraysEqualSymmetricReflexive(a: Nullable<seq<string>>, b: Nullable<seq<string>>)
    ensures ArraysEqual(a, b) == ArraysEqual(b, a)
    ensures a.Val? ==> ArraysEqual(a, a)
  {
  }

  /** Lists of different lengths are never equal. */
  lemma DifferentLengths(a: seq<string>, b: seq<string>)
    requires |a| != |b|
    ensures !ArraysEqual(Val(a), Val(b))
  {
    assert |multiset(a)| != |multiset(b)|;
  }

  /** Reordering a list keeps it equal; a repeated name is counted. */
  lemma OrderInsensitive(x: string, y: string)
    ensures ArraysEqual(Val([x, y]), Val([y, x]))
    ensures x != y ==> !ArraysEqual(Val([x, x]), Val([x, y]))
  {
    assert multiset([x, y]) == multiset([y, x]);
    if x != y {
      assert multiset([x, x])[x] == 2;
      assert multiset([x, y])[x] == 1;
    }
  }
}
