/** JavaScript's absent values as data: `Option` for lookups that may miss
    (`URLSearchParams.get`, `Map.get`) and `Nullable` for slots that may hold
    `undefined`, `null` or a value, with the `??` operator. */
module Js {

  datatype Option<+T> = None | Some(value: T) {

    /** `this ?? fallback` on a lookup that may miss. */
    function OrElse(fallback: T): (r: T)
      ensures Some? ==> r == value
      ensures None? ==> r == fallback
    {
      if Some? then value else fallback
    }
  }

  /** A slot that is `undefined`, `null` or holds a value. */
  datatype Nullable<+T> = Undefined | Null | Val(value: T) {

    /** `undefined` or `null`: the values `??` skips. */
    predicate IsUnset() {
      Undefined? || Null?
    }

    /** `this ?? fallback` with a defined fallback. */
    function OrElse(fallback: T): (r: T)
      ensures Val? ==> r == value
      ensures IsUnset() ==> r == fallback
    {
      if Val? then value else fallback
    }

    /** `this ?? other` where `other` may itself be unset. */
    function Or(other: Nullable<T>): (r: Nullable<T>)
      ensures Val? ==> r == this
      ensures IsUnset() ==> r == other
    {
      if Val? then this else other
    }
  }

  /** What `URLSearchParams.get` gives back, as a slot: `null` when absent. */
  function FromGet<T>(o: Option<T>): (r: Nullable<T>)
    ensures o.None? <==> r.Null?
    ensures o.Some? ==> r == Val(o.value)
  {
    if o.Some? then Val(o.value) else Null
  }

  /** `xs.map(f).filter(x => x !== null)`, and equally a loop that pushes
      `f(x)` for each `x` and skips the nulls: the defined results, in the
      order of their elements. */
  function MapDefined<T, U>(xs: seq<T>, f: T -> Option<U>): (r: seq<U>)
    ensures |r| <= |xs|
    decreases |xs|
  {
    if |xs| == 0 then []
    else
      var init := MapDefined(xs[..|xs| - 1], f);
      match f(xs[|xs| - 1])
      case Some(y) => init + [y]
      case None => init
  }

  /** One more element adds its result when it has one. */
  lemma MapDefinedStep<T, U>(xs: seq<T>, f: T -> Option<U>, i: nat)
    requires i < |xs|
    ensures MapDefined(xs[..i + 1], f) == MapDefined(xs[..i], f) + (if f(xs[i]).Some? then [f(xs[i]).value] else [])
  {
    assert xs[..i + 1][..i] == xs[..i];
  }

  /** The step of a loop that pushes each defined result: `y`, the result
      of the next element, is pushed when it is defined. */
  lemma MapDefinedPush<T, U>(xs: seq<T>, f: T -> Option<U>, i: nat, acc: seq<U>, y: Option<U>)
    requires i < |xs| && acc == MapDefined(xs[..i], f) && y == f(xs[i])
    ensures MapDefined(xs[..i + 1], f) == if y.Some? then acc + [y.value] else acc
  {
    MapDefinedStep(xs, f, i);
  }

  /** A value is kept exactly when some element maps to it. */
  lemma {:induction false} MapDefinedMembers<T, U>(xs: seq<T>, f: T -> Option<U>, y: U)
    ensures y in MapDefined(xs, f) <==> exists i :: 0 <= i < |xs| && f(xs[i]) == Some(y)
    decreases |xs|
  {
    if |xs| > 0 {
      var init := xs[..|xs| - 1];
      MapDefinedMembers(init, f, y);
      if y in MapDefined(init, f) {
        var i :| 0 <= i < |init| && f(init[i]) == Some(y);
        assert xs[i] == init[i];
      }
      if exists i :: 0 <= i < |xs| && f(xs[i]) == Some(y) {
        var i :| 0 <= i < |xs| && f(xs[i]) == Some(y);
        if i < |init| {
          assert f(init[i]) == Some(y);
        }
      }
    }
  }

  /** When every element has a result, all of them are kept, in order. */
  lemma {:induction false} MapDefinedAllDefined<T, U>(xs: seq<T>, f: T -> Option<U>)
    requires forall i :: 0 <= i < |xs| ==> f(xs[i]).Some?
    ensures |MapDefined(xs, f)| == |xs|
    ensures forall i :: 0 <= i < |xs| ==> MapDefined(xs, f)[i] == f(xs[i]).value
    decreases |xs|
  {
    if |xs| > 0 {
      var init := xs[..|xs| - 1];
      MapDefinedAllDefined(init, f);
    }
  }

  /** When no element has a result, nothing is kept. */
  lemma {:induction false} MapDefinedNoneDefined<T, U>(xs: seq<T>, f: T -> Option<U>)
    requires forall i :: 0 <= i < |xs| ==> f(xs[i]).None?
    ensures MapDefined(xs, f) == []
    decreases |xs|
  {
    if |xs| > 0 {
      MapDefinedNoneDefined(xs[..|xs| - 1], f);
    }
  }
}
