/** The lockable two-lane priority queue: a LOW lane and a CRITICAL lane,
    CRITICAL served first, and a lock that holds back only the LOW lane. */
module Queues {
  import opened Js

  datatype Priority = Low | Critical

  /** The queue's state as a value: both lanes, oldest first, and the lock
      flag. */
  datatype Lanes<T> = Lanes(low: seq<T>, critical: seq<T>, locked: bool) {
    /** The order in which the held items would leave an unlocked queue. */
    function Pending(): seq<T> {
      critical + low
    }

    function Size(): nat {
      |low| + |critical|
    }

    /** `isEmpty()`: both lanes are empty; the lock is not consulted. */
    predicate IsEmpty() {
      |low| == 0 && |critical| == 0
    }

    /** `push(element, priority)` */
    function Push(x: T, p: Priority): (r: Lanes<T>)
      ensures p == Critical ==> r.critical == critical + [x] && r.low == low
      ensures p == Low ==> r.low == low + [x] && r.critical == critical
      ensures r.locked == locked
    {
      if p == Critical then this.(critical := critical + [x]) else this.(low := low + [x])
    }

    /** `pop()`: the head of CRITICAL whatever the lock; else, unlocked, the
        head of LOW (`undefined` when that lane is empty too); else `null`. */
    function Pop(): (r: (Nullable<T>, Lanes<T>))
      ensures r.1.locked == locked
      ensures r.0.Val? <==> |critical| > 0 || (!locked && |low| > 0)
      ensures r.0.Val? ==> [r.0.value] + r.1.Pending() == Pending()
      ensures r.0.Null? <==> locked && |critical| == 0
      ensures !r.0.Val? ==> r.1 == this
      ensures |critical| > 0 ==> r.1.low == low
      ensures locked ==> r.1.low == low
    {
      if |critical| > 0 then (Val(critical[0]), this.(critical := critical[1..]))
      else if !locked then
        (if |low| > 0 then (Val(low[0]), this.(low := low[1..])) else (Undefined, this))
      else (Null, this)
    }
  }

  function EmptyLanes<T>(): Lanes<T> {
    Lanes([], [], false)
  }

  /** The items `pop()` yields when called until it yields nothing, and the
      queue that is left. */
  function Drain<T>(q: Lanes<T>): (r: (seq<T>, Lanes<T>))
    decreases q.Size()
  {
    var (item, rest) := q.Pop();
    if item.Val? then
      assert [item.value] + rest.Pending() == q.Pending();
      assert |rest.Pending()| == |q.Pending()| - 1;
      var (items, left) := Drain(rest);
      ([item.value] + items, left)
    else ([], q)
  }

  /** An unlocked queue yields all CRITICAL items and then all LOW items,
      each lane oldest first, and is then empty. */
  lemma {:induction false} DrainUnlocked<T>(q: Lanes<T>)
    requires !q.locked
    ensures Drain(q).0 == q.Pending()
    ensures Drain(q).1.IsEmpty()
    decreases q.Size()
  {
    var (item, rest) := q.Pop();
    if item.Val? {
      assert |rest.Pending()| == |q.Pending()| - 1;
      DrainUnlocked(rest);
    }
  }

  /** A locked queue yields exactly its CRITICAL items and keeps its LOW
      lane as it was. */
  lemma {:induction false} DrainLocked<T>(q: Lanes<T>)
    requires q.locked
    ensures Drain(q).0 == q.critical
    ensures Drain(q).1 == Lanes(q.low, [], true)
    decreases q.Size()
  {
    var (item, rest) := q.Pop();
    if item.Val? {
      assert rest.critical == q.critical[1..];
      DrainLocked(rest);
    }
  }

  /** Pushing several items at one priority. */
  function PushAll<T>(q: Lanes<T>, xs: seq<T>, p: Priority): (r: Lanes<T>)
    decreases |xs|
  {
    if |xs| == 0 then q else PushAll(q.Push(xs[0], p), xs[1..], p)
  }

  lemma {:induction false} PushAllLanes<T>(q: Lanes<T>, xs: seq<T>, p: Priority)
    ensures p == Low ==> PushAll(q, xs, p) == q.(low := q.low + xs)
    ensures p == Critical ==> PushAll(q, xs, p) == q.(critical := q.critical + xs)
    decreases |xs|
  {
    if |xs| > 0 {
      PushAllLanes(q.Push(xs[0], p), xs[1..], p);
      assert q.low + xs == (q.low + [xs[0]]) + xs[1..];
      assert q.critical + xs == (q.critical + [xs[0]]) + xs[1..];
    }
  }

  /** Each lane is first in, first out, and CRITICAL items overtake LOW
      ones: items pushed at LOW and then at CRITICAL into an empty unlocked
      queue leave as all CRITICAL items, then all LOW items, each in push
      order. */
  lemma CriticalFirstEachInPushOrder<T>(lows: seq<T>, criticals: seq<T>)
    ensures Drain(PushAll(PushAll(EmptyLanes(), lows, Low), criticals, Critical)).0 == criticals + lows
  {
    var q1 := PushAll(EmptyLanes<T>(), lows, Low);
    PushAllLanes(EmptyLanes<T>(), lows, Low);
    assert q1 == Lanes(lows, [], false) by {
      assert [] + lows == lows;
    }
    var q2 := PushAll(q1, criticals, Critical);
    PushAllLanes(q1, criticals, Critical);
    assert q2 == Lanes(lows, criticals, false) by {
      assert [] + criticals == criticals;
    }
    DrainUnlocked(q2);
  }

  /** Locking holds the LOW items back without losing or reordering them:
      after `unlock` they leave in their original order. */
  lemma LockHoldsLowItems<T>(q: Lanes<T>)
    ensures var (first, held) := Drain(q.(locked := true));
      first == q.critical && Drain(held.(locked := false)).0 == q.low
  {
    DrainLocked(q.(locked := true));
    DrainUnlocked(Lanes(q.low, [], false));
  }

  /** A locked queue holding only LOW items is not empty, yet `pop` yields
      `null` and changes nothing. */
  lemma LockedWithOnlyLowItems<T>(q: Lanes<T>)
    requires q.locked && |q.critical| == 0 && |q.low| > 0
    ensures !q.IsEmpty()
    ensures q.Pop() == (Null, q)
  {
  }

  /** `Queue<T>`: the two lanes are updated in place. */
  class Queue<T> {
    var low: seq<T>
    var critical: seq<T>
    var locked: bool

    function State(): Lanes<T>
      reads this
    {
      Lanes(low, critical, locked)
    }

    constructor ()
      ensures State() == EmptyLanes()
    {
      low := [];
      critical := [];
      locked := false;
    }

    method Push(x: T, p: Priority)
      modifies this
      ensures State() == old(State()).Push(x, p)
    {
      if p == Critical {
        critical := critical + [x];
      } else {
        low := low + [x];
      }
    }

    method Pop() returns (item: Nullable<T>)
      modifies this
      ensures (item, State()) == old(State()).Pop()
    {
      if |critical| > 0 {
        item := Val(critical[0]);
        critical := critical[1..];
      } else if !locked {
        if |low| > 0 {
          item := Val(low[0]);
          low := low[1..];
        } else {
          item := Undefined;
        }
      } else {
        item := Null;
      }
    }

    method Lock()
      modifies this
      ensures State() == old(State()).(locked := true)
    {
      locked := true;
    }

    method Unlock()
      modifies this
      ensures State() == old(State()).(locked := false)
    {
      locked := false;
    }

    method IsEmpty() returns (empty: bool)
      ensures empty == State().IsEmpty()
    {
      empty := |low| == 0 && |critical| == 0;
    }

    /** `clear()` empties both lanes; the lock flag stays as it was. */
    method Clear()
      modifies this
      ensures State() == Lanes([], [], old(locked))
    {
      low := [];
      critical := [];
    }
  }
}
