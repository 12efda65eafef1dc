/** `DisplayManager<T>`: pops one item per round, awaits its display, then
    re-enters `processQueue` for the next round.

    `Round` is `processQueue` up to its `await` (or to its end when nothing
    was popped); `Finish(k)` is the settling of the `display` of the `k`-th
    item still on screen, followed by the rest of that round. Items may be on
    screen together, so `onScreen` is a list. */
module DisplayManagers {
  import opened Js
  import opened Queues

  datatype ManagerState<T> = ManagerState(
    lanes: Lanes<T>,
    isAnimating: bool,
    display: string,
    onScreen: seq<T>,
    shown: seq<T>)
  {
    /** `processQueue()` up to its `await`: nothing while `isAnimating`;
        otherwise pop one item and display it, or, with nothing popped, hide
        the container and clear the flag. */
    function Round(): (r: ManagerState<T>)
      ensures isAnimating ==> r == this
      ensures |onScreen| <= |r.onScreen| <= |onScreen| + 1
      ensures r.onScreen[..|onScreen|] == onScreen
      ensures r.shown == shown + r.onScreen[|onScreen|..]
    {
      if isAnimating then this
      else
        var (item, rest) := lanes.Pop();
        if item.Val? then
          this.(lanes := rest, isAnimating := true, display := "",
                onScreen := onScreen + [item.value], shown := shown + [item.value])
        else this.(display := "none", isAnimating := false)
    }

    /** `push(item, skipQueue)`: a skipping push clears `isAnimating` first;
        then enqueue, and the "element-pushed" listener runs a round. */
    function Push(x: T, skipQueue: bool): ManagerState<T> {
      var s := if skipQueue then this.(isAnimating := false) else this;
      s.(lanes := lanes.Push(x, if skipQueue then Critical else Low)).Round()
    }

    /** As written: the `k`-th item on screen finishes; its round clears the
        flag, hides the container and starts the next round, then falls
        through to the two statements after the `if`, which hide the
        container and clear the flag once more. */
    function Finish(k: nat): ManagerState<T>
      requires k < |onScreen|
    {
      this.(onScreen := onScreen[..k] + onScreen[k + 1..], isAnimating := false, display := "none")
        .Round()
        .(display := "none", isAnimating := false)
    }

    /** As evidently intended: the round ends with the next round it
        starts. */
    function FinishThenReturn(k: nat): ManagerState<T>
      requires k < |onScreen|
    {
      this.(onScreen := onScreen[..k] + onScreen[k + 1..], isAnimating := false, display := "none")
        .Round()
    }

    function LockQueue(): ManagerState<T> {
      this.(lanes := lanes.(locked := true))
    }

    function UnlockQueue(): ManagerState<T> {
      this.(lanes := lanes.(locked := false))
    }

    /** One item on screen at a time, exactly while `isAnimating` is set,
        and the container visible while it is. */
    predicate OneAtATime() {
      |onScreen| <= 1 &&
      (|onScreen| == 1 <==> isAnimating) &&
      (isAnimating ==> display == "")
    }
  }

  function InitialManager<T>(): (s: ManagerState<T>)
    ensures s.OneAtATime()
  {
    ManagerState(EmptyLanes(), false, "", [], [])
  }

  /** Each round shows the item `pop` yields: the shown items follow the
      queue's own order. */
  lemma RoundShowsPoppedItem<T>(s: ManagerState<T>)
    requires !s.isAnimating
    ensures s.lanes.Pop().0.Val? ==> s.Round().shown == s.shown + [s.lanes.Pop().0.value] && s.Round().display == ""
    ensures !s.lanes.Pop().0.Val? ==> s.Round().display == "none" && !s.Round().isAnimating && s.Round().shown == s.shown
  {
  }

  /** A push without `skipQueue` only enqueues while a round is on; a
      skipping push starts a round at once, which displays the oldest
      CRITICAL item. */
  lemma PushStartsRound<T>(s: ManagerState<T>, x: T)
    ensures s.isAnimating ==> s.Push(x, false) == s.(lanes := s.lanes.Push(x, Low))
    ensures s.Push(x, true).onScreen == s.onScreen + [(s.lanes.critical + [x])[0]]
    ensures s.Push(x, true).isAnimating
  {
  }

  /** The corrected rounds keep one item on screen at a time, through
      non-skipping pushes, finishes and lock changes. */
  lemma CorrectedKeepsOneAtATime<T>(s: ManagerState<T>, x: T, k: nat)
    requires s.OneAtATime()
    ensures s.Push(x, false).OneAtATime()
    ensures k < |s.onScreen| ==> s.FinishThenReturn(k).OneAtATime()
    ensures s.LockQueue().OneAtATime() && s.UnlockQueue().OneAtATime()
  {
    if k < |s.onScreen| {
      assert s.onScreen[..k] + s.onScreen[k + 1..] == [];
    }
  }

  /** As written, the fall-through hides the container and clears the flag
      while the next item is on screen, so a later push displays a second
      item beside it. */
  lemma FallThroughShowsTwoAtOnce<T>(a: T, b: T, c: T)
    ensures var s := InitialManager().Push(a, false).Push(b, false);
      s.onScreen == [a] &&
      s.Finish(0).onScreen == [b] && s.Finish(0).display == "none" && !s.Finish(0).isAnimating &&
      s.Finish(0).Push(c, false).onScreen == [b, c] &&
      !s.Finish(0).OneAtATime() && s.FinishThenReturn(0).OneAtATime()
  {
    var s0 := InitialManager<T>();
    var s1 := s0.Push(a, false);
    assert s1.onScreen == [a] && s1.isAnimating;
    var s2 := s1.Push(b, false);
    assert s2.lanes.low == [b] && s2.onScreen == [a];
    var f := s2.Finish(0);
    assert s2.onScreen[..0] + s2.onScreen[1..] == [];
    assert f.onScreen == [b];
  }

  /** `DisplayManager<T>` over a `Queue<T>` object of its own; `Finish`
      models the rounds as written. */
  class DisplayManager<T> {
    const queue: Queue<T>
    var isAnimating: bool
    var display: string
    var onScreen: seq<T>
    var shown: seq<T>

    function State(): ManagerState<T>
      reads this, queue
    {
      ManagerState(queue.State(), isAnimating, display, onScreen, shown)
    }

    constructor ()
      ensures State() == InitialManager()
    {
      queue := new Queue<T>();
      isAnimating := false;
      display := "";
      onScreen := [];
      shown := [];
    }

    method ProcessQueue()
      modifies this, queue
      ensures State() == old(State()).Round()
    {
      if isAnimating {
        return;
      }
      isAnimating := true;
      display := "";
      var item := queue.Pop();
      if item.Val? {
        onScreen := onScreen + [item.value];
        shown := shown + [item.value];
        return;
      }
      display := "none";
      isAnimating := false;
    }

    method Push(x: T, skipQueue: bool)
      modifies this, queue
      ensures State() == old(State()).Push(x, skipQueue)
    {
      if skipQueue {
        isAnimating := false;
      }
      var priority := if skipQueue then Critical else Low;
      queue.Push(x, priority);
      ProcessQueue();
    }

    method Finish(k: nat)
      requires k < |onScreen|
      modifies this, queue
      ensures State() == old(State()).Finish(k)
    {
      onScreen := onScreen[..k] + onScreen[k + 1..];
      isAnimating := false;
      display := "none";
      ProcessQueue();
      display := "none";
      isAnimating := false;
    }

    method LockQueue()
      modifies queue
      ensures State() == old(State()).LockQueue()
    {
      queue.Lock();
    }

    method UnlockQueue()
      modifies queue
      ensures State() == old(State()).UnlockQueue()
    {
      queue.Unlock();
    }
  }
}
