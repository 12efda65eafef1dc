/** `Display<T>`: shows the items of a lockable priority queue one at a time
    in a container element.

    The drain loop is driven by events: `DrainStep` runs the loop body up to
    the `await` on the item's `display`, or out of the loop; `Finish` is that
    `display` settling, and resumes the loop. The container's inline
    `display` and `visibility` styles are strings. `shown` and `cancelled`
    record, in order, the items whose `display` and `cancel` were called.
    When the queue is locked and holds only LOW items, `pop` keeps yielding
    `null` while `isEmpty` stays false, so the loop spins without end; the
    model records that as `hung`, after which nothing else can happen. */
module Displays {
  import opened Js
  import opened Queues

  datatype DisplayState<T(==)> = DisplayState(
    lanes: Lanes<T>,
    isAnimating: bool,
    current: Option<T>,
    pending: Option<T>,
    display: string,
    visibility: string,
    hung: bool,
    shown: seq<T>,
    cancelled: seq<T>)
  {
    /** The order in which the items seen so far are shown: those already
        shown, then those the queue would yield. */
    function Order(): seq<T> {
      shown + lanes.Pending()
    }

    /** One turn of the drain loop: leave it when the queue is empty,
        otherwise pop, record the item as current, make the container
        visible and start displaying. */
    function DrainStep(): (r: DisplayState<T>)
      ensures r.cancelled == cancelled && r.display == display
    {
      if lanes.IsEmpty() then this.(pending := None, isAnimating := false)
      else
        var (item, rest) := lanes.Pop();
        if item.Val? then
          this.(lanes := rest, current := Some(item.value), visibility := "",
                shown := shown + [item.value], pending := Some(item.value))
        else this.(hung := true)
    }

    /** `processQueue()`: nothing while a drain runs; else start one. */
    function ProcessQueue(): DisplayState<T> {
      if hung || isAnimating then this
      else this.(isAnimating := true, display := "").DrainStep()
    }

    /** `push(item, skipQueue)`: enqueue, and the "element-pushed" listener
        runs `processQueue`. */
    function Push(x: T, skipQueue: bool): DisplayState<T> {
      if hung then this
      else this.(lanes := lanes.Push(x, if skipQueue then Critical else Low)).ProcessQueue()
    }

    /** The awaited `display` settles: hide the container and go on
        draining. */
    function Finish(): DisplayState<T> {
      if hung || pending.None? then this
      else this.(visibility := "hidden", pending := None).DrainStep()
    }

    /** `cancel()`: with a current item, cancel it, forget it, hide the
        container and drain on. */
    function Cancel(): DisplayState<T> {
      if hung || current.None? then this
      else this.(cancelled := cancelled + [current.value], current := None,
                 visibility := "hidden", pending := None).DrainStep()
    }

    function LockQueue(): DisplayState<T> {
      this.(lanes := lanes.(locked := true))
    }

    function UnlockQueue(): DisplayState<T> {
      this.(lanes := lanes.(locked := false))
    }

    /** A drain runs exactly while an item is being displayed; that item is
        the current one and the container is visible; an idle display has an
        empty queue. */
    predicate Inv() {
      (!hung ==> (isAnimating <==> pending.Some?)) &&
      (pending.Some? ==> current == pending && visibility == "") &&
      (isAnimating ==> display == "") &&
      (!hung && !isAnimating ==> lanes.IsEmpty())
    }
  }

  function InitialDisplay<T(==)>(): (s: DisplayState<T>)
    ensures s.Inv()
  {
    DisplayState(EmptyLanes(), false, None, None, "", "", false, [], [])
  }

  lemma PushKeepsInv<T>(s: DisplayState<T>, x: T, skipQueue: bool)
    requires s.Inv()
    ensures s.Push(x, skipQueue).Inv()
  {
  }

  lemma FinishKeepsInv<T>(s: DisplayState<T>)
    requires s.Inv()
    ensures s.Finish().Inv()
  {
  }

  lemma CancelKeepsInv<T>(s: DisplayState<T>)
    requires s.Inv()
    ensures s.Cancel().Inv()
  {
  }

  lemma LockingKeepsInv<T>(s: DisplayState<T>)
    requires s.Inv()
    ensures s.LockQueue().Inv() && s.UnlockQueue().Inv()
  {
  }

  /** A LOW push joins the end of the order; a CRITICAL push goes after the
      CRITICAL items already waiting. */
  lemma PushOrder<T>(s: DisplayState<T>, x: T, skipQueue: bool)
    requires s.Inv() && !s.Push(x, skipQueue).hung
    ensures !skipQueue ==> s.Push(x, skipQueue).Order() == s.Order() + [x]
    ensures skipQueue ==> s.Push(x, skipQueue).Order() == s.shown + s.lanes.critical + [x] + s.lanes.low
  {
    var t := s.(lanes := s.lanes.Push(x, if skipQueue then Critical else Low));
    if !s.isAnimating && !t.lanes.IsEmpty() {
      var (item, rest) := t.lanes.Pop();
      assert [item.value] + rest.Pending() == t.lanes.Pending();
    }
  }

  /** Finishing or cancelling an item never reorders or loses anything: the
      next item shown is the head of what the queue held. */
  lemma FinishAndCancelKeepOrder<T>(s: DisplayState<T>)
    requires !s.Finish().hung && !s.Cancel().hung
    ensures s.Finish().Order() == s.Order()
    ensures s.Cancel().Order() == s.Order()
  {
    if !s.lanes.IsEmpty() {
      var (item, rest) := s.lanes.Pop();
      if item.Val? {
        assert [item.value] + rest.Pending() == s.lanes.Pending();
      }
    }
  }

  /** The loop stops making progress only when the queue is locked and
      holds nothing but LOW items. */
  lemma HangsOnlyWhenLockedWithLowItems<T>(s: DisplayState<T>)
    requires !s.hung && s.DrainStep().hung
    ensures s.lanes.locked && |s.lanes.critical| == 0 && |s.lanes.low| > 0
  {
  }

  /** With an unlocked queue, finishing an item displays the next one at
      once, if there is one, and otherwise ends the drain. */
  lemma FinishShowsNext<T>(s: DisplayState<T>)
    requires s.Inv() && !s.hung && s.pending.Some? && !s.lanes.locked
    ensures var t := s.Finish();
      !t.hung &&
      (s.lanes.IsEmpty() ==> !t.isAnimating && t.visibility == "hidden" && t.shown == s.shown) &&
      (!s.lanes.IsEmpty() ==> t.isAnimating && t.shown == s.shown + [s.lanes.Pending()[0]] && t.visibility == "")
  {
  }

  /** An item that finishes on its own stays recorded as the current one. */
  lemma FinishKeepsCurrent<T>(s: DisplayState<T>)
    requires s.Inv() && !s.hung && s.pending.Some? && s.lanes.IsEmpty()
    ensures s.Finish().current == s.current
  {
  }

  /** `cancel` without a current item does nothing; with one it cancels that
      item once, forgets it and, when nothing else waits, leaves the
      container hidden. */
  lemma CancelEffects<T>(s: DisplayState<T>)
    requires !s.hung
    ensures s.current.None? ==> s.Cancel() == s
    ensures s.current.Some? ==> s.Cancel().cancelled == s.cancelled + [s.current.value]
    ensures s.current.Some? && s.lanes.IsEmpty() ==>
      s.Cancel().current.None? && s.Cancel().visibility == "hidden" && !s.Cancel().isAnimating
  {
  }

  /** `lockQueue`/`unlockQueue` only set the flag; they do not restart the
      drain. */
  lemma LockingOnlySetsFlag<T>(s: DisplayState<T>)
    ensures s.UnlockQueue() == s.(lanes := Lanes(s.lanes.low, s.lanes.critical, false))
    ensures s.LockQueue() == s.(lanes := Lanes(s.lanes.low, s.lanes.critical, true))
  {
  }

  /** `Display<T>` over a `Queue<T>` object of its own. */
  class Display<T(==)> {
    const queue: Queue<T>
    var isAnimating: bool
    var current: Option<T>
    var pending: Option<T>
    var display: string
    var visibility: string
    var hung: bool
    var shown: seq<T>
    var cancelled: seq<T>

    function State(): DisplayState<T>
      reads this, queue
    {
      DisplayState(queue.State(), isAnimating, current, pending, display, visibility, hung, shown, cancelled)
    }

    constructor ()
      ensures State() == InitialDisplay()
    {
      queue := new Queue<T>();
      isAnimating := false;
      current := None;
      pending := None;
      display := "";
      visibility := "";
      hung := false;
      shown := [];
      cancelled := [];
    }

    /** The `displayItem` loop up to its next `await`, or its exit followed
        by the end of `processQueue`. */
    method DrainStep()
      modifies this, queue
      ensures State() == old(State()).DrainStep()
    {
      var empty := queue.IsEmpty();
      if empty {
        pending := None;
        isAnimating := false;
        return;
      }
      var item := queue.Pop();
      if item.Val? {
        current := Some(item.value);
        visibility := "";
        shown := shown + [item.value];
        pending := Some(item.value);
      } else {
        hung := true;
      }
    }

    method ProcessQueue()
      modifies this, queue
      ensures State() == old(State()).ProcessQueue()
    {
      if hung || isAnimating {
        return;
      }
      isAnimating := true;
      display := "";
      DrainStep();
    }

    method Push(x: T, skipQueue: bool)
      modifies this, queue
      ensures State() == old(State()).Push(x, skipQueue)
    {
      if hung {
        return;
      }
      var priority := if skipQueue then Critical else Low;
      queue.Push(x, priority);
      ProcessQueue();
    }

    method Finish()
      modifies this, queue
      ensures State() == old(State()).Finish()
    {
      if hung || pending.None? {
        return;
      }
      visibility := "hidden";
      pending := None;
      DrainStep();
    }

    method Cancel()
      modifies this, queue
      ensures State() == old(State()).Cancel()
    {
      if hung || current.None? {
        return;
      }
      cancelled := cancelled + [current.value];
      current := None;
      visibility := "hidden";
      pending := None;
      DrainStep();
    }

    method LockQueue()
      modifies queue
      ensures State() == old(State()).LockQueue()
    {
      queue.Lock();
    }

    method UnlockQueue()
      modifies queue
      ensures State() == old(State()).UnlockQueue()
    {
      queue.Unlock();
    }
  }
}
