/** The plain first-in-first-out `AlertManager` of `src/alert/alert.ts`:
    `push` appends and starts a drain unless one runs; the drain takes
    alerts from the front one at a time, awaits each display, and at the
    end hides the container and clears `running`.

    `DrainStep` is the `while` loop up to its next `await`, or out of the
    loop to the end of `processQueue`; `Finish` is the awaited display
    settling. `shown` records the alerts whose `display` was called. */
module AlertQueue {
  import opened Js

  datatype AlertQueueState<T> = AlertQueueState(
    queue: seq<T>,
    running: bool,
    display: string,
    pending: Option<T>,
    shown: seq<T>)
  {
    /** Every alert pushed so far, in the order it is or will be shown. */
    function Order(): seq<T> {
      shown + queue
    }

    function DrainStep(): (r: AlertQueueState<T>)
      ensures r.Order() == Order()
    {
      if |queue| > 0 then
        assert shown + queue == (shown + [queue[0]]) + queue[1..];
        this.(pending := Some(queue[0]), queue := queue[1..], shown := shown + [queue[0]])
      else this.(pending := None, display := "none", running := false)
    }

    /** `processQueue()`: nothing while `running`; else show the container
        and start draining. */
    function ProcessQueue(): AlertQueueState<T> {
      if running then this else this.(running := true, display := "").DrainStep()
    }

    /** `push(alert)` */
    function Push(x: T): AlertQueueState<T> {
      this.(queue := queue + [x]).ProcessQueue()
    }

    function Finish(): AlertQueueState<T> {
      if pending.None? then this else this.(pending := None).DrainStep()
    }

    /** A drain runs exactly while an alert is on display, the container is
        visible during a drain and hidden after it, and an idle manager has
        nothing queued. */
    ghost predicate Inv() {
      (running <==> pending.Some?) &&
      (pending.Some? ==> |shown| > 0 && pending.value == shown[|shown| - 1]) &&
      (running ==> display == "") &&
      (!running ==> |queue| == 0)
    }
  }

  function InitialAlertQueue<T>(): (s: AlertQueueState<T>)
    ensures s.Inv() && s.Order() == []
  {
    AlertQueueState([], false, "", None, [])
  }

  lemma PushKeepsInv<T>(s: AlertQueueState<T>, x: T)
    requires s.Inv()
    ensures s.Push(x).Inv()
  {
  }

  lemma FinishKeepsInv<T>(s: AlertQueueState<T>)
    requires s.Inv()
    ensures s.Finish().Inv()
  {
  }

  /** A push appends to the end of the order and finishing reorders
      nothing: alerts are shown strictly in push order. */
  lemma ShownInPushOrder<T>(s: AlertQueueState<T>, x: T)
    ensures s.Push(x).Order() == s.Order() + [x]
    ensures s.Finish().Order() == s.Order()
  {
  }

  /** A push to an idle manager is displayed at once; a push during a drain
      waits at the tail of the queue. */
  lemma PushWhenIdleShows<T>(s: AlertQueueState<T>, x: T)
    requires s.Inv()
    ensures !s.running ==> s.Push(x).pending == Some(x) && s.Push(x).display == "" && s.Push(x).shown == s.shown + [x]
    ensures s.running ==> s.Push(x) == s.(queue := s.queue + [x])
  {
  }

  /** Once the last alert finishes, the container is hidden and `running`
      is cleared, so the next push starts a new drain. */
  lemma LastFinishEndsDrain<T>(s: AlertQueueState<T>)
    requires s.Inv() && s.running && |s.queue| == 0
    ensures !s.Finish().running && s.Finish().display == "none" && s.Finish().Inv()
  {
  }

  /** Alerts pushed one after the other. */
  function PushAll<T>(s: AlertQueueState<T>, xs: seq<T>): AlertQueueState<T>
    decreases |xs|
  {
    if |xs| == 0 then s else PushAll(s.Push(xs[0]), xs[1..])
  }

  /** Finishing `n` times. */
  function FinishTimes<T>(s: AlertQueueState<T>, n: nat): AlertQueueState<T>
    decreases n
  {
    if n == 0 then s else FinishTimes(s.Finish(), n - 1)
  }

  lemma {:induction false} PushAllKeepsInv<T>(s: AlertQueueState<T>, xs: seq<T>)
    requires s.Inv()
    ensures PushAll(s, xs).Inv()
    ensures PushAll(s, xs).Order() == s.Order() + xs
    ensures |xs| > 0 ==> PushAll(s, xs).running
    decreases |xs|
  {
    if |xs| > 0 {
      PushAllKeepsInv(s.Push(xs[0]), xs[1..]);
      assert s.Order() + xs == (s.Order() + [xs[0]]) + xs[1..];
    }
  }

  /** Each finish of a running drain moves one queued alert to the screen,
      until the queue is empty and the drain ends. */
  lemma {:induction false} FinishingDrainsQueue<T>(s: AlertQueueState<T>)
    requires s.Inv()
    ensures var t := FinishTimes(s, |s.queue| + 1);
      t.Inv() && !t.running && t.shown == s.Order() && (s.running ==> t.display == "none")
    decreases |s.queue|
  {
    if s.running {
      FinishKeepsInv(s);
      if |s.queue| > 0 {
        FinishingDrainsQueue(s.Finish());
      } else {
        assert FinishTimes(s.Finish(), 0) == s.Finish();
      }
    } else {
      assert FinishTimes(s.Finish(), |s.queue|) == s.Finish();
    }
  }

  /** Liveness: every alert pushed to an idle manager is eventually shown,
      in push order, and the manager ends idle with the container hidden. */
  lemma AllPushedAlertsAreShown<T>(xs: seq<T>)
    requires |xs| > 0
    ensures var s := PushAll(InitialAlertQueue(), xs);
      var t := FinishTimes(s, |s.queue| + 1);
      t.shown == xs && !t.running && t.display == "none"
  {
    var s := PushAll(InitialAlertQueue<T>(), xs);
    PushAllKeepsInv(InitialAlertQueue<T>(), xs);
    FinishingDrainsQueue(s);
  }

  /** `AlertManager`: the queue is an array updated in place. */
  class AlertManager<T> {
    var queue: seq<T>
    var running: bool
    var display: string
    var pending: Option<T>
    var shown: seq<T>

    function State(): AlertQueueState<T>
      reads this
    {
      AlertQueueState(queue, running, display, pending, shown)
    }

    constructor ()
      ensures State() == InitialAlertQueue()
    {
      queue := [];
      running := false;
      display := "";
      pending := None;
      shown := [];
    }

    method DrainStep()
      modifies this
      ensures State() == old(State()).DrainStep()
    {
      if |queue| > 0 {
        var alert := queue[0];
        queue := queue[1..];
        shown := shown + [alert];
        pending := Some(alert);
      } else {
        pending := None;
        display := "none";
        running := false;
      }
    }

    method ProcessQueue()
      modifies this
      ensures State() == old(State()).ProcessQueue()
    {
      if running {
        return;
      }
      running := true;
      display := "";
      DrainStep();
    }

    method Push(x: T)
      modifies this
      ensures State() == old(State()).Push(x)
    {
      queue := queue + [x];
      ProcessQueue();
    }

    method Finish()
      modifies this
      ensures State() == old(State()).Finish()
    {
      if pending.None? {
        return;
      }
      pending := None;
      DrainStep();
    }
  }
}
