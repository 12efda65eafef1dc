/** The older first-in-first-out `AlertManager` of `src/alert.ts`. It is
    the same drain as in `src/alert/alert.ts` except that, once the loop
    ends, it neither hides the container nor clears `running`.

    `DrainStep` is the `while` loop up to its next `await`, or its exit;
    `Finish` is the awaited display settling. `shown` records the alerts
    whose `display` was called. */
module LegacyAlertQueue {
  import opened Js

  datatype LegacyState<T> = LegacyState(
    queue: seq<T>,
    running: bool,
    pending: Option<T>,
    shown: seq<T>)
  {
    function Order(): seq<T> {
      shown + queue
    }

    function DrainStep(): (r: LegacyState<T>)
      ensures r.Order() == Order() && r.running == running
    {
      if |queue| > 0 then
        assert shown + queue == (shown + [queue[0]]) + queue[1..];
        this.(pending := Some(queue[0]), queue := queue[1..], shown := shown + [queue[0]])
      else this.(pending := None)
    }

    function ProcessQueue(): LegacyState<T> {
      if running then this else this.(running := true).DrainStep()
    }

    function Push(x: T): LegacyState<T> {
      this.(queue := queue + [x]).ProcessQueue()
    }

    function Finish(): LegacyState<T> {
      if pending.None? then this else this.(pending := None).DrainStep()
    }

    /** The first drain has ended: `running` is still set and nothing is on
        display. */
    predicate Stalled() {
      running && pending.None?
    }
  }

  function InitialLegacy<T>(): LegacyState<T> {
    LegacyState([], false, None, [])
  }

  /** Alerts are taken from the front in push order. */
  lemma LegacyShownInPushOrder<T>(s: LegacyState<T>, x: T)
    ensures s.Push(x).Order() == s.Order() + [x]
    ensures s.Finish().Order() == s.Order()
  {
  }

  /** Once stalled, a push only grows the queue; nothing is displayed and no
      display is awaited, so the manager stays stalled for good. */
  lemma StalledForGood<T>(s: LegacyState<T>, x: T)
    requires s.Stalled()
    ensures s.Push(x) == s.(queue := s.queue + [x])
    ensures s.Push(x).Stalled() && s.Finish() == s
  {
  }

  /** The first alert is shown and, when it finishes with nothing queued,
      the manager stalls: a second alert pushed afterwards is never shown. */
  lemma SecondAlertAfterDrainIsNeverShown<T>(a: T, b: T)
    ensures var s := InitialLegacy().Push(a).Finish();
      s.shown == [a] && s.Stalled() && s.Push(b).shown == [a] && s.Push(b).queue == [b]
  {
  }

  /** `AlertManager` of `src/alert.ts`. */
  class LegacyAlertManager<T> {
    var queue: seq<T>
    var running: bool
    var pending: Option<T>
    var shown: seq<T>

    function State(): LegacyState<T>
      reads this
    {
      LegacyState(queue, running, pending, shown)
    }

    constructor ()
      ensures State() == InitialLegacy()
    {
      queue := [];
      running := false;
      pending := None;
      shown := [];
    }

    method DrainStep()
      modifies this
      ensures State() == old(State()).DrainStep()
    {
      if |queue| > 0 {
        var alert := queue[0];
        queue := queue[1..];
        shown := shown + [alert];
        pending := Some(alert);
      } else {
        pending := None;
      }
    }

    method ProcessQueue()
      modifies this
      ensures State() == old(State()).ProcessQueue()
    {
      if running {
        return;
      }
      running := true;
      DrainStep();
    }

    method Push(x: T)
      modifies this
      ensures State() == old(State()).Push(x)
    {
      queue := queue + [x];
      ProcessQueue();
    }

    method Finish()
      modifies this
      ensures State() == old(State()).Finish()
    {
      if pending.None? {
        return;
      }
      pending := None;
      DrainStep();
    }
  }
}
