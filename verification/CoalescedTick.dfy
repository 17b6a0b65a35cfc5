/**
 The wrapper that serialises and debounces the mark publisher's ticks. `CoalescedTick` is the object
 with its four variables; `Machine` is their value, and a history is the timed sequence of everything
 that reached the object: triggers, timer callbacks (each starts a tick), tick ends, and stop.
 */
module CoalescedTicks {
  import opened Options

  datatype Machine = Machine(running: bool, queued: bool, timer: Option<int>, stopped: bool)

  const IDLE := Machine(false, false, None, false)

  function OnTrigger(m: Machine, now: int, debounce: nat): Machine {
    if m.stopped then m
    else if m.running then m.(queued := true)
    else m.(timer := Some(now + debounce))
  }

  function OnTickEnd(m: Machine, now: int, debounce: nat): Machine {
    if m.queued && !m.stopped
    then OnTrigger(m.(running := false, queued := false), now, debounce)
    else m.(running := false)
  }

  class CoalescedTick {
    const debounceMs: nat
    var running: bool
    var queued: bool
    // When the pending timer is due, if one is armed.
    var pendingTimer: Option<int>
    var stopped: bool

    function State(): Machine
      reads this
    {
      Machine(running, queued, pendingTimer, stopped)
    }

    constructor (debounce: nat)
      ensures debounceMs == debounce && State() == IDLE
    {
      debounceMs := debounce;
      running, queued, pendingTimer, stopped := false, false, None, false;
    }

    method Trigger(now: int)
      modifies this
      ensures State() == OnTrigger(old(State()), now, debounceMs)
    {
      if stopped { return; }
      if running {
        queued := true;
        return;
      }
      if pendingTimer.Some? { pendingTimer := None; }
      pendingTimer := Some(now + debounceMs);
    }

    /** The timer callback: the tick starts. */
    method TimerFires()
      requires pendingTimer.Some?
      modifies this
      ensures State() == old(State()).(timer := None, running := true)
    {
      pendingTimer := None;
      running := true;
    }

    /** The awaited tick settles, whether it resolved or threw. */
    method TickEnds(now: int)
      requires running
      modifies this
      ensures State() == OnTickEnd(old(State()), now, debounceMs)
    {
      running := false;
      if queued && !stopped {
        queued := false;
        Trigger(now);
      }
    }

    method Stop()
      modifies this
      ensures State() == old(State()).(stopped := true, timer := None)
    {
      stopped := true;
      if pendingTimer.Some? { pendingTimer := None; }
    }
  }

  // ----- Histories -----

  datatype Kind = Trigger | Start | End | Stop
  datatype Event = Event(time: int, kind: Kind)

  function Step(m: Machine, e: Event, debounce: nat): Machine {
    match e.kind
    case Trigger => OnTrigger(m, e.time, debounce)
    case Start => m.(timer := None, running := true)
    case End => OnTickEnd(m, e.time, debounce)
    case Stop => m.(stopped := true, timer := None)
  }

  /** A timer fires only while armed and not early; a tick ends only while one runs. */
  predicate Enabled(m: Machine, e: Event) {
    match e.kind
    case Start => m.timer.Some? && m.timer.value <= e.time
    case End => m.running
    case _ => true
  }

  function After(h: seq<Event>, debounce: nat): Machine {
    if h == [] then IDLE else Step(After(h[..|h| - 1], debounce), h[|h| - 1], debounce)
  }

  predicate History(h: seq<Event>, debounce: nat) {
    h == [] ||
    var front, e := h[..|h| - 1], h[|h| - 1];
    && History(front, debounce)
    && Enabled(After(front, debounce), e)
    && (front != [] ==> front[|front| - 1].time <= e.time)
  }

  predicate Is(h: seq<Event>, i: nat, k: Kind) {
    i < |h| && h[i].kind == k
  }

  /** A trigger counts when it comes before any stop. */
  ghost predicate Accepted(h: seq<Event>, i: nat) {
    Is(h, i, Kind.Trigger) && forall j :: 0 <= j < i ==> !Is(h, j, Kind.Stop)
  }

  lemma Front(h: seq<Event>)
    requires h != []
    ensures var front := h[..|h| - 1];
            forall i: nat, k :: i < |front| ==>
              (Is(front, i, k) <==> Is(h, i, k)) && (Accepted(front, i) <==> Accepted(h, i))
  {
    var front := h[..|h| - 1];
    assert forall i: nat, k :: i < |front| ==> (Is(front, i, k) <==> Is(h, i, k));
    hide Is;
    forall i: nat | i < |front|
      ensures Accepted(front, i) <==> Accepted(h, i)
    {
      forall j: nat | j < i
        ensures Is(front, j, Kind.Stop) <==> Is(h, j, Kind.Stop)
      {
      }
    }
  }

  lemma {:induction false} TimesAscend(h: seq<Event>, debounce: nat, i: nat, j: nat)
    requires History(h, debounce) && i <= j < |h|
    ensures h[i].time <= h[j].time
  {
    var n := |h| - 1;
    if i < j {
      if j < n {
        TimesAscend(h[..n], debounce, i, j);
      } else {
        TimesAscend(h[..n], debounce, i, n - 1);
      }
    }
  }

  /** The mutex: a tick runs exactly when the last start has not ended, and no timer is armed meanwhile. */
  lemma {:induction false} OneTickAtATime(h: seq<Event>, debounce: nat)
    requires History(h, debounce)
    ensures var m := After(h, debounce);
            && (m.running <==> exists i: nat :: Is(h, i, Start) && forall k :: i < k < |h| ==> !Is(h, k, End))
            && !(m.running && m.timer.Some?)
            && (m.queued ==> m.running || m.stopped)
    ensures forall i: nat, j: nat :: i < j && Is(h, i, Start) && Is(h, j, Start) ==>
              exists k: nat :: i < k < j && Is(h, k, End)
  {
    if h != [] {
      var n := |h| - 1;
      var front := h[..n];
      Front(h);
      OneTickAtATime(front, debounce);
      var before, m := After(front, debounce), After(h, debounce);
      if Is(h, n, Start) {
        assert m.running && Is(h, n, Start);
        forall i: nat | i < n && Is(h, i, Start)
          ensures exists k: nat :: i < k < n && Is(h, k, End)
        {
          assert Is(front, i, Start);
          var k :| i < k < |front| && Is(front, k, End);
          assert Is(h, k, End);
        }
      } else if !Is(h, n, End) && m.running {
        var i: nat :| Is(front, i, Start) && forall k :: i < k < |front| ==> !Is(front, k, End);
        assert Is(h, i, Start);
      }
    }
  }

  /** Stop is final: the machine is stopped exactly when the history has a stop, and then nothing is armed. */
  lemma {:induction false} StopIsFinal(h: seq<Event>, debounce: nat)
    requires History(h, debounce)
    ensures var m := After(h, debounce);
            (m.stopped <==> exists i: nat :: Is(h, i, Stop)) && (m.stopped ==> m.timer.None?)
    ensures forall i: nat, j: nat :: i < j && Is(h, i, Stop) ==> !Is(h, j, Start)
  {
    if h != [] {
      var n := |h| - 1;
      Front(h);
      StopIsFinal(h[..n], debounce);
      if i: nat :| Is(h[..n], i, Stop) {
        assert Is(h, i, Stop);
      }
      if Is(h, n, Stop) {
        assert After(h, debounce).stopped;
      }
    }
  }

  /** An accepted trigger is followed by a start, is still pending, or was cancelled by a stop. */
  ghost predicate Served(h: seq<Event>, debounce: nat, i: nat) {
    var m := After(h, debounce);
    || (exists j: nat :: i < j && Is(h, j, Start))
    || (exists j: nat :: i < j && Is(h, j, Stop))
    || m.timer.Some?
    || (m.running && m.queued)
  }

  lemma {:induction false} NoTriggerLost(h: seq<Event>, debounce: nat, i: nat)
    requires History(h, debounce) && Accepted(h, i)
    ensures Served(h, debounce, i)
  {
    var n := |h| - 1;
    var front := h[..n];
    Front(h);
    StopIsFinal(front, debounce);
    if i < n {
      NoTriggerLost(front, debounce, i);
      if j: nat :| i < j && Is(front, j, Start) {
        assert Is(h, j, Start);
      } else if j: nat :| i < j && Is(front, j, Stop) {
        assert Is(h, j, Stop);
      } else {
        StopAfter(front, debounce, i);
        assert Is(h, n, h[n].kind);
      }
    }
  }

  /** With no stop after an accepted trigger, the machine is not stopped. */
  lemma StopAfter(h: seq<Event>, debounce: nat, i: nat)
    requires History(h, debounce) && Accepted(h, i) && !exists j: nat :: i < j && Is(h, j, Stop)
    ensures !After(h, debounce).stopped
  {
    StopIsFinal(h, debounce);
    assert !Is(h, i, Stop);
  }

  function Starts(h: seq<Event>): nat {
    if h == [] then 0 else Starts(h[..|h| - 1]) + (if h[|h| - 1].kind == Start then 1 else 0)
  }

  ghost function AcceptedTriggers(h: seq<Event>): nat {
    if h == [] then 0 else AcceptedTriggers(h[..|h| - 1]) + (if Accepted(h, |h| - 1) then 1 else 0)
  }

  /** Each start is paid for by its own accepted trigger; an armed timer and a queued follow-up each hold one more. */
  lemma {:induction false} StartsNeedTriggers(h: seq<Event>, debounce: nat)
    requires History(h, debounce)
    ensures var m := After(h, debounce);
            Starts(h) + (if m.timer.Some? then 1 else 0) + (if m.queued then 1 else 0) <= AcceptedTriggers(h)
  {
    if h != [] {
      var n := |h| - 1;
      var front := h[..n];
      Front(h);
      StartsNeedTriggers(front, debounce);
      StopIsFinal(front, debounce);
      OneTickAtATime(front, debounce);
      if Is(h, n, Kind.Trigger) && !After(front, debounce).stopped {
        forall j: nat | j < n
          ensures !Is(h, j, Kind.Stop)
        {
          assert Is(front, j, Kind.Stop) <==> Is(h, j, Kind.Stop);
        }
        assert Accepted(h, n);
      }
    }
  }

  /** Between two starts there is an accepted trigger: a run is never followed up more than was asked for. */
  lemma {:induction false} TriggerBetweenStarts(h: seq<Event>, debounce: nat, i: nat)
    requires History(h, debounce) && Is(h, i, Start)
    ensures (exists k: nat :: i < k && Accepted(h, k)) || (var m := After(h, debounce); m.timer.None? && !m.queued)
    ensures forall j: nat :: i < j && Is(h, j, Start) ==> exists k: nat :: i < k < j && Accepted(h, k)
  {
    var n := |h| - 1;
    var front := h[..n];
    Front(h);
    OneTickAtATime(front, debounce);
    StopIsFinal(front, debounce);
    if i < n {
      TriggerBetweenStarts(front, debounce, i);
      if k: nat :| i < k && Accepted(front, k) {
        assert Accepted(h, k);
      }
      if Is(h, n, Kind.Trigger) && !After(front, debounce).stopped {
        assert Accepted(h, n);
      }
      if Is(h, n, Start) {
        var k: nat :| i < k && Accepted(front, k);
        assert k < n && Accepted(h, k);
      }
      forall j: nat | i < j < n && Is(h, j, Start)
        ensures exists k: nat :: i < k < j && Accepted(h, k)
      {
        assert Is(front, j, Start);
        var k: nat :| i < k < j && Accepted(front, k);
        assert Accepted(h, k);
      }
    } else {
      QueuedNeedsRun(front, debounce);
    }
  }

  lemma QueuedNeedsRun(h: seq<Event>, debounce: nat)
    requires History(h, debounce)
    ensures After(h, debounce).timer.Some? ==> !After(h, debounce).queued
  {
    OneTickAtATime(h, debounce);
    StopIsFinal(h, debounce);
  }

  /** Debounce: a start comes at least the window after every trigger accepted before it. */
  lemma {:induction false} StartAfterQuiet(h: seq<Event>, debounce: nat, i: nat)
    requires History(h, debounce) && Accepted(h, i)
    ensures After(h, debounce).timer.Some? ==> h[i].time + debounce <= After(h, debounce).timer.value
    ensures forall j: nat :: i < j && Is(h, j, Start) ==> h[i].time + debounce <= h[j].time
  {
    var n := |h| - 1;
    var front := h[..n];
    Front(h);
    TimesAscend(h, debounce, i, n);
    if i < n {
      StartAfterQuiet(front, debounce, i);
      assert front[i] == h[i];
      forall j: nat | i < j && Is(h, j, Start)
        ensures h[i].time + debounce <= h[j].time
      {
        if j < n {
          assert Is(front, j, Start) && front[j] == h[j];
        }
      }
    } else {
      StopIsFinal(front, debounce);
      OneTickAtATime(front, debounce);
    }
  }

  /** An armed timer was armed by the very last event, for exactly the window after it. */
  lemma {:induction false} TimerIsLastArming(h: seq<Event>, debounce: nat)
    requires History(h, debounce)
    ensures After(h, debounce).timer.Some? ==>
      && h != []
      && h[|h| - 1].kind in {Kind.Trigger, Kind.End}
      && After(h, debounce).timer == Some(h[|h| - 1].time + debounce)
  {
    if h != [] {
      OneTickAtATime(h[..|h| - 1], debounce);
      StopIsFinal(h[..|h| - 1], debounce);
    }
  }

  /** So every start directly follows, by at least the window, the trigger or tick end that armed it. */
  lemma {:induction false} StartFollowsArming(h: seq<Event>, debounce: nat, j: nat)
    requires History(h, debounce) && Is(h, j, Start)
    ensures 0 < j && h[j - 1].kind in {Kind.Trigger, Kind.End} && h[j - 1].time + debounce <= h[j].time
  {
    var front := h[..|h| - 1];
    Front(h);
    if j < |front| {
      StartFollowsArming(front, debounce, j);
    } else {
      TimerIsLastArming(front, debounce);
    }
  }
}
