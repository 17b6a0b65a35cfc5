/**
 The bus that labels the ledger idle, live, reconnecting or down. It keeps counts and instants only;
 the claim is that the label always equals the one read off the complete history of calls.
 */
module HealthBus {
  import opened Numbers
  import opened Options

  const DOWN_THRESHOLD: nat := 3
  const RECONNECTING_WINDOW_MS := 10000

  datatype Health = Idle | Live | Reconnecting | Down

  datatype Snapshot = Snapshot(
    lastSuccessAt: Option<int>,
    lastFailureAt: Option<int>,
    consecutiveFailures: nat,
    reconnectingUntil: Option<int>)

  // The pending expiry: the window it was scheduled for, and when the callback is due.
  datatype Timer = Timer(until: int, due: int)
  datatype Bus = Bus(snapshot: Snapshot, timer: Option<Timer>)

  const EMPTY_BUS := Bus(Snapshot(None, None, 0, None), None)

  function DeriveHealth(s: Snapshot, now: int): Health {
    if s.lastSuccessAt.None? && s.lastFailureAt.None? then Idle
    else if s.consecutiveFailures >= DOWN_THRESHOLD then Down
    else if s.reconnectingUntil.Some? && now < s.reconnectingUntil.value then Reconnecting
    else Live
  }

  function OnSuccess(b: Bus, at: int, now: int): Bus {
    var wasDown := b.snapshot.consecutiveFailures >= DOWN_THRESHOLD;
    var until := at + RECONNECTING_WINDOW_MS;
    Bus(Snapshot(Some(at), b.snapshot.lastFailureAt, 0, if wasDown then Some(until) else b.snapshot.reconnectingUntil),
        if wasDown then Some(Timer(until, MaxInt(now, until))) else b.timer)
  }

  function OnFailure(b: Bus, at: int): Bus {
    Bus(Snapshot(b.snapshot.lastSuccessAt, Some(at), b.snapshot.consecutiveFailures + 1, None), None)
  }

  function OnExpiry(b: Bus): Bus
    requires b.timer.Some?
  {
    var matches := b.snapshot.reconnectingUntil == Some(b.timer.value.until);
    Bus(if matches then b.snapshot.(reconnectingUntil := None) else b.snapshot, None)
  }

  class LedgerHealthBus {
    var snapshot: Snapshot
    var reconnectingTimer: Option<Timer>

    function State(): Bus
      reads this
    {
      Bus(snapshot, reconnectingTimer)
    }

    constructor ()
      ensures State() == EMPTY_BUS
    {
      snapshot, reconnectingTimer := Snapshot(None, None, 0, None), None;
    }

    method RecordSuccess(at: int, now: int)
      modifies this
      ensures State() == OnSuccess(old(State()), at, now)
    {
      var wasDown := snapshot.consecutiveFailures >= DOWN_THRESHOLD;
      var reconnectingUntil := if wasDown then Some(at + RECONNECTING_WINDOW_MS) else snapshot.reconnectingUntil;
      snapshot := Snapshot(Some(at), snapshot.lastFailureAt, 0, reconnectingUntil);
      if wasDown {
        ScheduleReconnectingExpiry(reconnectingUntil, now);
      }
    }

    method RecordFailure(at: int, now: int)
      modifies this
      ensures State() == OnFailure(old(State()), at)
    {
      snapshot := Snapshot(snapshot.lastSuccessAt, Some(at), snapshot.consecutiveFailures + 1, None);
      ScheduleReconnectingExpiry(None, now);
    }

    method ScheduleReconnectingExpiry(until: Option<int>, now: int)
      modifies this`reconnectingTimer
      ensures reconnectingTimer == match until case None => None case Some(u) => Some(Timer(u, MaxInt(now, u)))
    {
      if reconnectingTimer.Some? { reconnectingTimer := None; }
      if until.None? { return; }
      var delay := MaxInt(0, until.value - now);
      reconnectingTimer := Some(Timer(until.value, now + delay));
    }

    /** The timer callback. */
    method Expire()
      requires reconnectingTimer.Some?
      modifies this
      ensures State() == OnExpiry(old(State()))
    {
      var until := reconnectingTimer.value.until;
      reconnectingTimer := None;
      if snapshot.reconnectingUntil == Some(until) {
        snapshot := snapshot.(reconnectingUntil := None);
      }
    }
  }

  // ----- Histories -----

  // `now` is the clock when the event reaches the bus, `at` the instant a call reports for itself.
  datatype Event = Call(ok: bool, at: int, now: int) | Expiry(now: int)

  function Step(b: Bus, e: Event): Bus {
    match e
    case Call(ok, at, now) => if ok then OnSuccess(b, at, now) else OnFailure(b, at)
    case Expiry(_) => if b.timer.Some? then OnExpiry(b) else b
  }

  function After(h: seq<Event>): Bus {
    if h == [] then EMPTY_BUS else Step(After(h[..|h| - 1]), h[|h| - 1])
  }

  /** The clock never goes back, and an expiry callback runs only while armed and not early. */
  predicate History(h: seq<Event>) {
    h == [] ||
    var front, e := h[..|h| - 1], h[|h| - 1];
    && History(front)
    && (front != [] ==> front[|front| - 1].now <= e.now)
    && (e.Expiry? ==> After(front).timer.Some? && After(front).timer.value.due <= e.now)
  }

  function Calls(h: seq<Event>): seq<Event> {
    if h == [] then []
    else Calls(h[..|h| - 1]) + (if h[|h| - 1].Call? then [h[|h| - 1]] else [])
  }

  predicate Outcome(c: seq<Event>, i: int, ok: bool) {
    0 <= i < |c| && c[i].Call? && c[i].ok == ok
  }

  predicate ThreeFailuresBefore(c: seq<Event>, k: int) {
    Outcome(c, k - 1, false) && Outcome(c, k - 2, false) && Outcome(c, k - 3, false)
  }

  /** Call `k` opens the trailing run of successes, and three failures come directly before it. */
  ghost predicate RecoversAt(c: seq<Event>, k: int) {
    && 0 <= k < |c|
    && (forall i :: k <= i < |c| ==> Outcome(c, i, true))
    && ThreeFailuresBefore(c, k)
  }

  /** The label, said from the whole call history. */
  ghost function Declared(c: seq<Event>, now: int): Health {
    if c == [] then Idle
    else if ThreeFailuresBefore(c, |c|) then Down
    else if exists k :: RecoversAt(c, k) && c[k].Call? && now < c[k].at + RECONNECTING_WINDOW_MS then Reconnecting
    else Live
  }

  function TrailingFailures(c: seq<Event>): nat {
    if c == [] || !Outcome(c, |c| - 1, false) then 0 else 1 + TrailingFailures(c[..|c| - 1])
  }

  lemma {:induction false} TrailingFailuresThree(c: seq<Event>)
    ensures TrailingFailures(c) >= DOWN_THRESHOLD <==> ThreeFailuresBefore(c, |c|)
  {
    if c != [] && Outcome(c, |c| - 1, false) {
      var d := c[..|c| - 1];
      if d != [] && Outcome(d, |d| - 1, false) {
        var e := d[..|d| - 1];
        assert TrailingFailures(c) == 2 + TrailingFailures(e);
        assert Outcome(e, |e| - 1, false) <==> Outcome(c, |c| - 3, false);
      } else {
        assert !Outcome(c, |c| - 2, false);
      }
    }
  }

  lemma RecoveryUnique(c: seq<Event>, j: int, k: int)
    requires RecoversAt(c, j) && RecoversAt(c, k)
    ensures j == k
  {
    assert j < k ==> Outcome(c, k - 1, true);
    assert k < j ==> Outcome(c, j - 1, true);
  }

  /** Appending a call: a failure ends any recovery, a success opens one or continues it. */
  lemma RecoveryStep(c: seq<Event>, e: Event, k: int)
    requires e.Call?
    ensures RecoversAt(c + [e], k) <==>
            e.ok && ((k == |c| && ThreeFailuresBefore(c, |c|)) || RecoversAt(c, k))
  {
    var d := c + [e];
    assert forall i, ok :: i < |c| ==> (Outcome(d, i, ok) <==> Outcome(c, i, ok));
    if RecoversAt(d, k) {
      assert Outcome(d, |c|, true);
    }
    if e.ok && RecoversAt(c, k) {
      forall i | k <= i < |d|
        ensures Outcome(d, i, true)
      {
      }
    }
  }

  /** What the fields say about the history; `now` is any clock value from the last event on. */
  ghost predicate Refines(b: Bus, c: seq<Event>, now: int) {
    && b.snapshot.consecutiveFailures == TrailingFailures(c)
    && (b.snapshot.lastSuccessAt.None? && b.snapshot.lastFailureAt.None? <==> c == [])
    && (forall i :: 0 <= i < |c| ==> c[i].Call?)
    && (b.snapshot.reconnectingUntil.Some? ==>
          exists k :: RecoversAt(c, k) && c[k].at + RECONNECTING_WINDOW_MS == b.snapshot.reconnectingUntil.value)
    && (b.snapshot.reconnectingUntil.None? ==> forall k :: RecoversAt(c, k) ==> c[k].at + RECONNECTING_WINDOW_MS <= now)
  }

  /** A timer is armed exactly while a reconnecting window is set, for that window's own end. */
  ghost predicate TimerMatches(b: Bus) {
    match b.timer
    case None => b.snapshot.reconnectingUntil.None?
    case Some(t) => b.snapshot.reconnectingUntil == Some(t.until) && t.until <= t.due
  }

  lemma {:induction false} TimerIffWindow(h: seq<Event>)
    requires History(h)
    ensures TimerMatches(After(h))
  {
    if h != [] {
      TimerIffWindow(h[..|h| - 1]);
    }
  }

  /** When no call is reported later than its own window lasts, the callback is due at the window's end. */
  lemma {:induction false} TimerDueAtWindowEnd(h: seq<Event>)
    requires History(h) && forall i :: 0 <= i < |h| && h[i].Call? ==> h[i].now <= h[i].at + RECONNECTING_WINDOW_MS
    ensures After(h).timer.Some? ==> After(h).timer.value.due == After(h).timer.value.until
  {
    if h != [] {
      TimerDueAtWindowEnd(h[..|h| - 1]);
    }
  }

  lemma {:induction false} FieldsRefineHistory(h: seq<Event>, now: int)
    requires History(h) && (h != [] ==> h[|h| - 1].now <= now)
    ensures Refines(After(h), Calls(h), now)
  {
    hide Refines, TimerMatches, OnExpiry, OnSuccess, OnFailure;
    if h == [] {
      EmptyRefines(now);
    } else {
      var front, e := h[..|h| - 1], h[|h| - 1];
      var b, c := After(front), Calls(front);
      FieldsRefineHistory(front, e.now);
      TimerIffWindow(front);
      assert After(h) == Step(b, e) && c + [] == c;
      if e.Expiry? {
        ExpiryRefines(b, c, e.now, now);
      } else {
        CallRefines(b, c, e, now);
      }
    }
  }

  lemma EmptyRefines(now: int)
    ensures Refines(EMPTY_BUS, [], now)
  {
  }

  lemma ExpiryRefines(b: Bus, c: seq<Event>, at: int, now: int)
    requires b.timer.Some? && TimerMatches(b) && b.timer.value.due <= at <= now
    requires Refines(b, c, at)
    ensures Refines(OnExpiry(b), c, now)
  {
    var k :| RecoversAt(c, k) && c[k].at + RECONNECTING_WINDOW_MS == b.snapshot.reconnectingUntil.value;
    forall j | RecoversAt(c, j)
      ensures j == k
    {
      RecoveryUnique(c, j, k);
    }
  }

  lemma CallRefines(b: Bus, c: seq<Event>, e: Event, now: int)
    requires e.Call? && e.now <= now && Refines(b, c, e.now)
    ensures Refines(Step(b, e), c + [e], now)
  {
    var d := c + [e];
    TrailingFailuresThree(c);
    assert d[..|c|] == c;
    forall k
      ensures RecoversAt(d, k) <==> e.ok && ((k == |c| && ThreeFailuresBefore(c, |c|)) || RecoversAt(c, k))
    {
      RecoveryStep(c, e, k);
    }
    if e.ok {
      if ThreeFailuresBefore(c, |c|) {
        assert RecoversAt(d, |c|);
        forall k | RecoversAt(d, k)
          ensures k == |c|
        {
          RecoveryUnique(d, k, |c|);
        }
      } else if b.snapshot.reconnectingUntil.Some? {
        var k :| RecoversAt(c, k) && c[k].at + RECONNECTING_WINDOW_MS == b.snapshot.reconnectingUntil.value;
        assert RecoversAt(d, k) && d[k] == c[k];
      } else {
        forall k | RecoversAt(d, k)
          ensures d[k].at + RECONNECTING_WINDOW_MS <= now
        {
          assert RecoversAt(c, k) && d[k] == c[k];
        }
      }
    }
  }

  /** The bus refines its history: at any moment from the last event on, the label is the declared one. */
  lemma HealthIsDeclared(h: seq<Event>, now: int)
    requires History(h) && (h != [] ==> h[|h| - 1].now <= now)
    ensures DeriveHealth(After(h).snapshot, now) == Declared(Calls(h), now)
  {
    FieldsRefineHistory(h, now);
    var s, c := After(h).snapshot, Calls(h);
    TrailingFailuresThree(c);
    if s.reconnectingUntil.Some? {
      var k :| RecoversAt(c, k) && c[k].at + RECONNECTING_WINDOW_MS == s.reconnectingUntil.value;
      forall j | RecoversAt(c, j)
        ensures j == k
      {
        RecoveryUnique(c, j, k);
      }
    }
  }
}
