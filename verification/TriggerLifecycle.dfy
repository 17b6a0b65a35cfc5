/**
 The trigger tick: fire the lifecycle choice of every live swap whose instrument has no effect dated
 today, sharing one fixing event across the swaps of the tick.
 */
module TriggerLifecycle {
  import opened Options
  import opened Ledger
  import opened LedgerClients

  predicate EffectExistsFor(l: State, inst: InstrumentId, today: Day) {
    exists e :: e in l.effects && l.effects[e].inst == inst && l.effects[e].time.day == today
  }

  ghost predicate NeedsTrigger(l: State, today: Day, swap: Cid) {
    swap in l.swaps && !EffectExistsFor(l, l.swaps[swap].inst, today)
  }

  ghost predicate EventFor(l: State, today: Day, ev: Cid) {
    ev in l.events && l.events[ev] == today
  }

  /** What the tick may send, given the ledger `l` it read its swaps from and the ledger `now`. */
  ghost predicate StepOk(l: State, now: State, today: Day, c: Call) {
    match c
    case CreateFixingEvent(d) => d == today && forall ev :: !EventFor(now, today, ev)
    case Trigger(s, ev) => NeedsTrigger(l, today, s) && EventFor(now, today, ev)
    case SettleNet(_, _, _) => false
    case Mature(_, _, _) => false
  }

  ghost predicate TriggerOk(l: State, today: Day, sent: seq<Exercise>) {
    && (forall i :: 0 <= i < |sent| ==> StepOk(l, Replay(l, sent[..i]), today, sent[i].call))
    && (forall i, j :: 0 <= i < j < |sent| && sent[i].call.Trigger? && sent[j].call.Trigger? ==>
          sent[i].call.swap != sent[j].call.swap)
  }

  ghost predicate Fires(x: Exercise, swap: Cid) {
    x.call.Trigger? && x.call.swap == swap && x.outcome.Done?
  }

  ghost predicate Triggered(sent: seq<Exercise>, swap: Cid) {
    exists i :: 0 <= i < |sent| && Fires(sent[i], swap)
  }

  ghost predicate TriggerComplete(l: State, today: Day, sent: seq<Exercise>) {
    forall s :: NeedsTrigger(l, today, s) ==> Triggered(sent, s)
  }

  function CountFired(sent: seq<Exercise>): nat {
    if sent == [] then 0
    else
      var x := sent[|sent| - 1];
      CountFired(sent[..|sent| - 1]) + (if x.call.Trigger? && x.outcome.Done? then 1 else 0)
  }

  ghost predicate TriggerReport(l: State, today: Day, sent: seq<Exercise>, r: TickResult) {
    && r.fired == CountFired(sent)
    && r.fired + r.skipped + |r.errors| == |l.swaps|
    && (forall s :: NeedsTrigger(l, today, s) ==> Triggered(sent, s) || OnSwap(s) in r.errors)
    && (r.errors == [] ==> TriggerComplete(l, today, sent) && AllDone(sent))
  }

  // ----- The tick -----

  predicate EffectInRows(effects: seq<Row<Effect>>, inst: InstrumentId, today: Day) {
    exists e :: e in effects && e.payload.inst == inst && e.payload.time.day == today
  }

  lemma EffectRowsAgree(l: State, effects: seq<Row<Effect>>, inst: InstrumentId, today: Day)
    requires Lists(effects, l.effects)
    ensures EffectInRows(effects, inst, today) == EffectExistsFor(l, inst, today)
  {
    if EffectExistsFor(l, inst, today) {
      var e :| e in l.effects && l.effects[e].inst == inst && l.effects[e].time.day == today;
      var i :| 0 <= i < |effects| && effects[i].cid == e;
      assert effects[i] in effects;
    }
  }

  /** At most one call: the creation of the day's event on a ledger that has none. */
  ghost predicate EventStep(l: State, today: Day, sent: seq<Exercise>) {
    |sent| <= 1 && (sent != [] ==> sent[0].call.CreateFixingEvent? && StepOk(l, l, today, sent[0].call))
  }

  /** Reuse the day's fixing event, or create it. None when the query, the choice or its reply fails. */
  method EnsureFixingEventForDate(client: LedgerClient, today: Day) returns (ev: Option<Cid>, ghost sent: seq<Exercise>)
    modifies client
    ensures Sent(old(client.ledger), old(client.log), sent, client.ledger, client.log)
    ensures EventStep(old(client.ledger), today, sent)
    ensures ev.Some? ==> EventFor(client.ledger, today, ev.value)
    ensures ev.Some? ==> AllDone(sent)
  {
    sent := [];
    var rows := client.Query(client.ledger.events);
    if rows.None? { return None, []; }
    for i := 0 to |rows.value|
      invariant client.log == old(client.log) && client.ledger == old(client.ledger)
      invariant forall j :: 0 <= j < i ==> rows.value[j].payload != today
    {
      if rows.value[i].payload == today {
        return Some(rows.value[i].cid), [];
      }
    }
    var created, x := client.Exercise(CreateFixingEvent(today));
    SentOne(old(client.ledger), old(client.log), [], old(client.ledger), x);
    assert [] + [x] == [x] && old(client.log) + [] == old(client.log);
    sent := [x];
    ev := created;
  }

  /** The calls for one swap: perhaps the day's event, then the trigger. */
  ghost predicate SwapCallsOk(l: State, now: State, today: Day, swap: Cid, sent: seq<Exercise>) {
    && (forall i :: 0 <= i < |sent| ==> StepOk(l, Replay(now, sent[..i]), today, sent[i].call))
    && (forall i :: 0 <= i < |sent| && sent[i].call.Trigger? ==> sent[i].call.swap == swap && i == |sent| - 1)
  }

  lemma EventOnly(l: State, before: State, today: Day, swap: Cid, first: seq<Exercise>)
    requires EventStep(before, today, first)
    ensures SwapCallsOk(l, before, today, swap, first) && CountFired(first) == 0
  {
    if first != [] {
      assert first[..0] == [];
    }
  }

  lemma EventThenTrigger(l: State, before: State, today: Day, swap: Cid, first: seq<Exercise>, x: Exercise, ev: Cid)
    requires EventStep(before, today, first) && AllDone(first) && NeedsTrigger(l, today, swap)
    requires x.call == Trigger(swap, ev) && EventFor(Replay(before, first), today, ev)
    ensures SwapCallsOk(l, before, today, swap, first + [x])
    ensures EventFor(After(Replay(before, first), x), today, ev)
    ensures x.outcome.Done? ==> Triggered(first + [x], swap) && AllDone(first + [x])
    ensures CountFired(first + [x]) == if x.outcome.Done? then 1 else 0
  {
    var sent := first + [x];
    EventOnly(l, before, today, swap, first);
    AddEffectsKeepsEvents(Replay(before, first), x);
    assert sent[..|first|] == first && sent[|first|] == x;
    assert forall i :: 0 <= i < |first| ==> sent[..i] == first[..i] && sent[i] == first[i];
    assert x.outcome.Done? ==> Fires(sent[|first|], swap);
    hide Replay, After, NeedsTrigger;
  }

  method TriggerSwap(client: LedgerClient, ghost l: State, today: Day, swap: Cid, eventCid: Option<Cid>)
    returns (ok: bool, ev: Option<Cid>, ghost sent: seq<Exercise>)
    requires NeedsTrigger(l, today, swap)
    requires eventCid.Some? ==> EventFor(client.ledger, today, eventCid.value)
    modifies client
    ensures Sent(old(client.ledger), old(client.log), sent, client.ledger, client.log)
    ensures SwapCallsOk(l, old(client.ledger), today, swap, sent)
    ensures ev.Some? ==> EventFor(client.ledger, today, ev.value)
    ensures ok ==> Triggered(sent, swap) && AllDone(sent)
    ensures CountFired(sent) == if ok then 1 else 0
  {
    SentNone(client.ledger, client.log);
    hide SwapCallsOk, EventFor, NeedsTrigger, Triggered, PossibleRun, CountFired;
    ev, ok, sent := eventCid, false, [];
    if ev.None? {
      ev, sent := EnsureFixingEventForDate(client, today);
      EventOnly(l, old(client.ledger), today, swap, sent);
      if ev.None? { return; }
    }
    ghost var first, mid := sent, client.ledger;
    var created, x := client.Exercise(Trigger(swap, ev.value));
    SentOne(old(client.ledger), old(client.log), first, mid, x);
    EventThenTrigger(l, old(client.ledger), today, swap, first, x, ev.value);
    sent := first + [x];
    ok := created.Some?;
  }

  lemma AddEffectsKeepsEvents(l: State, x: Exercise)
    requires x.call.Trigger?
    ensures After(l, x).events == l.events
  {
  }

  /** Only the first `n` swaps have been triggered. */
  ghost predicate FromRows(swaps: seq<Row<Swap>>, n: nat, sent: seq<Exercise>)
    requires n <= |swaps|
  {
    forall i :: 0 <= i < |sent| && sent[i].call.Trigger? ==> exists k :: 0 <= k < n && swaps[k].cid == sent[i].call.swap
  }

  lemma FromRowsMore(swaps: seq<Row<Swap>>, n: nat, sent: seq<Exercise>, more: seq<Exercise>)
    requires n < |swaps| && FromRows(swaps, n, sent)
    requires forall i :: 0 <= i < |more| && more[i].call.Trigger? ==> more[i].call.swap == swaps[n].cid
    ensures FromRows(swaps, n + 1, sent + more)
  {
    var all := sent + more;
    forall i | 0 <= i < |all| && all[i].call.Trigger?
      ensures exists k :: 0 <= k < n + 1 && swaps[k].cid == all[i].call.swap
    {
      if i < |sent| {
        var k :| 0 <= k < n && swaps[k].cid == sent[i].call.swap;
      } else {
        assert swaps[n].cid == more[i - |sent|].call.swap;
      }
    }
  }

  /** Each of the first `n` swaps that needed a trigger was triggered or is in the errors. */
  ghost predicate AccountedFor(l: State, today: Day, swaps: seq<Row<Swap>>, n: nat, sent: seq<Exercise>,
                               errors: seq<ErrorContext>)
    requires n <= |swaps|
  {
    forall k :: 0 <= k < n && NeedsTrigger(l, today, swaps[k].cid) ==>
      Triggered(sent, swaps[k].cid) || OnSwap(swaps[k].cid) in errors
  }

  lemma AccountedMore(l: State, today: Day, swaps: seq<Row<Swap>>, n: nat, sent: seq<Exercise>,
                      errors: seq<ErrorContext>, more: seq<Exercise>, ok: bool)
    requires n < |swaps| && AccountedFor(l, today, swaps, n, sent, errors)
    requires ok ==> Triggered(more, swaps[n].cid)
    ensures AccountedFor(l, today, swaps, n + 1, sent + more, if ok then errors else errors + [OnSwap(swaps[n].cid)])
  {
    forall k | 0 <= k < n + 1
      ensures Triggered(sent, swaps[k].cid) || Triggered(more, swaps[k].cid) ==> Triggered(sent + more, swaps[k].cid)
    {
      TriggeredMore(sent, more, swaps[k].cid);
    }
  }

  lemma NotYetTriggered(swaps: seq<Row<Swap>>, n: nat, sent: seq<Exercise>)
    requires n < |swaps| && FromRows(swaps, n, sent)
    requires forall i, j :: 0 <= i < j < |swaps| ==> swaps[i].cid != swaps[j].cid
    ensures forall i :: 0 <= i < |sent| && sent[i].call.Trigger? ==> sent[i].call.swap != swaps[n].cid
  {
  }

  /** After the first swaps have been visited. */
  ghost predicate VisitedOk(l: State, today: Day, swaps: seq<Row<Swap>>, n: nat, sent: seq<Exercise>, r: TickResult)
    requires n <= |swaps|
  {
    && TriggerOk(l, today, sent)
    && FromRows(swaps, n, sent)
    && AccountedFor(l, today, swaps, n, sent, r.errors)
    && (r.errors == [] ==> AllDone(sent))
    && r.fired == CountFired(sent)
    && r.fired + r.skipped + |r.errors| == n
  }

  lemma TriggeredMore(a: seq<Exercise>, b: seq<Exercise>, s: Cid)
    ensures Triggered(a, s) || Triggered(b, s) ==> Triggered(a + b, s)
  {
    if i :| 0 <= i < |a| && Fires(a[i], s) {
      assert Fires((a + b)[i], s);
    }
    if i :| 0 <= i < |b| && Fires(b[i], s) {
      assert Fires((a + b)[|a| + i], s);
    }
  }

  lemma {:induction false} CountFiredConcat(a: seq<Exercise>, b: seq<Exercise>)
    ensures CountFired(a + b) == CountFired(a) + CountFired(b)
    decreases |b|
  {
    if b == [] {
      assert a + b == a;
    } else {
      assert (a + b)[..|a + b| - 1] == a + b[..|b| - 1];
      CountFiredConcat(a, b[..|b| - 1]);
    }
  }

  lemma TriggerOkMore(l: State, today: Day, a: seq<Exercise>, b: seq<Exercise>, swap: Cid)
    requires TriggerOk(l, today, a) && SwapCallsOk(l, Replay(l, a), today, swap, b)
    requires forall i :: 0 <= i < |a| && a[i].call.Trigger? ==> a[i].call.swap != swap
    ensures TriggerOk(l, today, a + b)
  {
    var all := a + b;
    forall i | 0 <= i < |all|
      ensures StepOk(l, Replay(l, all[..i]), today, all[i].call)
    {
      if i < |a| {
        assert all[..i] == a[..i];
      } else {
        assert all[..i] == a + b[..i - |a|];
        ReplayConcat(l, a, b[..i - |a|]);
      }
    }
  }

  lemma VisitedStep(l: State, today: Day, swaps: seq<Row<Swap>>, n: nat, sent: seq<Exercise>, r: TickResult,
                    more: seq<Exercise>, ok: bool)
    requires n < |swaps| && VisitedOk(l, today, swaps, n, sent, r)
    requires forall i, j :: 0 <= i < j < |swaps| ==> swaps[i].cid != swaps[j].cid
    requires SwapCallsOk(l, Replay(l, sent), today, swaps[n].cid, more)
    requires ok ==> Triggered(more, swaps[n].cid) && AllDone(more)
    requires CountFired(more) == if ok then 1 else 0
    ensures VisitedOk(l, today, swaps, n + 1, sent + more,
              if ok then r.(fired := r.fired + 1) else r.(errors := r.errors + [OnSwap(swaps[n].cid)]))
  {
    NotYetTriggered(swaps, n, sent);
    TriggerOkMore(l, today, sent, more, swaps[n].cid);
    CountFiredConcat(sent, more);
    AllDoneConcat(sent, more);
    AccountedMore(l, today, swaps, n, sent, r.errors, more, ok);
    FromRowsMore(swaps, n, sent, more);
  }

  lemma VisitedNone(l: State, today: Day, swaps: seq<Row<Swap>>)
    ensures VisitedOk(l, today, swaps, 0, [], TickResult(0, 0, []))
  {
  }

  lemma VisitedSkip(l: State, today: Day, swaps: seq<Row<Swap>>, n: nat, sent: seq<Exercise>, r: TickResult)
    requires n < |swaps| && VisitedOk(l, today, swaps, n, sent, r)
    requires swaps[n].cid in l.swaps && EffectExistsFor(l, l.swaps[swaps[n].cid].inst, today)
    ensures VisitedOk(l, today, swaps, n + 1, sent, r.(skipped := r.skipped + 1))
  {
    hide EffectExistsFor, TriggerOk, CountFired, AllDone, Triggered;
  }

  lemma NeedsOne(l: State, today: Day, swap: Cid)
    requires swap in l.swaps && !EffectExistsFor(l, l.swaps[swap].inst, today)
    ensures NeedsTrigger(l, today, swap)
  {
    hide EffectExistsFor;
  }

  method TriggerSwaps(client: LedgerClient, ghost l: State, today: Day, swaps: seq<Row<Swap>>,
                      effects: seq<Row<Effect>>)
    returns (r: TickResult, ghost sent: seq<Exercise>)
    requires l == client.ledger && Lists(swaps, l.swaps) && Lists(effects, l.effects)
    modifies client
    ensures Sent(old(client.ledger), old(client.log), sent, client.ledger, client.log)
    ensures VisitedOk(l, today, swaps, |swaps|, sent, r)
  {
    VisitedNone(l, today, swaps);
    SentNone(l, client.log);
    hide VisitedOk, EventFor, NeedsTrigger, SwapCallsOk, Triggered, PossibleRun, CountFired, AllDone, EffectExistsFor,
         EffectInRows;
    var eventCid := None;
    r, sent := TickResult(0, 0, []), [];
    for n := 0 to |swaps|
      invariant Sent(l, old(client.log), sent, client.ledger, client.log)
      invariant VisitedOk(l, today, swaps, n, sent, r)
      invariant eventCid.Some? ==> EventFor(client.ledger, today, eventCid.value)
    {
      var swap := swaps[n];
      EffectRowsAgree(l, effects, swap.payload.inst, today);
      if EffectInRows(effects, swap.payload.inst, today) {
        VisitedSkip(l, today, swaps, n, sent, r);
        r := r.(skipped := r.skipped + 1);
        continue;
      }
      NeedsOne(l, today, swap.cid);
      ghost var mid, midLog := client.ledger, client.log;
      var ok, ev, x := TriggerSwap(client, l, today, swap.cid, eventCid);
      VisitedStep(l, today, swaps, n, sent, r, x, ok);
      SentMore(l, old(client.log), sent, mid, midLog, x, client.ledger, client.log);
      eventCid, sent := ev, sent + x;
      r := if ok then r.(fired := r.fired + 1) else r.(errors := r.errors + [OnSwap(swap.cid)]);
    }
  }

  lemma VisitedReport(l: State, today: Day, swaps: seq<Row<Swap>>, sent: seq<Exercise>, r: TickResult)
    requires Lists(swaps, l.swaps) && VisitedOk(l, today, swaps, |swaps|, sent, r)
    ensures TriggerReport(l, today, sent, r)
  {
    ListsCount(swaps, l.swaps);
    forall s | NeedsTrigger(l, today, s)
      ensures Triggered(sent, s) || OnSwap(s) in r.errors
    {
      var i :| 0 <= i < |swaps| && swaps[i].cid == s;
    }
  }

  method TriggerLifecycleTick(client: LedgerClient, today: Day)
    returns (r: Result<TickResult>, ghost sent: seq<Exercise>)
    modifies client
    ensures Sent(old(client.ledger), old(client.log), sent, client.ledger, client.log)
    ensures TriggerOk(old(client.ledger), today, sent)
    ensures match r case Thrown => sent == [] case Ok(t) => TriggerReport(old(client.ledger), today, sent, t)
  {
    ghost var l := client.ledger;
    sent := [];
    var swaps := client.Query(client.ledger.swaps);
    if swaps.None? { return Thrown, []; }
    if swaps.value == [] {
      VisitedReport(l, today, [], [], TickResult(0, 0, []));
      return Ok(TickResult(0, 0, [])), [];
    }
    var effects := client.Query(client.ledger.effects);
    if effects.None? { return Thrown, []; }
    var observationsRead: bool := *;
    if !observationsRead { return Thrown, []; }
    var result;
    result, sent := TriggerSwaps(client, l, today, swaps.value, effects.value);
    VisitedReport(l, today, swaps.value, sent, result);
    r := Ok(result);
  }
}
