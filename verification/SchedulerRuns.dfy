/**
 Safety of the settlement scheduler over whole runs. The ticks keep no state of their own, so every
 claim is about the ledger: what one accepted call keeps, what the calls of one tick keep even though
 they were planned on the snapshot read at its start, and what any run of ticks keeps.
 */
module SchedulerRuns {
  import opened Ledger
  import opened SettleNet
  import opened TriggerLifecycle
  import opened Maturing

  // ----- One call -----

  /** When a call may be sent without breaking the ledger invariant. */
  ghost predicate SafeCall(l: State, c: Call) {
    match c
    case CreateFixingEvent(d) => forall ev :: !EventFor(l, d, ev)
    case Trigger(_, _) => true
    case SettleNet(_, _, entries) => NoRepeat(Flatten(entries)) && forall e :: e in Flatten(entries) ==> Unsettled(l, e)
    case Mature(s, _, _) => s in l.swaps ==> AllSettled(l, l.swaps[s].inst)
  }

  /** Batches, retirements and fixing events are never lost, effects never change. */
  ghost predicate Grows(l: State, m: State) {
    && l.next <= m.next
    && (forall e :: e in l.effects ==> e in m.effects && m.effects[e] == l.effects[e])
    && (forall b :: b in l.batches ==> b in m.batches && m.batches[b] == l.batches[b])
    && (forall x :: x in l.matured ==> x in m.matured && m.matured[x] == l.matured[x])
    && (forall v :: v in l.events ==> v in m.events && m.events[v] == l.events[v])
  }

  lemma GrowsTransitive(l: State, m: State, n: State)
    requires Grows(l, m) && Grows(m, n)
    ensures Grows(l, n)
  {
  }

  lemma ConsumedGrows(l: State, m: State)
    requires Grows(l, m)
    ensures Consumed(l) <= Consumed(m)
  {
    forall e | e in Consumed(l)
      ensures e in Consumed(m)
    {
      var b :| b in l.batches && e in l.batches[b].settled;
      assert e in m.batches[b].settled;
    }
  }

  lemma GrowsReflexive(l: State)
    ensures Grows(l, l)
  {
  }

  lemma CreateGrows(l: State, d: Day)
    requires Fresh(l)
    ensures var m := Commit(l, CreateFixingEvent(d), []); Fresh(m) && Grows(l, m)
  {
  }

  lemma CreateKeeps(l: State, d: Day)
    requires Inv(l) && forall ev :: !EventFor(l, d, ev)
    ensures var m := Commit(l, CreateFixingEvent(d), []); Inv(m) && Grows(l, m)
  {
    hide WellFormed, SettledOnce, RetiredIsSettled, OneEventPerDate, Fresh, Grows, Consumed, EventFor;
    var m := Commit(l, CreateFixingEvent(d), []);
    CreateGrows(l, d);
    SettledFrame(l, m);
    RetiredFrame(l, m);
    FreshEvent(l, d);
    WellFormedFrame(l, m);
  }

  lemma WellFormedFrame(l: State, m: State)
    requires m.csas == l.csas && m.swaps == l.swaps
    ensures WellFormed(l) ==> WellFormed(m)
  {
  }

  lemma RetiredFrame(l: State, m: State)
    requires m.swaps == l.swaps && m.matured == l.matured && m.effects == l.effects && m.batches == l.batches
    ensures RetiredIsSettled(l) ==> RetiredIsSettled(m)
  {
    assert Consumed(m) == Consumed(l);
  }

  lemma FreshEvent(l: State, d: Day)
    requires OneEventPerDate(l) && forall ev :: !EventFor(l, d, ev)
    ensures OneEventPerDate(l.(events := l.events[l.next := d], next := l.next + 1))
  {
    forall v | v in l.events
      ensures l.events[v] != d
    {
      assert !EventFor(l, d, v);
    }
  }

  lemma SettledFrame(l: State, m: State)
    requires m.batches == l.batches && l.effects.Keys <= m.effects.Keys
    ensures Consumed(m) == Consumed(l)
    ensures SettledOnce(l) ==> SettledOnce(m)
  {
  }

  lemma TriggerKeeps(l: State, s: Cid, ev: Cid, times: seq<Instant>)
    requires Inv(l) && s in l.swaps && ev in l.events
    ensures var m := Commit(l, Trigger(s, ev), times); Inv(m) && Grows(l, m)
  {
    var inst := l.swaps[s].inst;
    var m := AddEffects(l, inst, times);
    AddEffectsShape(l, inst, times);
    assert Grows(l, m);
    SettledFrame(l, m);
  }

  lemma SettleGrows(l: State, csa: Cid, t: Instant, entries: seq<Entry>)
    requires Fresh(l) && Accepts(l, Call.SettleNet(csa, t, entries))
    ensures var m := Commit(l, Call.SettleNet(csa, t, entries), []);
            Grows(l, m) && Fresh(m) && Consumed(m) == Consumed(l) + set e | e in Flatten(entries)
  {
    var m := Commit(l, Call.SettleNet(csa, t, entries), []);
    assert m.batches[l.next].settled == Flatten(entries);
    ConsumedGrows(l, m);
    forall e | e in Consumed(m)
      ensures e in Consumed(l) || e in Flatten(entries)
    {
      var b :| b in m.batches && e in m.batches[b].settled;
      assert b != l.next ==> b in l.batches && m.batches[b] == l.batches[b];
    }
  }

  lemma SettleKeepsOnce(l: State, csa: Cid, t: Instant, entries: seq<Entry>)
    requires Fresh(l) && SettledOnce(l) && SafeCall(l, Call.SettleNet(csa, t, entries))
    requires Accepts(l, Call.SettleNet(csa, t, entries))
    ensures SettledOnce(Commit(l, Call.SettleNet(csa, t, entries), []))
  {
    var m := Commit(l, Call.SettleNet(csa, t, entries), []);
    assert forall b, e :: b in l.batches && e in l.batches[b].settled ==> e in Consumed(l);
    assert forall b :: b in m.batches ==>
                         m.batches[b] == if b == l.next then Batch(csa, Flatten(entries)) else l.batches[b];
  }

  lemma SettleKeeps(l: State, csa: Cid, t: Instant, entries: seq<Entry>)
    requires Inv(l) && SafeCall(l, Call.SettleNet(csa, t, entries)) && Accepts(l, Call.SettleNet(csa, t, entries))
    ensures var m := Commit(l, Call.SettleNet(csa, t, entries), []);
            Inv(m) && Grows(l, m) && Consumed(m) == Consumed(l) + set e | e in Flatten(entries)
  {
    SettleGrows(l, csa, t, entries);
    SettleKeepsOnce(l, csa, t, entries);
    var m := Commit(l, Call.SettleNet(csa, t, entries), []);
    hide SettledOnce, Consumed;
    assert m == l.(batches := m.batches, next := m.next);
  }

  lemma MatureKeeps(l: State, s: Cid, due: Day, actual: Day)
    requires Inv(l) && s in l.swaps && due <= actual && AllSettled(l, l.swaps[s].inst)
    ensures var m := Commit(l, Mature(s, due, actual), []); Inv(m) && Grows(l, m) && Consumed(m) == Consumed(l)
  {
  }

  /** One exercise, whatever becomes of it, keeps the invariant if the call was safe when sent. */
  lemma ExerciseKeeps(l: State, x: Exercise)
    requires Inv(l) && SafeCall(l, x.call)
    ensures Inv(After(l, x)) && Grows(l, After(l, x))
  {
    hide Inv, Grows;
    GrowsReflexive(l);
    if !x.outcome.Refused? && Accepts(l, x.call) {
      match x.call {
        case CreateFixingEvent(d) => CreateKeeps(l, d);
        case Trigger(s, ev) => TriggerKeeps(l, s, ev, x.produced);
        case SettleNet(csa, t, entries) => SettleKeeps(l, csa, t, entries);
        case Mature(s, due, actual) => MatureKeeps(l, s, due, actual);
      }
    }
  }

  // ----- The calls of one tick -----

  lemma ReplayLast(l: State, sent: seq<Exercise>)
    requires sent != []
    ensures Replay(l, sent) == After(Replay(l, sent[..|sent| - 1]), sent[|sent| - 1])
    ensures forall i :: 0 <= i < |sent| ==> sent[..|sent| - 1][..i] == sent[..i]
  {
  }

  /** A trigger tick only adds fixing events, and effects on the instruments of live swaps. */
  ghost predicate OnlyTriggered(l: State, m: State) {
    && m.swaps == l.swaps && m.csas == l.csas && m.instruments == l.instruments && m.batches == l.batches
    && m.matured == l.matured
    && forall e :: e in m.effects && e !in l.effects ==>
         exists s :: s in l.swaps && l.swaps[s].inst == m.effects[e].inst
  }

  lemma TriggeredOne(k: State, x: Exercise)
    requires x.call.CreateFixingEvent? || x.call.Trigger?
    ensures OnlyTriggered(k, After(k, x))
  {
    if x.call.Trigger? && x.call.swap in k.swaps {
      AddEffectsShape(k, k.swaps[x.call.swap].inst, x.produced);
    }
  }

  lemma TriggeredMore(l: State, k: State, m: State)
    requires OnlyTriggered(l, k) && OnlyTriggered(k, m) && Grows(k, m)
    ensures OnlyTriggered(l, m)
  {
  }

  lemma StepSafe(l: State, now: State, today: Day, c: Call)
    requires StepOk(l, now, today, c)
    ensures SafeCall(now, c) && (c.CreateFixingEvent? || c.Trigger?)
  {
  }

  lemma TriggerCallSafe(l: State, today: Day, sent: seq<Exercise>)
    requires sent != [] && TriggerOk(l, today, sent)
    ensures var front, x := sent[..|sent| - 1], sent[|sent| - 1];
            && TriggerOk(l, today, front) && SafeCall(Replay(l, front), x.call)
            && (x.call.CreateFixingEvent? || x.call.Trigger?)
  {
    ReplayLast(l, sent);
    hide Replay, NeedsTrigger, EventFor, StepOk;
    var front, x := sent[..|sent| - 1], sent[|sent| - 1];
    forall i | 0 <= i < |front|
      ensures StepOk(l, Replay(l, front[..i]), today, front[i].call)
    {
      assert front[..i] == sent[..i] && front[i] == sent[i];
    }
    assert StepOk(l, Replay(l, front), today, x.call);
    StepSafe(l, Replay(l, front), today, x.call);
  }

  lemma {:induction false} TriggerTickKeeps(l: State, today: Day, sent: seq<Exercise>)
    requires Inv(l) && TriggerOk(l, today, sent)
    ensures var m := Replay(l, sent); Inv(m) && Grows(l, m) && OnlyTriggered(l, m)
  {
    hide Inv, Grows, TriggerOk, SafeCall;
    if sent == [] {
      GrowsReflexive(l);
    } else {
      var front, x := sent[..|sent| - 1], sent[|sent| - 1];
      ReplayLast(l, sent);
      TriggerCallSafe(l, today, sent);
      TriggerTickKeeps(l, today, front);
      var k, m := Replay(l, front), Replay(l, sent);
      hide OnlyTriggered, Replay, After;
      ExerciseKeeps(k, x);
      GrowsTransitive(l, k, m);
      TriggeredOne(k, x);
      TriggeredMore(l, k, m);
    }
  }

  /** Two netting calls of one tick never share an effect, even under different CSAs. */
  lemma CallsDisjoint(l: State, a: Call, b: Call, e: Cid)
    requires Inv(l) && CallOk(l, a) && CallOk(l, b)
    requires e in Flatten(a.entries) && e in Flatten(b.entries)
    ensures a.csa == b.csa && a.time == b.time
  {
    FlattenMembers(a.entries, e);
    FlattenMembers(b.entries, e);
    var j :| 0 <= j < |a.entries| && e in a.entries[j].effects;
    var k :| 0 <= k < |b.entries| && e in b.entries[k].effects;
    assert EntryOk(l, a.csa, a.time, a.entries[j]) && EntryOk(l, b.csa, b.time, b.entries[k]);
    assert a.entries[j].swap == b.entries[k].swap;
  }

  lemma CallEffects(l: State, c: Call, e: Cid)
    requires CallOk(l, c) && e in Flatten(c.entries)
    ensures Unsettled(l, e) && l.effects[e].time == c.time && DueFor(l, c.csa, e)
  {
    FlattenMembers(c.entries, e);
    var k :| 0 <= k < |c.entries| && e in c.entries[k].effects;
    assert EntryOk(l, c.csa, c.time, c.entries[k]);
  }

  /** Whatever was settled since `l` was submitted by one of the calls. */
  ghost predicate OnlySubmitted(l: State, sent: seq<Exercise>, m: State) {
    forall e :: e in Consumed(m) && e !in Consumed(l) ==> exists i, csa :: 0 <= i < |sent| && Submits(sent[i], csa, e)
  }

  /** Safe when sent: the plan was made on `l`, but no earlier call of the tick took these effects. */
  lemma SettleCallSafe(l: State, front: seq<Exercise>, k: State, x: Exercise)
    requires Inv(l) && SettleOk(l, front + [x])
    requires k.effects == l.effects && OnlySubmitted(l, front, k)
    ensures SafeCall(k, x.call)
  {
    assert (front + [x])[|front|] == x;
    forall e | e in Flatten(x.call.entries)
      ensures Unsettled(k, e)
    {
      CallEffects(l, x.call, e);
      if e in Consumed(k) {
        var i, csa :| 0 <= i < |front| && Submits(front[i], csa, e);
        assert (front + [x])[i] == front[i];
        CallsDisjoint(l, front[i].call, x.call, e);
      }
    }
  }

  lemma {:induction false} SettleTickKeeps(l: State, sent: seq<Exercise>)
    requires Inv(l) && SettleOk(l, sent)
    ensures var m := Replay(l, sent);
            Inv(m) && Grows(l, m) && m == l.(batches := m.batches, next := m.next) && OnlySubmitted(l, sent, m)
  {
    hide Inv, Grows, EntryOk, PossibleRun, Accepts, Flatten;
    if sent == [] {
      GrowsReflexive(l);
    } else {
      var front, x := sent[..|sent| - 1], sent[|sent| - 1];
      FrontRun(l, sent);
      SettleTickKeeps(l, front);
      var k, m := Replay(l, front), Replay(l, sent);
      SettleCallSafe(l, front, k, x);
      ExerciseKeeps(k, x);
      GrowsTransitive(l, k, m);
      if !x.outcome.Refused? && Accepts(k, x.call) {
        SettleKeeps(k, x.call.csa, x.call.time, x.call.entries);
      }
      OnlySubmittedMore(l, front, k, x, m);
    }
  }

  lemma OnlySubmittedMore(l: State, front: seq<Exercise>, k: State, x: Exercise, m: State)
    requires OnlySubmitted(l, front, k) && x.call.SettleNet?
    requires forall e :: e in Consumed(m) ==> e in Consumed(k) || e in Flatten(x.call.entries)
    ensures OnlySubmitted(l, front + [x], m)
  {
    forall e | e in Consumed(m) && e !in Consumed(l)
      ensures exists i, csa :: 0 <= i < |front + [x]| && Submits((front + [x])[i], csa, e)
    {
      if e in Consumed(k) {
        var i, csa :| 0 <= i < |front| && Submits(front[i], csa, e);
        assert Submits((front + [x])[i], csa, e);
      } else {
        assert Submits((front + [x])[|front|], x.call.csa, e);
      }
    }
  }

  lemma {:induction false} MatureTickKeeps(l: State, today: Day, sent: seq<Exercise>)
    requires Inv(l) && MatureOk(l, today, sent)
    ensures var m := Replay(l, sent);
            && Inv(m) && Grows(l, m)
            && m == l.(swaps := m.swaps, matured := m.matured, next := m.next)
            && (forall s :: s in m.swaps ==> s in l.swaps && m.swaps[s] == l.swaps[s])
  {
    if sent != [] {
      var front, x := sent[..|sent| - 1], sent[|sent| - 1];
      ReplayLast(l, sent);
      assert MatureOk(l, today, front);
      MatureTickKeeps(l, today, front);
      var k, m := Replay(l, front), Replay(l, sent);
      assert Consumed(k) == Consumed(l);
      assert SafeCall(k, x.call);
      ExerciseKeeps(k, x);
      GrowsTransitive(l, k, m);
    }
  }

  // ----- Runs -----

  datatype Stage =
    | Elsewhere
    | TriggerTick(today: Day, sent: seq<Exercise>)
    | SettleTick(sent: seq<Exercise>)
    | MatureTick(today: Day, sent: seq<Exercise>)

  /** What others do between ticks: they may open, replace or archive swaps, CSAs and instruments. */
  ghost predicate EnvironmentStep(l: State, m: State) {
    && m == l.(csas := m.csas, swaps := m.swaps, instruments := m.instruments, next := m.next)
    && l.next <= m.next
    && WellFormed(m)
    && forall s :: s in m.swaps ==> m.swaps[s].inst !in MaturedInstruments(m)
  }

  /** A tick may stop after any of its calls; every prefix of a tick's calls is again a stage. */
  ghost predicate StageRel(l: State, st: Stage, m: State) {
    match st
    case Elsewhere => EnvironmentStep(l, m)
    case TriggerTick(today, sent) => TriggerOk(l, today, sent) && m == Replay(l, sent)
    case SettleTick(sent) => SettleOk(l, sent) && m == Replay(l, sent)
    case MatureTick(today, sent) => MatureOk(l, today, sent) && m == Replay(l, sent)
  }

  ghost predicate Run(states: seq<State>, stages: seq<Stage>) {
    && |states| == |stages| + 1
    && forall i :: 0 <= i < |stages| ==> StageRel(states[i], stages[i], states[i + 1])
  }

  lemma StageKeeps(l: State, st: Stage, m: State)
    requires Inv(l) && StageRel(l, st, m)
    ensures Inv(m) && Grows(l, m)
  {
    match st
    case Elsewhere => assert Consumed(m) == Consumed(l);
    case TriggerTick(today, sent) => TriggerTickKeeps(l, today, sent);
    case SettleTick(sent) => SettleTickKeeps(l, sent);
    case MatureTick(today, sent) => MatureTickKeeps(l, today, sent);
  }

  lemma {:induction false} RunKeeps(states: seq<State>, stages: seq<Stage>, i: nat, j: nat)
    requires Run(states, stages) && Inv(states[0]) && i <= j <= |stages|
    ensures Inv(states[i]) && Inv(states[j]) && Grows(states[i], states[j])
    decreases j
  {
    hide Inv, Grows, StageRel;
    if i < j {
      RunKeeps(states, stages, i, j - 1);
      StageKeeps(states[j - 1], stages[j - 1], states[j]);
      GrowsTransitive(states[i], states[j - 1], states[j]);
    } else {
      if 0 < j {
        RunKeeps(states, stages, 0, j - 1);
        StageKeeps(states[j - 1], stages[j - 1], states[j]);
      }
      GrowsReflexive(states[j]);
    }
  }

  /** Over a whole run, batches taken at any two moments never settle one effect twice. */
  lemma NoEffectSettledTwice(states: seq<State>, stages: seq<Stage>, i: nat, j: nat, b: Cid, c: Cid, p: nat, q: nat)
    requires Run(states, stages) && Inv(states[0]) && i <= j <= |stages|
    requires b in states[i].batches && c in states[j].batches
    requires p < |states[i].batches[b].settled| && q < |states[j].batches[c].settled|
    requires states[i].batches[b].settled[p] == states[j].batches[c].settled[q]
    ensures b == c && p == q
  {
    RunKeeps(states, stages, i, j);
    assert states[j].batches[b] == states[i].batches[b];
    var e := states[i].batches[b].settled[p];
    assert e in states[j].batches[b].settled && e in states[j].batches[c].settled;
  }

  /** Once an instrument is retired, in every later state it has no live swap and no unsettled effect. */
  lemma RetiredStaysSettled(states: seq<State>, stages: seq<Stage>, i: nat, j: nat, m: Cid)
    requires Run(states, stages) && Inv(states[0]) && i <= j <= |stages|
    requires m in states[i].matured
    ensures var inst := states[i].matured[m];
            && (forall e :: e in states[j].effects && states[j].effects[e].inst == inst ==> e in Consumed(states[j]))
            && (forall s :: s in states[j].swaps ==> states[j].swaps[s].inst != inst)
  {
    RunKeeps(states, stages, i, j);
  }

  /** Fixing events seen at any two moments of a run for one date are the same contract. */
  lemma OneFixingEventPerDate(states: seq<State>, stages: seq<Stage>, i: nat, j: nat, v: Cid, w: Cid)
    requires Run(states, stages) && Inv(states[0]) && i <= j <= |stages|
    requires v in states[i].events && w in states[j].events && states[i].events[v] == states[j].events[w]
    ensures v == w
  {
    RunKeeps(states, stages, i, j);
  }
}
