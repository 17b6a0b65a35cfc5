/**
 What a complete tick achieves: one settle-net tick submits exactly what is due, exactly once, and
 leaves nothing for a second one; trigger, settle-net and mature in that order retire every swap that
 has reached its maturity date.
 */
module FullTicks {
  import opened Ledger
  import opened LedgerClients
  import opened SettleNet
  import TL = TriggerLifecycle
  import M = Maturing
  import Runs = SchedulerRuns

  // ----- One settle-net tick -----

  /**
   For a CSA that was served without an error, the calls submit the unsettled effects of its netting set and nothing
   else.
   */
  lemma SubmittedExactlyDue(l: State, sent: seq<Exercise>, csa: Cid, e: Cid)
    requires SettleOk(l, sent) && csa in l.csas && Covers(l, csa, sent)
    ensures DueFor(l, csa, e) <==> exists i :: 0 <= i < |sent| && Submits(sent[i], csa, e)
  {
    if i :| 0 <= i < |sent| && Submits(sent[i], csa, e) {
      Runs.CallEffects(l, sent[i].call, e);
    }
  }

  /** No effect id occurs at two places in the calls of a tick. */
  lemma SubmittedOnce(l: State, sent: seq<Exercise>, i: nat, j: nat, p: nat, q: nat)
    requires Inv(l) && SettleOk(l, sent) && i < |sent| && j < |sent|
    requires p < |Flatten(sent[i].call.entries)| && q < |Flatten(sent[j].call.entries)|
    requires Flatten(sent[i].call.entries)[p] == Flatten(sent[j].call.entries)[q]
    ensures i == j && p == q
  {
    var e := Flatten(sent[i].call.entries)[p];
    assert e in Flatten(sent[i].call.entries) && e in Flatten(sent[j].call.entries);
    Runs.CallsDisjoint(l, sent[i].call, sent[j].call, e);
    assert NoRepeat(Flatten(sent[i].call.entries));
  }

  /** Without the one-CSA assumption a tick submits an effect in two calls exactly when two CSAs cover it. */
  lemma SubmittedTwiceIffTwoCsas(l: State, sent: seq<Exercise>, e: Cid)
    requires SettleOk(l, sent) && SettleComplete(l, sent)
    ensures (exists i, j :: 0 <= i < j < |sent| && e in Flatten(sent[i].call.entries)
                            && e in Flatten(sent[j].call.entries))
            <==> (exists c, d :: c in l.csas && d in l.csas && c != d && DueFor(l, c, e) && DueFor(l, d, e))
  {
    if i, j :| 0 <= i < j < |sent| && e in Flatten(sent[i].call.entries) && e in Flatten(sent[j].call.entries) {
      TwoCallsTwoCsas(l, sent, e, i, j);
    }
    if c, d :| c in l.csas && d in l.csas && c != d && DueFor(l, c, e) && DueFor(l, d, e) {
      TwoCsasTwoCalls(l, sent, e, c, d);
    }
  }

  lemma TwoCallsTwoCsas(l: State, sent: seq<Exercise>, e: Cid, i: nat, j: nat)
    requires SettleOk(l, sent) && i < j < |sent| && e in Flatten(sent[i].call.entries)
    requires e in Flatten(sent[j].call.entries)
    ensures var c, d := sent[i].call.csa, sent[j].call.csa;
            c in l.csas && d in l.csas && c != d && DueFor(l, c, e) && DueFor(l, d, e)
  {
    assert CallOk(l, sent[i].call) && CallOk(l, sent[j].call);
    hide DueFor, EntryOk;
    Runs.CallEffects(l, sent[i].call, e);
    Runs.CallEffects(l, sent[j].call, e);
  }

  lemma TwoCsasTwoCalls(l: State, sent: seq<Exercise>, e: Cid, c: Cid, d: Cid)
    requires SettleOk(l, sent) && SettleComplete(l, sent)
    requires c in l.csas && d in l.csas && c != d && DueFor(l, c, e) && DueFor(l, d, e)
    ensures exists i, j :: 0 <= i < j < |sent| && e in Flatten(sent[i].call.entries)
                           && e in Flatten(sent[j].call.entries)
  {
    hide DueFor, SettleOk, Flatten;
    SubmittedExactlyDue(l, sent, c, e);
    SubmittedExactlyDue(l, sent, d, e);
    var i :| 0 <= i < |sent| && Submits(sent[i], c, e);
    var j :| 0 <= j < |sent| && Submits(sent[j], d, e);
    assert i < j || j < i;
  }

  const PAIR_TIME := Instant(0, "")

  /** Two CSAs over one pair of parties, and one effect on a swap between them. */
  const TWO_CSAS := State(map[0 := Csa("A", "B"), 1 := Csa("B", "A")], map[2 := Swap("A", "B", "I")], map[],
                          map[3 := Effect("I", PAIR_TIME)], map[], map[], map[], 4)

  const BOTH_CALLS: seq<Exercise> := [Exercise(Call.SettleNet(0, PAIR_TIME, [Entry(2, [3], "I", false)]), Done, []),
                                      Exercise(Call.SettleNet(1, PAIR_TIME, [Entry(2, [3], "I", true)]), Done, [])]

  lemma BothCallsOk()
    ensures SettleOk(TWO_CSAS, BOTH_CALLS) && SettleComplete(TWO_CSAS, BOTH_CALLS) && AllDone(BOTH_CALLS)
  {
    var a, b := BOTH_CALLS[0].call.entries, BOTH_CALLS[1].call.entries;
    assert a[1..] == [] && b[1..] == [] && Flatten(a) == [3] && Flatten(b) == [3];
    assert Submits(BOTH_CALLS[0], 0, 3) && Submits(BOTH_CALLS[1], 1, 3);
  }

  /** A complete, successful tick on that ledger settles the effect in two batches. */
  lemma TwoCsasSettleTwice()
    ensures SettleOk(TWO_CSAS, BOTH_CALLS) && SettleComplete(TWO_CSAS, BOTH_CALLS) && AllDone(BOTH_CALLS)
    ensures PossibleRun(TWO_CSAS, BOTH_CALLS)
    ensures var m := Replay(TWO_CSAS, BOTH_CALLS);
            m.batches == map[4 := Batch(0, [3]), 5 := Batch(1, [3])] && !SettledOnce(m)
  {
    BothCallsOk();
    hide SettleOk, SettleComplete;
    var a, b := BOTH_CALLS[0].call.entries, BOTH_CALLS[1].call.entries;
    assert a[1..] == [] && b[1..] == [] && Flatten(a) == [3] && Flatten(b) == [3];
    var first := BOTH_CALLS[..1];
    assert first == [BOTH_CALLS[0]] && first[..0] == [] && BOTH_CALLS[..0] == [];
    var k := Replay(TWO_CSAS, first);
    assert Replay(TWO_CSAS, []) == TWO_CSAS && first[|first| - 1] == BOTH_CALLS[0];
    assert k == After(TWO_CSAS, BOTH_CALLS[0]);
    assert k == TWO_CSAS.(batches := map[4 := Batch(0, [3])], next := 5);
    assert Replay(TWO_CSAS, BOTH_CALLS) == After(k, BOTH_CALLS[1]);
    var m := Replay(TWO_CSAS, BOTH_CALLS);
    assert m == k.(batches := map[4 := Batch(0, [3]), 5 := Batch(1, [3])], next := 6);
    assert 3 in m.batches[4].settled && 3 in m.batches[5].settled;
  }

  /** The choice's own orientation checks pass exactly when the CSA is between two different parties. */
  lemma AcceptedIffTwoParties(l: State, c: Call)
    requires CallOk(l, c)
    ensures Accepts(l, c) <==> l.csas[c.csa].partyA != l.csas[c.csa].partyB
  {
    var csa := l.csas[c.csa];
    forall k | 0 <= k < |c.entries|
      ensures EntryAccepted(l, csa, c.entries[k]) <==> csa.partyA != csa.partyB
    {
      assert EntryOk(l, c.csa, c.time, c.entries[k]);
    }
    assert 0 < |c.entries| && (EntryAccepted(l, csa, c.entries[0]) <==> csa.partyA != csa.partyB);
  }

  /** The last call of a tick settles exactly its effects on top of what was settled before. */
  lemma LastCallConsumes(l: State, front: seq<Exercise>, x: Exercise)
    requires Inv(l) && SettleOk(l, front) && SettleOk(l, front + [x]) && x.call.SettleNet?
    requires Possible(Replay(l, front), x) && x.outcome.Done?
    ensures Consumed(After(Replay(l, front), x)) == Consumed(Replay(l, front)) + set e | e in Flatten(x.call.entries)
  {
    hide Inv, SettleOk, Consumed, Flatten, Replay, Runs.OnlySubmitted, Runs.Grows, Runs.SafeCall;
    Runs.SettleTickKeeps(l, front);
    var k := Replay(l, front);
    Runs.SettleCallSafe(l, front, k, x);
    Runs.SettleKeeps(k, x.call.csa, x.call.time, x.call.entries);
  }

  lemma {:induction false} SubmittedIsConsumed(l: State, sent: seq<Exercise>, i: nat, e: Cid)
    requires Inv(l) && SettleOk(l, sent) && PossibleRun(l, sent) && AllDone(sent)
    requires i < |sent| && e in Flatten(sent[i].call.entries)
    ensures e in Consumed(Replay(l, sent))
  {
    hide *;
    var n := |sent| - 1;
    var front, x := sent[..n], sent[n];
    FrontRun(l, sent);
    SettleOkFront(l, sent);
    LastCallConsumes(l, front, x);
    if i < n {
      assert front[i] == sent[i];
      SubmittedIsConsumed(l, front, i, e);
    }
  }

  lemma SettleOkFront(l: State, sent: seq<Exercise>)
    requires sent != [] && SettleOk(l, sent)
    ensures SettleOk(l, sent[..|sent| - 1]) && sent[|sent| - 1].call.SettleNet?
  {
    hide CallOk;
    assert CallOk(l, sent[|sent| - 1].call);
    CallIsSettleNet(l, sent[|sent| - 1].call);
  }

  lemma CallIsSettleNet(l: State, c: Call)
    requires CallOk(l, c)
    ensures c.SettleNet?
  {
  }

  /** After a tick whose calls all succeeded, nothing is due for any CSA. */
  lemma NothingDueAfter(l: State, sent: seq<Exercise>, csa: Cid, e: Cid)
    requires Inv(l) && SettleOk(l, sent) && PossibleRun(l, sent) && AllDone(sent) && SettleComplete(l, sent)
    requires csa in l.csas
    ensures csa in Replay(l, sent).csas && !DueFor(Replay(l, sent), csa, e)
  {
    var m := Replay(l, sent);
    Runs.SettleTickKeeps(l, sent);
    Runs.ConsumedGrows(l, m);
    if DueFor(m, csa, e) {
      assert DueFor(l, csa, e);
      var i :| 0 <= i < |sent| && Submits(sent[i], csa, e);
      SubmittedIsConsumed(l, sent, i, e);
    }
  }

  /** So an immediate second settle-net tick fires nothing. */
  lemma SecondTickFiresNothing(l: State, sent: seq<Exercise>, again: seq<Exercise>)
    requires Inv(l) && SettleOk(l, sent) && PossibleRun(l, sent) && AllDone(sent) && SettleComplete(l, sent)
    requires SettleOk(Replay(l, sent), again)
    ensures again == []
  {
    var m := Replay(l, sent);
    Runs.SettleTickKeeps(l, sent);
    if again != [] {
      var c := again[0].call;
      assert CallOk(m, c) && EntryOk(m, c.csa, c.time, c.entries[0]);
      var e := c.entries[0].effects[0];
      assert e in c.entries[0].effects;
      FlattenMembers(c.entries, e);
      Runs.CallEffects(m, c, e);
      NothingDueAfter(l, sent, c.csa, e);
    }
  }

  // ----- The full tick -----

  /** A live swap covered by a CSA whose readable maturity dates, at least one, are all reached. */
  ghost predicate Expired(l: State, today: Day, swap: Cid) {
    && swap in l.swaps
    && (exists c :: c in l.csas && Matches(l.swaps[swap], l.csas[c]))
    && (exists d :: M.KnownMaturity(l, l.swaps[swap].inst, d))
    && (forall d :: M.KnownMaturity(l, l.swaps[swap].inst, d) ==> d <= today)
  }

  lemma {:induction false} DoneRetires(l: State, today: Day, sent: seq<Exercise>, i: nat)
    requires Inv(l) && M.MatureOk(l, today, sent) && PossibleRun(l, sent) && AllDone(sent) && i < |sent|
    ensures var m, s := Replay(l, sent), sent[i].call.swap;
            s in l.swaps && s !in m.swaps && l.swaps[s].inst in MaturedInstruments(m)
  {
    hide Inv, M.MatureOk, Runs.Grows, After, MaturedInstruments, PossibleRun, AllDone, Replay;
    var n := |sent| - 1;
    var front, x := sent[..n], sent[n];
    FrontRun(l, sent);
    MatureOkFront(l, today, sent);
    Runs.MatureTickKeeps(l, today, front);
    var k := Replay(l, front);
    RetireOne(k, x);
    if i < n {
      DoneRetires(l, today, front, i);
    }
  }

  lemma MatureOkFront(l: State, today: Day, sent: seq<Exercise>)
    requires sent != [] && M.MatureOk(l, today, sent)
    ensures M.MatureOk(l, today, sent[..|sent| - 1]) && sent[|sent| - 1].call.Mature?
    ensures forall i :: 0 <= i < |sent| ==> sent[i].call.Mature?
  {
    hide M.Ripe;
  }

  lemma RetireOne(k: State, x: Exercise)
    requires Inv(k) && x.call.Mature? && x.outcome.Done? && Possible(k, x)
    ensures var m, s := After(k, x), x.call.swap;
            s in k.swaps && s !in m.swaps && k.swaps[s].inst in MaturedInstruments(m)
            && MaturedInstruments(k) <= MaturedInstruments(m) && m.swaps.Keys <= k.swaps.Keys
  {
    hide WellFormed, SettledOnce, RetiredIsSettled, OneEventPerDate;
    var m := After(k, x);
    assert m.matured[k.next] == k.swaps[x.call.swap].inst;
    forall inst | inst in MaturedInstruments(k)
      ensures inst in MaturedInstruments(m)
    {
      var r :| r in k.matured && k.matured[r] == inst;
      assert m.matured[r] == inst;
    }
  }

  lemma CoveredAllSettled(m: State, settled: seq<Exercise>, c: Cid, swap: Cid)
    requires Inv(m) && SettleOk(m, settled) && PossibleRun(m, settled) && AllDone(settled) && SettleComplete(m, settled)
    requires c in m.csas && swap in m.swaps && Matches(m.swaps[swap], m.csas[c])
    ensures var n := Replay(m, settled);
            Inv(n) && n == m.(batches := n.batches, next := n.next) && M.AllSettled(n, m.swaps[swap].inst)
  {
    var n := Replay(m, settled);
    Runs.SettleTickKeeps(m, settled);
    var inst := m.swaps[swap].inst;
    forall e | e in n.effects && n.effects[e].inst == inst
      ensures e in Consumed(n)
    {
      NothingDueAfter(m, settled, c, e);
    }
  }

  /** Whatever the trigger step created is settled by the settle step, so the swap is free to retire. */
  lemma SettledBeforeMature(l: State, today: Day, triggered: seq<Exercise>, settled: seq<Exercise>, swap: Cid)
    requires Inv(l) && TL.TriggerOk(l, today, triggered)
    requires var m := Replay(l, triggered);
             SettleOk(m, settled) && PossibleRun(m, settled) && AllDone(settled) && SettleComplete(m, settled)
    requires Expired(l, today, swap)
    ensures M.MustRetire(Replay(Replay(l, triggered), settled), today, swap)
  {
    hide Inv, SettleOk, SettleComplete, TL.TriggerOk, Runs.Grows, M.AllSettled, M.KnownMaturity;
    var m := Replay(l, triggered);
    var n := Replay(m, settled);
    Runs.TriggerTickKeeps(l, today, triggered);
    var c :| c in l.csas && Matches(l.swaps[swap], l.csas[c]);
    CoveredAllSettled(m, settled, c, swap);
    LiveNotMatured(n, swap);
    SameDates(l, n, l.swaps[swap].inst);
  }

  lemma LiveNotMatured(l: State, swap: Cid)
    requires Inv(l) && swap in l.swaps
    ensures l.swaps[swap].inst !in MaturedInstruments(l)
  {
  }

  lemma SameDates(l: State, n: State, inst: InstrumentId)
    requires n.instruments == l.instruments
    ensures forall d :: M.KnownMaturity(n, inst, d) <==> M.KnownMaturity(l, inst, d)
  {
  }

  /** Full-tick progress: if every call succeeds, every expired swap is retired in the same run. */
  lemma FullTickRetires(l: State, today: Day, triggered: seq<Exercise>, settled: seq<Exercise>, retired: seq<Exercise>,
                        swap: Cid)
    requires Inv(l) && TL.TriggerOk(l, today, triggered)
    requires var m := Replay(l, triggered);
             SettleOk(m, settled) && PossibleRun(m, settled) && AllDone(settled) && SettleComplete(m, settled)
    requires var n := Replay(Replay(l, triggered), settled);
             && M.MatureOk(n, today, retired)
             && PossibleRun(n, retired)
             && AllDone(retired)
             && M.MatureComplete(n, today, retired)
    requires Expired(l, today, swap)
    ensures var end := Replay(Replay(Replay(l, triggered), settled), retired);
            swap !in end.swaps && l.swaps[swap].inst in MaturedInstruments(end)
  {
    var m := Replay(l, triggered);
    var n := Replay(m, settled);
    Runs.TriggerTickKeeps(l, today, triggered);
    Runs.SettleTickKeeps(m, settled);
    SettledBeforeMature(l, today, triggered, settled, swap);
    var i :| 0 <= i < |retired| && M.Retires(retired[i], swap);
    DoneRetires(n, today, retired, i);
  }

  datatype FullTickResult = FullTickResult(trigger: TickResult, settleNet: TickResult, mature: TickResult)

  ghost predicate Clean(r: FullTickResult) {
    r.trigger.errors == [] && r.settleNet.errors == [] && r.mature.errors == []
  }

  /** Trigger, then settle-net, then mature. A thrown query aborts the rest. */
  method RunFullTick(client: LedgerClient, today: Day) returns (r: Result<FullTickResult>)
    modifies client
    ensures Inv(old(client.ledger)) ==> Inv(client.ledger) && Runs.Grows(old(client.ledger), client.ledger)
    ensures Inv(old(client.ledger)) && r.Ok? && Clean(r.value) ==>
      forall s :: Expired(old(client.ledger), today, s) ==>
        s !in client.ledger.swaps && old(client.ledger).swaps[s].inst in MaturedInstruments(client.ledger)
  {
    ghost var l := client.ledger;
    var trigger, t := TL.TriggerLifecycleTick(client, today);
    ghost var l1 := client.ledger;
    if trigger.Thrown? {
      Runs.GrowsReflexive(l);
      return Thrown;
    }
    TriggerStage(l, today, t);
    var settleNet, s := SettleNetTick(client);
    ghost var l2 := client.ledger;
    if settleNet.Thrown? { return Thrown; }
    SettleStage(l, l1, s);
    var mature, u := M.MatureTick(client, today);
    if mature.Thrown? { return Thrown; }
    MatureStage(l, l2, today, u);
    r := Ok(FullTickResult(trigger.value, settleNet.value, mature.value));
    if Inv(l) && Clean(r.value) {
      forall swap | Expired(l, today, swap)
        ensures swap !in client.ledger.swaps && l.swaps[swap].inst in MaturedInstruments(client.ledger)
      {
        FullTickRetires(l, today, t, s, u, swap);
      }
    }
  }

  lemma TriggerStage(l: State, today: Day, sent: seq<Exercise>)
    requires TL.TriggerOk(l, today, sent)
    ensures Inv(l) ==> Inv(Replay(l, sent)) && Runs.Grows(l, Replay(l, sent))
  {
    if Inv(l) {
      Runs.TriggerTickKeeps(l, today, sent);
    }
  }

  lemma SettleStage(l: State, m: State, sent: seq<Exercise>)
    requires SettleOk(m, sent)
    ensures Inv(m) && Runs.Grows(l, m) ==> Inv(Replay(m, sent)) && Runs.Grows(l, Replay(m, sent))
  {
    if Inv(m) && Runs.Grows(l, m) {
      Runs.SettleTickKeeps(m, sent);
      Runs.GrowsTransitive(l, m, Replay(m, sent));
    }
  }

  lemma MatureStage(l: State, m: State, today: Day, sent: seq<Exercise>)
    requires M.MatureOk(m, today, sent)
    ensures Inv(m) && Runs.Grows(l, m) ==> Inv(Replay(m, sent)) && Runs.Grows(l, Replay(m, sent))
  {
    if Inv(m) && Runs.Grows(l, m) {
      Runs.MatureTickKeeps(m, today, sent);
      Runs.GrowsTransitive(l, m, Replay(m, sent));
    }
  }
}
