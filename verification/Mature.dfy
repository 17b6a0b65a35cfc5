/**
 The mature tick: retire every live swap whose instrument has reached its maturity date and has no
 unsettled effect.
 */
module Maturing {
  import opened Options
  import opened Ledger
  import opened LedgerClients

  /** The schedule's termination date, else the top-level maturity date. */
  function MaturityOf(i: Instrument): Option<Day> {
    if i.termination.Some? then i.termination else i.maturity
  }

  /** `d` is a maturity date the scheduler can read for the instrument; FpML instruments give none. */
  ghost predicate KnownMaturity(l: State, id: InstrumentId, d: Day) {
    exists i :: i in l.instruments && HasMaturity(l.instruments[i], id, d)
  }

  predicate HasMaturity(i: Instrument, id: InstrumentId, d: Day) {
    !i.family.Fpml? && i.id == id && MaturityOf(i) == Some(d)
  }

  ghost predicate AllSettled(l: State, inst: InstrumentId) {
    forall e :: e in l.effects && l.effects[e].inst == inst ==> e in Consumed(l)
  }

  /** The swap may be retired on the reading of its maturity date as `d`. */
  ghost predicate Ripe(l: State, today: Day, swap: Cid, d: Day) {
    && swap in l.swaps
    && l.swaps[swap].inst !in MaturedInstruments(l)
    && KnownMaturity(l, l.swaps[swap].inst, d)
    && d <= today
    && AllSettled(l, l.swaps[swap].inst)
  }

  ghost predicate MatureOk(l: State, today: Day, sent: seq<Exercise>) {
    && (forall i :: 0 <= i < |sent| ==>
          var c := sent[i].call;
          c.Mature? && c.actualMaturityDate == today && Ripe(l, today, c.swap, c.maturityDate))
    && (forall i, j :: 0 <= i < j < |sent| ==> sent[i].call.swap != sent[j].call.swap)
  }

  /** Every reading of the maturity date, and there is one, says the swap is due, and nothing holds it back. */
  ghost predicate MustRetire(l: State, today: Day, swap: Cid) {
    && swap in l.swaps
    && l.swaps[swap].inst !in MaturedInstruments(l)
    && AllSettled(l, l.swaps[swap].inst)
    && (exists d :: KnownMaturity(l, l.swaps[swap].inst, d))
    && (forall d :: KnownMaturity(l, l.swaps[swap].inst, d) ==> d <= today)
  }

  ghost predicate Retires(x: Exercise, swap: Cid) {
    x.call.Mature? && x.call.swap == swap
  }

  ghost predicate SentFor(sent: seq<Exercise>, swap: Cid) {
    exists i :: 0 <= i < |sent| && Retires(sent[i], swap)
  }

  ghost predicate MatureComplete(l: State, today: Day, sent: seq<Exercise>) {
    forall s :: MustRetire(l, today, s) ==> SentFor(sent, s)
  }

  ghost predicate MatureReport(l: State, today: Day, sent: seq<Exercise>, r: TickResult) {
    && r.fired == CountDone(sent)
    && r.fired + r.skipped + |r.errors| == |l.swaps|
    && MatureComplete(l, today, sent)
    && (forall i :: 0 <= i < |sent| && sent[i].call.Mature? && !sent[i].outcome.Done? ==>
          OnSwap(sent[i].call.swap) in r.errors)
    && (r.errors == [] ==> AllDone(sent))
  }

  // ----- Reading the maturity dates -----

  function OfFamily(m: map<Cid, Instrument>, f: Family): map<Cid, Instrument> {
    map c | c in m && m[c].family == f :: m[c]
  }

  /** `m` reads instruments of `l` only, and none of those in `done` with a date is missing. */
  ghost predicate DatesOk(l: State, done: set<Cid>, m: map<InstrumentId, Day>) {
    && (forall id :: id in m ==> KnownMaturity(l, id, m[id]))
    && (forall c, id, d :: c in done && c in l.instruments && HasMaturity(l.instruments[c], id, d) ==> id in m)
  }

  method AddRows(ghost l: State, ghost done: set<Cid>, m: map<InstrumentId, Day>, f: Family, rows: seq<Row<Instrument>>)
    returns (r: map<InstrumentId, Day>)
    requires !f.Fpml? && Lists(rows, OfFamily(l.instruments, f)) && DatesOk(l, done, m)
    ensures DatesOk(l, done + OfFamily(l.instruments, f).Keys, r)
  {
    r := m;
    ghost var seen: set<Cid> := {};
    for i := 0 to |rows|
      invariant seen == set k | 0 <= k < i :: rows[k].cid
      invariant DatesOk(l, done + seen, r)
    {
      var inst := rows[i].payload;
      var maturity := MaturityOf(inst);
      if maturity.Some? {
        assert HasMaturity(l.instruments[rows[i].cid], inst.id, maturity.value);
        r := r[inst.id := maturity.value];
      }
      seen := seen + {rows[i].cid};
    }
    assert seen == OfFamily(l.instruments, f).Keys;
  }

  /** Instrument id to maturity date over the five families that carry one; a later row overrides. */
  method FetchAllMaturityDates(client: LedgerClient) returns (r: Option<map<InstrumentId, Day>>)
    ensures r.Some? ==> DatesOk(client.ledger, client.ledger.instruments.Keys, r.value)
  {
    var families := [Irs, Cds, Ccy, Asset, Fx];
    var results: seq<seq<Row<Instrument>>> := [];
    for i := 0 to |families|
      invariant |results| == i
      invariant forall k :: 0 <= k < i ==> Lists(results[k], OfFamily(client.ledger.instruments, families[k]))
    {
      var rows := client.Query(OfFamily(client.ledger.instruments, families[i]));
      if rows.None? { return None; }
      results := results + [rows.value];
    }
    var m: map<InstrumentId, Day> := map[];
    ghost var done: set<Cid> := {};
    for i := 0 to |families|
      invariant DatesOk(client.ledger, done, m)
      invariant forall c, k :: 0 <= k < i && c in OfFamily(client.ledger.instruments, families[k]) ==> c in done
    {
      m := AddRows(client.ledger, done, m, families[i], results[i]);
      done := done + OfFamily(client.ledger.instruments, families[i]).Keys;
    }
    forall c, id, d | c in client.ledger.instruments && HasMaturity(client.ledger.instruments[c], id, d)
      ensures id in m
    {
      var f := client.ledger.instruments[c].family;
      var k := match f case Irs => 0 case Cds => 1 case Ccy => 2 case Asset => 3 case _ => 4;
      assert families[k] == f && c in OfFamily(client.ledger.instruments, families[k]);
    }
    r := Some(m);
  }

  // ----- The tick -----

  /** What has been sent for the first swaps. */
  ghost predicate SweptCalls(l: State, today: Day, swaps: seq<Row<Swap>>, n: nat, sent: seq<Exercise>)
    requires n <= |swaps|
  {
    && MatureOk(l, today, sent)
    && (forall i :: 0 <= i < |sent| ==> exists k :: 0 <= k < n && swaps[k].cid == sent[i].call.swap)
    && (forall k :: 0 <= k < n && MustRetire(l, today, swaps[k].cid) ==> SentFor(sent, swaps[k].cid))
  }

  /** What has been counted and reported for them. */
  ghost predicate SweptCounts(n: nat, sent: seq<Exercise>, r: TickResult)
    requires forall i :: 0 <= i < |sent| ==> sent[i].call.Mature?
  {
    && (forall i :: 0 <= i < |sent| && !sent[i].outcome.Done? ==> OnSwap(sent[i].call.swap) in r.errors)
    && (r.errors == [] ==> AllDone(sent))
    && r.fired == CountDone(sent)
    && r.fired + r.skipped + |r.errors| == n
  }

  ghost predicate SweptOk(l: State, today: Day, swaps: seq<Row<Swap>>, n: nat, sent: seq<Exercise>, r: TickResult)
    requires n <= |swaps|
  {
    SweptCalls(l, today, swaps, n, sent) && SweptCounts(n, sent, r)
  }

  lemma SentForMore(sent: seq<Exercise>, x: Exercise, swap: Cid)
    ensures SentFor(sent, swap) || Retires(x, swap) ==> SentFor(sent + [x], swap)
  {
    if i :| 0 <= i < |sent| && Retires(sent[i], swap) {
      assert Retires((sent + [x])[i], swap);
    }
    assert (sent + [x])[|sent|] == x;
  }

  lemma SweptCallsStep(l: State, today: Day, swaps: seq<Row<Swap>>, n: nat, sent: seq<Exercise>, x: Exercise)
    requires n < |swaps| && SweptCalls(l, today, swaps, n, sent)
    requires forall i, j :: 0 <= i < j < |swaps| ==> swaps[i].cid != swaps[j].cid
    requires x.call.Mature? && x.call.swap == swaps[n].cid && x.call.actualMaturityDate == today
    requires Ripe(l, today, x.call.swap, x.call.maturityDate)
    ensures SweptCalls(l, today, swaps, n + 1, sent + [x])
  {
    hide Ripe, MustRetire, SentFor;
    var all := sent + [x];
    forall i | 0 <= i < |sent|
      ensures all[i] == sent[i] && sent[i].call.swap != swaps[n].cid
    {
      var k :| 0 <= k < n && swaps[k].cid == sent[i].call.swap;
    }
    forall k | 0 <= k < n + 1
      ensures SentFor(sent, swaps[k].cid) || Retires(x, swaps[k].cid) ==> SentFor(all, swaps[k].cid)
    {
      SentForMore(sent, x, swaps[k].cid);
    }
  }

  lemma SweptCountsStep(l: State, n: nat, sent: seq<Exercise>, r: TickResult, x: Exercise)
    requires x.call.Mature? && forall i :: 0 <= i < |sent| ==> sent[i].call.Mature?
    requires SweptCounts(n, sent, r)
    ensures SweptCounts(n + 1, sent + [x],
              if x.outcome.Done? then r.(fired := r.fired + 1) else r.(errors := r.errors + [OnSwap(x.call.swap)]))
  {
    AllDoneConcat(sent, [x]);
    ReplayAppend(l, sent, x);
    assert AllDone([x]) <==> [x][0].outcome.Done?;
    hide AllDone, CountDone;
  }

  lemma SweptStep(l: State, today: Day, swaps: seq<Row<Swap>>, n: nat, sent: seq<Exercise>, r: TickResult, x: Exercise)
    requires n < |swaps| && SweptOk(l, today, swaps, n, sent, r)
    requires forall i, j :: 0 <= i < j < |swaps| ==> swaps[i].cid != swaps[j].cid
    requires x.call.Mature? && x.call.swap == swaps[n].cid && x.call.actualMaturityDate == today
    requires Ripe(l, today, x.call.swap, x.call.maturityDate)
    ensures SweptOk(l, today, swaps, n + 1, sent + [x],
              if x.outcome.Done? then r.(fired := r.fired + 1) else r.(errors := r.errors + [OnSwap(swaps[n].cid)]))
  {
    hide SweptCalls, SweptCounts, Ripe;
    CallsAreMature(l, today, swaps, n, sent);
    SweptCallsStep(l, today, swaps, n, sent, x);
    SweptCountsStep(l, n, sent, r, x);
  }

  lemma CallsAreMature(l: State, today: Day, swaps: seq<Row<Swap>>, n: nat, sent: seq<Exercise>)
    requires n <= |swaps| && SweptCalls(l, today, swaps, n, sent)
    ensures forall i :: 0 <= i < |sent| ==> sent[i].call.Mature?
  {
  }

  datatype Visit = Skipped | Fired | Failed

  /** One swap's try block. */
  method MatureSwap(client: LedgerClient, ghost l: State, today: Day, swap: Row<Swap>, matured: set<InstrumentId>,
                    effects: seq<Row<Effect>>, consumed: set<Cid>, maturityByInst: map<InstrumentId, Day>)
    returns (v: Visit, ghost x: Exercise)
    requires swap.cid in l.swaps && l.swaps[swap.cid] == swap.payload
    requires Lists(effects, l.effects) && matured == MaturedInstruments(l) && consumed == Consumed(l)
    requires DatesOk(l, l.instruments.Keys, maturityByInst)
    modifies client
    ensures v.Skipped? ==> client.ledger == old(client.ledger) && client.log == old(client.log)
    ensures v.Skipped? ==> !MustRetire(l, today, swap.cid)
    ensures !v.Skipped? ==>
      && client.log == old(client.log) + [x] && client.ledger == After(old(client.ledger), x)
      && Possible(old(client.ledger), x) && (x.outcome.Done? <==> v.Fired?)
      && x.call.Mature? && x.call.swap == swap.cid && x.call.actualMaturityDate == today
      && Ripe(l, today, x.call.swap, x.call.maturityDate)
  {
    v, x := Skipped, *;
    var inst := swap.payload.inst;
    if inst in matured { return; }
    if inst !in maturityByInst || maturityByInst[inst] > today { return; }
    var hasUnsettled := exists e :: e in effects && e.payload.inst == inst && e.cid !in consumed;
    SettledRows(l, effects, inst);
    if hasUnsettled { return; }
    var created;
    created, x := client.Exercise(Mature(swap.cid, maturityByInst[inst], today));
    v := if created.Some? then Fired else Failed;
  }

  method Sweep(client: LedgerClient, ghost l: State, today: Day, swaps: seq<Row<Swap>>, matured: set<InstrumentId>,
               effects: seq<Row<Effect>>, consumed: set<Cid>, maturityByInst: map<InstrumentId, Day>)
    returns (r: TickResult, ghost sent: seq<Exercise>)
    requires Lists(swaps, l.swaps) && Lists(effects, l.effects)
    requires matured == MaturedInstruments(l) && consumed == Consumed(l)
    requires DatesOk(l, l.instruments.Keys, maturityByInst)
    modifies client
    ensures Sent(old(client.ledger), old(client.log), sent, client.ledger, client.log)
    ensures SweptOk(l, today, swaps, |swaps|, sent, r)
  {
    r, sent := TickResult(0, 0, []), [];
    for n := 0 to |swaps|
      invariant Sent(old(client.ledger), old(client.log), sent, client.ledger, client.log)
      invariant SweptOk(l, today, swaps, n, sent, r)
    {
      var v, x := MatureSwap(client, l, today, swaps[n], matured, effects, consumed, maturityByInst);
      if v.Skipped? {
        SweptSkip(l, today, swaps, n, sent, r);
        r := r.(skipped := r.skipped + 1);
      } else {
        SweptStep(l, today, swaps, n, sent, r, x);
        SentOne(old(client.ledger), old(client.log), sent, Replay(old(client.ledger), sent), x);
        sent := sent + [x];
        r := if v.Fired? then r.(fired := r.fired + 1) else r.(errors := r.errors + [OnSwap(swaps[n].cid)]);
      }
    }
  }

  lemma SweptSkip(l: State, today: Day, swaps: seq<Row<Swap>>, n: nat, sent: seq<Exercise>, r: TickResult)
    requires n < |swaps| && SweptOk(l, today, swaps, n, sent, r) && !MustRetire(l, today, swaps[n].cid)
    ensures SweptOk(l, today, swaps, n + 1, sent, r.(skipped := r.skipped + 1))
  {
  }

  lemma SettledRows(l: State, effects: seq<Row<Effect>>, inst: InstrumentId)
    requires Lists(effects, l.effects)
    ensures AllSettled(l, inst) <==> !exists e :: e in effects && e.payload.inst == inst && e.cid !in Consumed(l)
  {
    forall e | e in l.effects && l.effects[e].inst == inst
      ensures Row(e, l.effects[e]) in effects
    {
      var i :| 0 <= i < |effects| && effects[i].cid == e;
      assert effects[i] == Row(e, l.effects[e]);
    }
  }

  lemma MaturedRows(l: State, matured: seq<Row<InstrumentId>>)
    requires Lists(matured, l.matured)
    ensures (set m | m in matured :: m.payload) == MaturedInstruments(l)
  {
    ListsMembers(matured, l.matured);
    var read := set m | m in matured :: m.payload;
    forall inst | inst in MaturedInstruments(l)
      ensures inst in read
    {
      var m :| m in l.matured && l.matured[m] == inst;
      assert Row(m, inst) in matured;
    }
    forall inst | inst in read
      ensures inst in MaturedInstruments(l)
    {
      var row :| row in matured && row.payload == inst;
      assert row.cid in l.matured;
    }
  }

  method MatureTick(client: LedgerClient, today: Day) returns (r: Result<TickResult>, ghost sent: seq<Exercise>)
    modifies client
    ensures Sent(old(client.ledger), old(client.log), sent, client.ledger, client.log)
    ensures MatureOk(old(client.ledger), today, sent)
    ensures match r case Thrown => sent == [] case Ok(t) => MatureReport(old(client.ledger), today, sent, t)
  {
    ghost var l := client.ledger;
    sent := [];
    var swaps := client.Query(client.ledger.swaps);
    if swaps.None? { return Thrown, []; }
    if swaps.value == [] {
      SweptReport(l, today, [], [], TickResult(0, 0, []));
      return Ok(TickResult(0, 0, [])), [];
    }
    var matured := client.Query(client.ledger.matured);
    if matured.None? { return Thrown, []; }
    var effects := client.Query(client.ledger.effects);
    if effects.None? { return Thrown, []; }
    var batches := client.Query(client.ledger.batches);
    if batches.None? { return Thrown, []; }
    var consumed := set b, e | b in batches.value && e in b.payload.settled :: e;
    var maturityByInst := FetchAllMaturityDates(client);
    if maturityByInst.None? { return Thrown, []; }
    var maturedInstIds := set m | m in matured.value :: m.payload;
    MaturedRows(l, matured.value);
    ConsumedRows(l, batches.value);
    var result;
    result, sent := Sweep(client, l, today, swaps.value, maturedInstIds, effects.value, consumed, maturityByInst.value);
    SweptReport(l, today, swaps.value, sent, result);
    r := Ok(result);
  }

  lemma SweptReport(l: State, today: Day, swaps: seq<Row<Swap>>, sent: seq<Exercise>, r: TickResult)
    requires Lists(swaps, l.swaps) && SweptOk(l, today, swaps, |swaps|, sent, r)
    ensures MatureReport(l, today, sent, r)
  {
    ListsCount(swaps, l.swaps);
    forall s | MustRetire(l, today, s)
      ensures SentFor(sent, s)
    {
      var i :| 0 <= i < |swaps| && swaps[i].cid == s;
    }
  }
}
