/**
 The settle-net tick: for every CSA, collect the unsettled effects of its netting set, bin them by
 event time, and send one SettleNet call per bin.
 */
module SettleNet {
  import opened Options
  import opened Ledger
  import opened LedgerClients

  // ----- What a tick may send, relative to the ledger it read -----

  /** `e` is an unsettled effect of a swap in the netting set of `csa`. */
  ghost predicate DueFor(l: State, csa: Cid, e: Cid)
    requires csa in l.csas
  {
    && Unsettled(l, e)
    && exists s :: s in l.swaps && Matches(l.swaps[s], l.csas[csa]) && l.swaps[s].inst == l.effects[e].inst
  }

  ghost predicate EntryOk(l: State, csa: Cid, time: Instant, n: Entry)
    requires csa in l.csas
  {
    && n.swap in l.swaps
    && Matches(l.swaps[n.swap], l.csas[csa])
    && n.inst == l.swaps[n.swap].inst
    && n.reversed == (l.swaps[n.swap].partyA != l.csas[csa].partyA)
    && n.effects != []
    && forall e :: e in n.effects ==> Unsettled(l, e) && l.effects[e] == Effect(n.inst, time)
  }

  /** One netting call: a non-empty entry per swap, at one event time, no effect twice. */
  ghost predicate CallOk(l: State, c: Call) {
    && c.SettleNet?
    && c.csa in l.csas
    && c.entries != []
    && (forall k :: 0 <= k < |c.entries| ==> EntryOk(l, c.csa, c.time, c.entries[k]))
    && (forall j, k :: 0 <= j < k < |c.entries| ==> c.entries[j].swap != c.entries[k].swap)
    && NoRepeat(Flatten(c.entries))
  }

  /** The calls of one tick: each well formed, and one call per CSA and event time. */
  ghost predicate SettleOk(l: State, sent: seq<Exercise>) {
    && (forall i :: 0 <= i < |sent| ==> CallOk(l, sent[i].call))
    && (forall i, j :: 0 <= i < j < |sent| ==>
          sent[i].call.csa != sent[j].call.csa || sent[i].call.time != sent[j].call.time)
  }

  ghost predicate Submits(x: Exercise, csa: Cid, e: Cid) {
    x.call.SettleNet? && x.call.csa == csa && e in Flatten(x.call.entries)
  }

  /** Everything due for the CSA is in one of the calls. */
  ghost predicate Covers(l: State, csa: Cid, sent: seq<Exercise>)
    requires csa in l.csas
  {
    forall e :: DueFor(l, csa, e) ==> exists i :: 0 <= i < |sent| && Submits(sent[i], csa, e)
  }

  ghost predicate SettleComplete(l: State, sent: seq<Exercise>) {
    forall csa :: csa in l.csas ==> Covers(l, csa, sent)
  }

  ghost predicate Idle(l: State, csa: Cid)
    requires csa in l.csas
  {
    forall e :: !DueFor(l, csa, e)
  }

  // ----- The row helpers of the tick -----

  type EffectRow = Row<Effect>
  type SwapRow = Row<Swap>

  function NettingSet(swaps: seq<SwapRow>, csa: Csa): seq<SwapRow> {
    if swaps == [] then []
    else (if Matches(swaps[0].payload, csa) then [swaps[0]] else []) + NettingSet(swaps[1..], csa)
  }

  lemma {:induction false} NettingSetRows(swaps: seq<SwapRow>, csa: Csa)
    ensures forall s :: s in NettingSet(swaps, csa) <==> s in swaps && Matches(s.payload, csa)
  {
    if swaps != [] {
      assert swaps == [swaps[0]] + swaps[1..];
      NettingSetRows(swaps[1..], csa);
    }
  }

  /** A later swap on the same instrument replaces an earlier one. */
  function IndexByInstrument(swaps: seq<SwapRow>): map<InstrumentId, SwapRow> {
    if swaps == [] then map[]
    else
      var last := swaps[|swaps| - 1];
      IndexByInstrument(swaps[..|swaps| - 1])[last.payload.inst := last]
  }

  lemma {:induction false} IndexRows(swaps: seq<SwapRow>)
    ensures var index := IndexByInstrument(swaps);
            && (forall i :: i in index ==> index[i] in swaps && index[i].payload.inst == i)
            && (forall s :: s in swaps ==> s.payload.inst in index)
  {
    if swaps != [] {
      assert swaps == swaps[..|swaps| - 1] + [swaps[|swaps| - 1]];
      IndexRows(swaps[..|swaps| - 1]);
    }
  }

  function UnsettledRows(effects: seq<EffectRow>, index: map<InstrumentId, SwapRow>, consumed: set<Cid>)
    : seq<EffectRow>
  {
    if effects == [] then []
    else
      var e := effects[0];
      (if e.payload.inst in index && e.cid !in consumed then [e] else [])
      + UnsettledRows(effects[1..], index, consumed)
  }

  lemma {:induction false} UnsettledRowsRows(effects: seq<EffectRow>, index: map<InstrumentId, SwapRow>,
                                             consumed: set<Cid>)
    ensures var r := UnsettledRows(effects, index, consumed);
            && (forall e :: e in r <==> e in effects && e.payload.inst in index && e.cid !in consumed)
            && (DistinctCids(effects) ==> DistinctCids(r))
  {
    if effects != [] {
      assert effects == [effects[0]] + effects[1..];
      UnsettledRowsRows(effects[1..], index, consumed);
    }
  }

  function AtTime(effects: seq<EffectRow>, t: Instant): seq<EffectRow> {
    if effects == [] then []
    else
      var n := |effects| - 1;
      AtTime(effects[..n], t) + (if effects[n].payload.time == t then [effects[n]] else [])
  }

  lemma {:induction false} AtTimeRows(effects: seq<EffectRow>, t: Instant)
    ensures forall e :: e in AtTime(effects, t) <==> e in effects && e.payload.time == t
    ensures DistinctCids(effects) ==> DistinctCids(AtTime(effects, t))
  {
    if effects != [] {
      var n := |effects| - 1;
      assert effects == effects[..n] + [effects[n]];
      AtTimeRows(effects[..n], t);
    }
  }

  /** The effect ids on one instrument, in row order. */
  function CidsOn(effects: seq<EffectRow>, inst: InstrumentId): seq<Cid> {
    if effects == [] then []
    else
      var n := |effects| - 1;
      CidsOn(effects[..n], inst) + (if effects[n].payload.inst == inst then [effects[n].cid] else [])
  }

  lemma {:induction false} CidsOnRows(effects: seq<EffectRow>, inst: InstrumentId)
    ensures forall c :: c in CidsOn(effects, inst) <==> exists e :: e in effects && e.payload.inst == inst && e.cid == c
    ensures DistinctCids(effects) ==> NoRepeat(CidsOn(effects, inst))
  {
    if effects != [] {
      var n := |effects| - 1;
      assert effects == effects[..n] + [effects[n]];
      CidsOnRows(effects[..n], inst);
      assert DistinctCids(effects) ==> effects[n].cid !in CidsOn(effects[..n], inst);
    }
  }

  ghost predicate BinsOk(order: seq<Instant>, bins: map<Instant, seq<EffectRow>>, seen: seq<EffectRow>) {
    && NoRepeat(order)
    && (forall t :: t in order <==> t in bins)
    && (forall t :: t in bins ==> bins[t] != [] && bins[t] == AtTime(seen, t))
    && (forall e :: e in seen ==> e.payload.time in bins)
  }

  method BinEffectsByTimestamp(effects: seq<EffectRow>)
    returns (order: seq<Instant>, bins: map<Instant, seq<EffectRow>>)
    ensures BinsOk(order, bins, effects)
  {
    order, bins := [], map[];
    for i := 0 to |effects|
      invariant BinsOk(order, bins, effects[..i])
    {
      var e := effects[i];
      var ts := e.payload.time;
      BinStep(order, bins, effects[..i], e);
      assert effects[..i + 1] == effects[..i] + [e];
      if ts !in bins {
        order, bins := order + [ts], bins[ts := []];
      }
      bins := bins[ts := bins[ts] + [e]];
    }
    assert effects[..|effects|] == effects;
  }

  lemma BinStep(order: seq<Instant>, bins: map<Instant, seq<EffectRow>>, seen: seq<EffectRow>, e: EffectRow)
    requires BinsOk(order, bins, seen)
    ensures var ts := e.payload.time;
            BinsOk(if ts in bins then order else order + [ts],
                   bins[ts := (if ts in bins then bins[ts] else []) + [e]], seen + [e])
  {
    var ts := e.payload.time;
    assert (seen + [e])[..|seen|] == seen;
    assert forall t :: AtTime(seen + [e], t) == AtTime(seen, t) + (if t == ts then [e] else []);
    if ts !in bins {
      AtTimeEmpty(seen, ts);
    }
  }

  lemma {:induction false} AtTimeEmpty(effects: seq<EffectRow>, t: Instant)
    requires forall e :: e in effects ==> e.payload.time != t
    ensures AtTime(effects, t) == []
  {
    if effects != [] {
      AtTimeEmpty(effects[..|effects| - 1], t);
    }
  }

  ghost predicate Indexed(index: map<InstrumentId, SwapRow>) {
    && (forall i :: i in index ==> index[i].payload.inst == i)
    && (forall i, j :: i in index && j in index && index[i].cid == index[j].cid ==> i == j)
  }

  /** `n` carries all the effects of its swap among `effects`, signed in the frame of `csaPartyA`. */
  ghost predicate Carries(n: Entry, effects: seq<EffectRow>, index: map<InstrumentId, SwapRow>, csaPartyA: Party) {
    && n.inst in index
    && n.swap == index[n.inst].cid
    && n.effects != []
    && n.effects == CidsOn(effects, n.inst)
    && n.reversed == (index[n.inst].payload.partyA != csaPartyA)
  }

  /** One entry per swap, carrying all of the swap's effects in the bin. */
  method BuildEntries(effects: seq<EffectRow>, index: map<InstrumentId, SwapRow>, csaPartyA: Party)
    returns (entries: seq<Entry>)
    requires Indexed(index)
    ensures forall k :: 0 <= k < |entries| ==> Carries(entries[k], effects, index, csaPartyA)
    ensures forall j, k :: 0 <= j < k < |entries| ==> entries[j].swap != entries[k].swap
    ensures forall e :: e in effects && e.payload.inst in index ==>
      exists k :: 0 <= k < |entries| && entries[k].inst == e.payload.inst
  {
    var order, bySwap := GroupBySwap(effects, index);
    entries := [];
    for k := 0 to |order|
      invariant |entries| == k
      invariant forall j :: 0 <= j < k ==> entries[j].swap == order[j] && Carries(entries[j], effects, index, csaPartyA)
    {
      var es := bySwap[order[k]];
      var swap := index[es[0].payload.inst];
      entries := entries + [Entry(order[k], Cids(es), swap.payload.inst, swap.payload.partyA != csaPartyA)];
    }
    forall e | e in effects && e.payload.inst in index
      ensures exists k :: 0 <= k < |entries| && entries[k].inst == e.payload.inst
    {
      var k :| 0 <= k < |order| && order[k] == index[e.payload.inst].cid;
      assert entries[k].inst == e.payload.inst;
    }
  }

  method GroupBySwap(effects: seq<EffectRow>, index: map<InstrumentId, SwapRow>)
    returns (order: seq<Cid>, bySwap: map<Cid, seq<EffectRow>>)
    requires Indexed(index)
    ensures GroupsOk(order, bySwap, effects, index)
  {
    order, bySwap := [], map[];
    assert GroupsOk(order, bySwap, effects[..0], index);
    hide GroupsOk, Indexed;
    for i := 0 to |effects|
      invariant GroupsOk(order, bySwap, effects[..i], index)
    {
      var e := effects[i];
      assert effects[..i + 1] == effects[..i] + [e];
      GroupStep(order, bySwap, effects[..i], e, index);
      if e.payload.inst in index {
        var key := index[e.payload.inst].cid;
        if key !in bySwap {
          order, bySwap := order + [key], bySwap[key := []];
        }
        bySwap := bySwap[key := bySwap[key] + [e]];
      }
    }
    assert effects[..|effects|] == effects;
  }

  function Cids(rows: seq<EffectRow>): seq<Cid> {
    seq(|rows|, i requires 0 <= i < |rows| => rows[i].cid)
  }

  /** `es` are the rows seen so far on the one instrument whose swap is `c`. */
  ghost predicate GroupOk(es: seq<EffectRow>, c: Cid, seen: seq<EffectRow>, index: map<InstrumentId, SwapRow>) {
    && es != []
    && es[0].payload.inst in index
    && index[es[0].payload.inst].cid == c
    && Cids(es) == CidsOn(seen, es[0].payload.inst)
  }

  ghost predicate GroupsOk(order: seq<Cid>, bySwap: map<Cid, seq<EffectRow>>, seen: seq<EffectRow>,
                           index: map<InstrumentId, SwapRow>) {
    && NoRepeat(order)
    && (forall c :: c in order <==> c in bySwap)
    && (forall c :: c in bySwap ==> GroupOk(bySwap[c], c, seen, index))
    && (forall e :: e in seen && e.payload.inst in index ==> index[e.payload.inst].cid in bySwap)
  }

  lemma GroupStep(order: seq<Cid>, bySwap: map<Cid, seq<EffectRow>>, seen: seq<EffectRow>, e: EffectRow,
                  index: map<InstrumentId, SwapRow>)
    requires Indexed(index)
    requires GroupsOk(order, bySwap, seen, index)
    ensures e.payload.inst !in index ==> GroupsOk(order, bySwap, seen + [e], index)
    ensures e.payload.inst in index ==>
      var key := index[e.payload.inst].cid;
      GroupsOk(if key in bySwap then order else order + [key],
               bySwap[key := (if key in bySwap then bySwap[key] else []) + [e]], seen + [e], index)
  {
    hide GroupOk;
    forall c | c in bySwap
      ensures GroupMore(bySwap[c], c, seen, e, index)
    {
      GroupOneStep(bySwap[c], c, seen, e, index);
    }
    if e.payload.inst in index {
      var key := index[e.payload.inst].cid;
      if key !in bySwap {
        GroupNew(seen, e, index);
      }
    }
  }

  ghost predicate GroupMore(es: seq<EffectRow>, c: Cid, seen: seq<EffectRow>, e: EffectRow,
                            index: map<InstrumentId, SwapRow>)
  {
    if e.payload.inst in index && index[e.payload.inst].cid == c
    then GroupOk(es + [e], c, seen + [e], index)
    else GroupOk(es, c, seen + [e], index)
  }

  lemma GroupOneStep(es: seq<EffectRow>, c: Cid, seen: seq<EffectRow>, e: EffectRow, index: map<InstrumentId, SwapRow>)
    requires Indexed(index) && GroupOk(es, c, seen, index)
    ensures GroupMore(es, c, seen, e, index)
  {
    assert (seen + [e])[..|seen|] == seen;
    assert Cids(es + [e]) == Cids(es) + [e.cid];
  }

  lemma GroupNew(seen: seq<EffectRow>, e: EffectRow, index: map<InstrumentId, SwapRow>)
    requires e.payload.inst in index && forall d :: d in seen ==> d.payload.inst != e.payload.inst
    ensures GroupOk([] + [e], index[e.payload.inst].cid, seen + [e], index)
  {
    assert (seen + [e])[..|seen|] == seen;
    CidsOnNone(seen, e.payload.inst);
  }

  lemma {:induction false} CidsOnNone(effects: seq<EffectRow>, inst: InstrumentId)
    requires forall e :: e in effects ==> e.payload.inst != inst
    ensures CidsOn(effects, inst) == []
  {
    if effects != [] {
      CidsOnNone(effects[..|effects| - 1], inst);
    }
  }

  // ----- From rows to calls -----

  /** The swaps of one CSA by instrument. */
  ghost predicate IndexOk(l: State, csa: Csa, index: map<InstrumentId, SwapRow>) {
    && Indexed(index)
    && (forall i :: i in index ==> index[i].cid in l.swaps && l.swaps[index[i].cid] == index[i].payload
                                   && Matches(index[i].payload, csa))
    && (forall s :: s in l.swaps && Matches(l.swaps[s], csa) ==> l.swaps[s].inst in index)
  }

  /** The unsettled effects on the indexed instruments. */
  ghost predicate UnsettledOk(l: State, index: map<InstrumentId, SwapRow>, unsettled: seq<EffectRow>) {
    && DistinctCids(unsettled)
    && (forall r :: r in unsettled ==> Unsettled(l, r.cid) && l.effects[r.cid] == r.payload && r.payload.inst in index)
    && (forall e :: Unsettled(l, e) && l.effects[e].inst in index ==> Row(e, l.effects[e]) in unsettled)
  }

  /** What one CSA's share of the tick has read. */
  ghost predicate Snapshot(l: State, csa: Row<Csa>, index: map<InstrumentId, SwapRow>, unsettled: seq<EffectRow>) {
    && csa.cid in l.csas && l.csas[csa.cid] == csa.payload
    && IndexOk(l, csa.payload, index)
    && UnsettledOk(l, index, unsettled)
  }

  lemma IndexSnapshot(l: State, csa: Csa, swaps: seq<SwapRow>)
    requires Lists(swaps, l.swaps)
    ensures IndexOk(l, csa, IndexByInstrument(NettingSet(swaps, csa)))
  {
    ListsMembers(swaps, l.swaps);
    var members := NettingSet(swaps, csa);
    NettingSetRows(swaps, csa);
    IndexRows(members);
    forall s | s in l.swaps && Matches(l.swaps[s], csa)
      ensures l.swaps[s].inst in IndexByInstrument(members)
    {
      assert Row(s, l.swaps[s]) in members;
    }
  }

  lemma UnsettledSnapshot(l: State, index: map<InstrumentId, SwapRow>, effects: seq<EffectRow>)
    requires Lists(effects, l.effects)
    ensures UnsettledOk(l, index, UnsettledRows(effects, index, Consumed(l)))
  {
    ListsMembers(effects, l.effects);
    UnsettledRowsRows(effects, index, Consumed(l));
  }

  lemma {:induction false} FlattenMembers(entries: seq<Entry>, e: Cid)
    ensures e in Flatten(entries) <==> exists k :: 0 <= k < |entries| && e in entries[k].effects
  {
    if entries != [] {
      FlattenMembers(entries[1..], e);
      if k :| 0 <= k < |entries| && e in entries[k].effects {
        assert k > 0 ==> e in entries[1..][k - 1].effects;
      }
      if k :| 0 <= k < |entries[1..]| && e in entries[1..][k].effects {
        assert e in entries[k + 1].effects;
      }
    }
  }

  lemma {:induction false} FlattenNoRepeat(entries: seq<Entry>)
    requires forall k :: 0 <= k < |entries| ==> NoRepeat(entries[k].effects)
    requires forall j, k, e :: 0 <= j < k < |entries| && e in entries[j].effects ==> e !in entries[k].effects
    ensures NoRepeat(Flatten(entries))
  {
    if entries != [] {
      FlattenNoRepeat(entries[1..]);
      forall e | e in entries[0].effects
        ensures e !in Flatten(entries[1..])
      {
        FlattenMembers(entries[1..], e);
      }
      ConcatNoRepeat(entries[0].effects, Flatten(entries[1..]));
    }
  }

  lemma ConcatNoRepeat<T>(a: seq<T>, b: seq<T>)
    requires NoRepeat(a) && NoRepeat(b) && forall x :: x in a ==> x !in b
    ensures NoRepeat(a + b)
  {
    forall i, j | 0 <= i < j < |a + b|
      ensures (a + b)[i] != (a + b)[j]
    {
      if i < |a| <= j {
        assert (a + b)[j] == b[j - |a|] && b[j - |a|] in b;
      }
    }
  }

  /** A bin's entries make one well-formed call that carries the whole bin. */
  lemma EntriesMakeCall(l: State, csa: Row<Csa>, index: map<InstrumentId, SwapRow>, unsettled: seq<EffectRow>,
                        t: Instant, entries: seq<Entry>)
    requires Snapshot(l, csa, index, unsettled)
    requires AtTime(unsettled, t) != []
    requires forall k :: 0 <= k < |entries| ==> Carries(entries[k], AtTime(unsettled, t), index, csa.payload.partyA)
    requires forall j, k :: 0 <= j < k < |entries| ==> entries[j].swap != entries[k].swap
    requires forall e :: e in AtTime(unsettled, t) && e.payload.inst in index ==>
      exists k :: 0 <= k < |entries| && entries[k].inst == e.payload.inst
    ensures CallOk(l, Call.SettleNet(csa.cid, t, entries))
    ensures forall r :: r in unsettled && r.payload.time == t ==> r.cid in Flatten(entries)
  {
    var bin := AtTime(unsettled, t);
    AtTimeRows(unsettled, t);
    forall k | 0 <= k < |entries|
      ensures EntryOk(l, csa.cid, t, entries[k]) && NoRepeat(entries[k].effects)
    {
      CidsOnRows(bin, entries[k].inst);
    }
    FlattenNoRepeat(entries);
    forall r | r in unsettled && r.payload.time == t
      ensures r.cid in Flatten(entries)
    {
      var k :| 0 <= k < |entries| && entries[k].inst == r.payload.inst;
      CidsOnRows(bin, entries[k].inst);
      assert r.cid in entries[k].effects;
      FlattenMembers(entries, r.cid);
    }
    assert bin[0] in bin;
  }

  // ----- The tick -----

  /** The calls of one CSA: all its own, well formed, one per event time. */
  ghost predicate CsaCallsOk(l: State, csa: Cid, sent: seq<Exercise>) {
    SettleOk(l, sent) && forall i :: 0 <= i < |sent| ==> sent[i].call.csa == csa
  }

  ghost predicate Reported(sent: seq<Exercise>, errors: seq<ErrorContext>) {
    forall i :: 0 <= i < |sent| && sent[i].call.SettleNet? && !sent[i].outcome.Done? ==>
      OnBin(sent[i].call.csa, sent[i].call.time) in errors
  }

  /** The first bins of `order` have been sent, one call each, and each call carries its whole bin. */
  ghost predicate BinsSent(l: State, csa: Cid, unsettled: seq<EffectRow>, order: seq<Instant>, sent: seq<Exercise>) {
    && |sent| <= |order|
    && (forall i :: 0 <= i < |sent| ==>
          CallOk(l, sent[i].call) && sent[i].call.csa == csa && sent[i].call.time == order[i])
    && (forall i, r :: 0 <= i < |sent| && r in unsettled && r.payload.time == order[i] ==>
          r.cid in Flatten(sent[i].call.entries))
  }

  lemma BinsSentStep(l: State, csa: Cid, unsettled: seq<EffectRow>, order: seq<Instant>, sent: seq<Exercise>,
                     x: Exercise)
    requires BinsSent(l, csa, unsettled, order, sent) && |sent| < |order|
    requires CallOk(l, x.call) && x.call.csa == csa && x.call.time == order[|sent|]
    requires forall r :: r in unsettled && r.payload.time == x.call.time ==> r.cid in Flatten(x.call.entries)
    ensures BinsSent(l, csa, unsettled, order, sent + [x])
  {
  }

  lemma ReportedStep(sent: seq<Exercise>, errors: seq<ErrorContext>, x: Exercise)
    requires Reported(sent, errors) && x.call.SettleNet?
    ensures x.outcome.Done? ==> Reported(sent + [x], errors)
    ensures Reported(sent + [x], errors + [OnBin(x.call.csa, x.call.time)])
  {
  }

  lemma BinsSentCover(l: State, csa: Row<Csa>, index: map<InstrumentId, SwapRow>, unsettled: seq<EffectRow>,
                      order: seq<Instant>, sent: seq<Exercise>)
    requires Snapshot(l, csa, index, unsettled)
    requires BinsSent(l, csa.cid, unsettled, order, sent) && |sent| == |order|
    requires NoRepeat(order) && forall r :: r in unsettled ==> r.payload.time in order
    ensures CsaCallsOk(l, csa.cid, sent) && Covers(l, csa.cid, sent)
  {
    forall e | DueFor(l, csa.cid, e)
      ensures exists i :: 0 <= i < |sent| && Submits(sent[i], csa.cid, e)
    {
      var r := Row(e, l.effects[e]);
      assert r in unsettled;
      var k :| 0 <= k < |order| && order[k] == r.payload.time;
      assert Submits(sent[k], csa.cid, e);
    }
  }

  method SendBin(client: LedgerClient, ghost l: State, csa: Row<Csa>, index: map<InstrumentId, SwapRow>,
                 ghost unsettled: seq<EffectRow>, t: Instant, bin: seq<EffectRow>)
    returns (created: Option<Cid>, ghost x: Exercise)
    requires Snapshot(l, csa, index, unsettled)
    requires bin == AtTime(unsettled, t) && bin != []
    modifies client
    ensures client.log == old(client.log) + [x] && client.ledger == After(old(client.ledger), x)
    ensures Possible(old(client.ledger), x)
    ensures CallOk(l, x.call) && x.call.csa == csa.cid && x.call.time == t
    ensures forall r :: r in unsettled && r.payload.time == t ==> r.cid in Flatten(x.call.entries)
    ensures created.Some? <==> x.outcome.Done?
  {
    var entries := BuildEntries(bin, index, csa.payload.partyA);
    EntriesMakeCall(l, csa, index, unsettled, t, entries);
    created, x := client.Exercise(Call.SettleNet(csa.cid, t, entries));
  }

  method FireBins(client: LedgerClient, ghost l: State, csa: Row<Csa>, index: map<InstrumentId, SwapRow>,
                  unsettled: seq<EffectRow>)
    returns (fired: nat, errors: seq<ErrorContext>, ghost sent: seq<Exercise>)
    requires Snapshot(l, csa, index, unsettled)
    modifies client
    ensures Sent(old(client.ledger), old(client.log), sent, client.ledger, client.log)
    ensures CsaCallsOk(l, csa.cid, sent) && Covers(l, csa.cid, sent)
    ensures unsettled != [] ==> sent != []
    ensures fired == CountDone(sent) && Reported(sent, errors)
    ensures AllDone(sent) ==> errors == []
  {
    hide IndexOk, UnsettledOk, CallOk, Covers, CsaCallsOk, PossibleRun, AtTime;
    SentNone(client.ledger, client.log);
    var order, bins := BinEffectsByTimestamp(unsettled);
    fired, errors, sent := 0, [], [];
    for k := 0 to |order|
      invariant Sent(old(client.ledger), old(client.log), sent, client.ledger, client.log)
      invariant |sent| == k && BinsSent(l, csa.cid, unsettled, order, sent)
      invariant fired == CountDone(sent) && Reported(sent, errors)
      invariant AllDone(sent) ==> errors == []
    {
      var t := order[k];
      var created, x := SendBin(client, l, csa, index, unsettled, t, bins[t]);
      SentOne(old(client.ledger), old(client.log), sent, Replay(old(client.ledger), sent), x);
      BinsSentStep(l, csa.cid, unsettled, order, sent, x);
      ReportedStep(sent, errors, x);
      sent := sent + [x];
      if created.Some? {
        fired := fired + 1;
      } else {
        errors := errors + [OnBin(csa.cid, t)];
      }
    }
    BinsSentCover(l, csa, index, unsettled, order, sent);
    if unsettled != [] {
      assert unsettled[0].payload.time in order;
    }
  }

  /** One CSA's try block: skip, fail on the holdings query, or send one call per bin. */
  method SettleCsa(client: LedgerClient, ghost l: State, csa: Row<Csa>, swaps: seq<SwapRow>, effects: seq<EffectRow>,
                   consumed: set<Cid>)
    returns (fired: nat, skipped: bool, errors: seq<ErrorContext>, ghost sent: seq<Exercise>)
    requires csa.cid in l.csas && l.csas[csa.cid] == csa.payload
    requires Lists(swaps, l.swaps) && Lists(effects, l.effects) && consumed == Consumed(l)
    modifies client
    ensures Sent(old(client.ledger), old(client.log), sent, client.ledger, client.log)
    ensures CsaCallsOk(l, csa.cid, sent)
    ensures skipped <==> Idle(l, csa.cid)
    ensures skipped ==> sent == [] && errors == []
    ensures Covers(l, csa.cid, sent) || (OnCsa(csa.cid) in errors && sent == [])
    ensures fired == CountDone(sent) && Reported(sent, errors)
    ensures errors == [] ==> AllDone(sent)
  {
    fired, skipped, errors, sent := 0, false, [], [];
    var csaSwaps := NettingSet(swaps, csa.payload);
    var index := IndexByInstrument(csaSwaps);
    var unsettled := UnsettledRows(effects, index, consumed);
    IndexSnapshot(l, csa.payload, swaps);
    UnsettledSnapshot(l, index, effects);
    IdleIffNoRows(l, csa, index, unsettled);
    if csaSwaps == [] || unsettled == [] {
      NoSwapsNoRows(effects, consumed);
      skipped := true;
      return;
    }
    var holdingsRead: bool := *;
    if !holdingsRead {
      errors := [OnCsa(csa.cid)];
      return;
    }
    fired, errors, sent := FireBins(client, l, csa, index, unsettled);
    NoErrorsAllDone(l, sent, errors);
  }

  lemma IdleIffNoRows(l: State, csa: Row<Csa>, index: map<InstrumentId, SwapRow>, unsettled: seq<EffectRow>)
    requires Snapshot(l, csa, index, unsettled)
    ensures Idle(l, csa.cid) <==> unsettled == []
  {
    if unsettled != [] {
      var r := unsettled[0];
      assert r in unsettled && index[r.payload.inst].cid in l.swaps;
      assert DueFor(l, csa.cid, r.cid);
    }
    if e :| DueFor(l, csa.cid, e) {
      assert Row(e, l.effects[e]) in unsettled;
    }
  }

  lemma {:induction false} NoSwapsNoRows(effects: seq<EffectRow>, consumed: set<Cid>)
    ensures UnsettledRows(effects, IndexByInstrument([]), consumed) == []
  {
    if effects != [] {
      NoSwapsNoRows(effects[1..], consumed);
    }
  }

  lemma NoErrorsAllDone(l: State, sent: seq<Exercise>, errors: seq<ErrorContext>)
    requires SettleOk(l, sent) && Reported(sent, errors)
    ensures errors == [] ==> AllDone(sent)
  {
    if errors == [] {
      forall i | 0 <= i < |sent|
        ensures sent[i].outcome.Done?
      {
        assert sent[i].call.SettleNet?;
      }
    }
  }

  /** After the first CSAs have been served. */
  ghost predicate ServedOk(l: State, csas: seq<Row<Csa>>, n: nat, sent: seq<Exercise>, errors: seq<ErrorContext>)
    requires n <= |csas| && forall i :: 0 <= i < |csas| ==> csas[i].cid in l.csas
  {
    && SettleOk(l, sent)
    && Reported(sent, errors)
    && (forall i :: 0 <= i < |sent| ==> exists k :: 0 <= k < n && csas[k].cid == sent[i].call.csa)
    && (forall k :: 0 <= k < n ==> Covers(l, csas[k].cid, sent) || OnCsa(csas[k].cid) in errors)
    && (errors == [] ==> AllDone(sent))
  }

  lemma ServedNone(l: State, csas: seq<Row<Csa>>)
    requires forall i :: 0 <= i < |csas| ==> csas[i].cid in l.csas
    ensures ServedOk(l, csas, 0, [], [])
  {
  }

  lemma ServedStep(l: State, csas: seq<Row<Csa>>, n: nat, sent: seq<Exercise>, errors: seq<ErrorContext>,
                   more: seq<Exercise>, moreErrors: seq<ErrorContext>)
    requires n < |csas| && forall i :: 0 <= i < |csas| ==> csas[i].cid in l.csas
    requires DistinctCids(csas)
    requires ServedOk(l, csas, n, sent, errors)
    requires CsaCallsOk(l, csas[n].cid, more) && Reported(more, moreErrors)
    requires Covers(l, csas[n].cid, more) || OnCsa(csas[n].cid) in moreErrors
    requires moreErrors == [] ==> AllDone(more)
    ensures ServedOk(l, csas, n + 1, sent + more, errors + moreErrors)
  {
    var all, allErrors := sent + more, errors + moreErrors;
    forall i, j | 0 <= i < j < |all|
      ensures all[i].call.csa != all[j].call.csa || all[i].call.time != all[j].call.time
    {
      if i < |sent| <= j {
        var k :| 0 <= k < n && csas[k].cid == sent[i].call.csa;
        assert more[j - |sent|].call.csa == csas[n].cid;
      }
    }
    forall k | 0 <= k < n + 1
      ensures Covers(l, csas[k].cid, all) || OnCsa(csas[k].cid) in allErrors
    {
      CoversMore(l, csas[k].cid, sent, more);
    }
    assert forall i :: 0 <= i < |more| ==> more[i].call.csa == csas[n].cid;
  }

  lemma CoversMore(l: State, csa: Cid, a: seq<Exercise>, b: seq<Exercise>)
    requires csa in l.csas
    ensures Covers(l, csa, a) || Covers(l, csa, b) ==> Covers(l, csa, a + b)
  {
    if Covers(l, csa, a) || Covers(l, csa, b) {
      forall e | DueFor(l, csa, e)
        ensures exists i :: 0 <= i < |a + b| && Submits((a + b)[i], csa, e)
      {
        if i :| 0 <= i < |a| && Submits(a[i], csa, e) {
          assert Submits((a + b)[i], csa, e);
        } else {
          var i :| 0 <= i < |b| && Submits(b[i], csa, e);
          assert Submits((a + b)[|a| + i], csa, e);
        }
      }
    }
  }

  /** The idle CSAs among the first `n` rows. */
  ghost function IdleAmong(l: State, csas: seq<Row<Csa>>, n: nat): set<Cid>
    requires n <= |csas| && forall i :: 0 <= i < |csas| ==> csas[i].cid in l.csas
  {
    set k | 0 <= k < n && Idle(l, csas[k].cid) :: csas[k].cid
  }

  lemma IdleAmongStep(l: State, csas: seq<Row<Csa>>, n: nat)
    requires n < |csas| && DistinctCids(csas) && forall i :: 0 <= i < |csas| ==> csas[i].cid in l.csas
    ensures |IdleAmong(l, csas, n + 1)| == |IdleAmong(l, csas, n)| + (if Idle(l, csas[n].cid) then 1 else 0)
  {
    var before := IdleAmong(l, csas, n);
    assert csas[n].cid !in before;
    assert IdleAmong(l, csas, n + 1) == if Idle(l, csas[n].cid) then before + {csas[n].cid} else before;
  }

  ghost function IdleCsas(l: State): set<Cid> {
    set c | c in l.csas && Idle(l, c)
  }

  lemma IdleAmongAll(l: State, csas: seq<Row<Csa>>)
    requires Lists(csas, l.csas)
    ensures IdleAmong(l, csas, |csas|) == IdleCsas(l)
  {
    forall c | c in IdleCsas(l)
      ensures c in IdleAmong(l, csas, |csas|)
    {
      var i :| 0 <= i < |csas| && csas[i].cid == c;
    }
  }

  /** The loop over the CSAs. */
  method ServeCsas(client: LedgerClient, ghost l: State, csas: seq<Row<Csa>>, swaps: seq<SwapRow>,
                   effects: seq<EffectRow>, consumed: set<Cid>)
    returns (r: TickResult, ghost sent: seq<Exercise>)
    requires Lists(csas, l.csas)
    requires Lists(swaps, l.swaps) && Lists(effects, l.effects) && consumed == Consumed(l)
    modifies client
    ensures Sent(old(client.ledger), old(client.log), sent, client.ledger, client.log)
    ensures ServedOk(l, csas, |csas|, sent, r.errors)
    ensures r.fired == CountDone(sent) && r.skipped == |IdleCsas(l)|
  {
    hide Idle, Covers, CallOk, CsaCallsOk, AllDone, PossibleRun, Reported;
    ServedNone(l, csas);
    SentNone(client.ledger, client.log);
    var fired, skipped, errors := 0, 0, [];
    sent := [];
    for n := 0 to |csas|
      invariant Sent(old(client.ledger), old(client.log), sent, client.ledger, client.log)
      invariant ServedOk(l, csas, n, sent, errors)
      invariant fired == CountDone(sent) && skipped == |IdleAmong(l, csas, n)|
    {
      ghost var mid, logMid := client.ledger, client.log;
      var f, s, e, x := SettleCsa(client, l, csas[n], swaps, effects, consumed);
      ServedStep(l, csas, n, sent, errors, x, e);
      IdleAmongStep(l, csas, n);
      SentMore(old(client.ledger), old(client.log), sent, mid, logMid, x, client.ledger, client.log);
      fired, skipped, errors, sent := fired + f, if s then skipped + 1 else skipped, errors + e, sent + x;
    }
    IdleAmongAll(l, csas);
    r := TickResult(fired, skipped, errors);
  }

  /** What a finished tick reports, against what it sent. */
  ghost predicate SettleReport(l: State, sent: seq<Exercise>, r: TickResult) {
    && r.fired == CountDone(sent)
    && r.skipped == |IdleCsas(l)|
    && Reported(sent, r.errors)
    && (forall c :: c in l.csas ==> Covers(l, c, sent) || OnCsa(c) in r.errors)
    && (r.errors == [] ==> SettleComplete(l, sent) && AllDone(sent))
  }

  lemma ServedReport(l: State, csas: seq<Row<Csa>>, sent: seq<Exercise>, r: TickResult)
    requires Lists(csas, l.csas) && ServedOk(l, csas, |csas|, sent, r.errors)
    requires r.fired == CountDone(sent) && r.skipped == |IdleCsas(l)|
    ensures SettleReport(l, sent, r)
  {
    forall c | c in l.csas
      ensures Covers(l, c, sent) || OnCsa(c) in r.errors
    {
      var i :| 0 <= i < |csas| && csas[i].cid == c;
    }
  }

  method SettleNetTick(client: LedgerClient) returns (r: Result<TickResult>, ghost sent: seq<Exercise>)
    modifies client
    ensures Sent(old(client.ledger), old(client.log), sent, client.ledger, client.log)
    ensures SettleOk(old(client.ledger), sent)
    ensures match r case Thrown => sent == [] case Ok(t) => SettleReport(old(client.ledger), sent, t)
  {
    ghost var l := client.ledger;
    sent := [];
    var csas := client.Query(client.ledger.csas);
    if csas.None? { return Thrown, []; }
    if csas.value == [] {
      ServedReport(l, [], [], TickResult(0, 0, []));
      return Ok(TickResult(0, 0, [])), [];
    }
    var swaps := client.Query(client.ledger.swaps);
    if swaps.None? { return Thrown, []; }
    var effects := client.Query(client.ledger.effects);
    if effects.None? { return Thrown, []; }
    var batches := client.Query(client.ledger.batches);
    if batches.None? { return Thrown, []; }
    var consumed := set b, e | b in batches.value && e in b.payload.settled :: e;
    ConsumedRows(l, batches.value);
    var result;
    result, sent := ServeCsas(client, l, csas.value, swaps.value, effects.value, consumed);
    ServedReport(l, csas.value, sent, result);
    r := Ok(result);
  }
}
