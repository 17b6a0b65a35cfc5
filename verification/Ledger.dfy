/**
 The part of the Canton ledger that the settlement scheduler reads and writes: CSAs, swap
 workflows, lifecycle effects, netted batches, matured swaps, fixing events and swap instruments,
 each a finite map from contract id to payload.

 A `Call` is one `exercise` the scheduler can send. `Commit` is what the choice does on chain;
 `After` adds what the network may do to the call: refuse it, commit it and lose the reply, or
 commit it and report it.
 */
module Ledger {
  import opened Options
  import opened Parties

  type Cid = nat
  type Party = string
  type InstrumentId = string
  // A civil day. ISO dates compare as text exactly as their days compare.
  type Day = int

  // An ISO timestamp split after its date prefix.
  datatype Instant = Instant(day: Day, rest: string)

  datatype Csa = Csa(partyA: Party, partyB: Party)
  datatype Swap = Swap(partyA: Party, partyB: Party, inst: InstrumentId)
  datatype Effect = Effect(inst: InstrumentId, time: Instant)
  datatype Batch = Batch(csa: Cid, settled: seq<Cid>)

  datatype Family = Irs | Cds | Ccy | Asset | Fx | Fpml
  datatype Instrument = Instrument(family: Family, id: InstrumentId,
                                   termination: Option<Day>, maturity: Option<Day>)

  datatype State = State(
    csas: map<Cid, Csa>,
    swaps: map<Cid, Swap>,
    instruments: map<Cid, Instrument>,
    effects: map<Cid, Effect>,
    batches: map<Cid, Batch>,
    matured: map<Cid, InstrumentId>,
    events: map<Cid, Day>,
    next: Cid)

  datatype Entry = Entry(swap: Cid, effects: seq<Cid>, inst: InstrumentId, reversed: bool)

  datatype Call =
    | CreateFixingEvent(date: Day)
    | Trigger(swap: Cid, event: Cid)
    | SettleNet(csa: Cid, time: Instant, entries: seq<Entry>)
    | Mature(swap: Cid, maturityDate: Day, actualMaturityDate: Day)

  // Lost: the choice committed but the caller saw an error.
  datatype Outcome = Refused | Lost | Done

  // `produced` lists the event times of the effects the lifecycle engine answered a Trigger with.
  datatype Exercise = Exercise(call: Call, outcome: Outcome, produced: seq<Instant>)

  /** A workflow belongs to a CSA's netting set in either orientation. */
  predicate Matches(s: Swap, c: Csa) {
    SamePair(s.partyA, s.partyB, c.partyA, c.partyB)
  }

  /** The effect ids some batch lists as settled. */
  function Consumed(l: State): set<Cid> {
    set b, e | b in l.batches && e in l.batches[b].settled :: e
  }

  function MaturedInstruments(l: State): set<InstrumentId> {
    set m | m in l.matured :: l.matured[m]
  }

  predicate Unsettled(l: State, e: Cid) {
    e in l.effects && e !in Consumed(l)
  }

  /** The concatenated effect lists of a netting call, in order. */
  function Flatten(entries: seq<Entry>): seq<Cid> {
    if entries == [] then [] else entries[0].effects + Flatten(entries[1..])
  }

  ghost predicate NoRepeat<T>(s: seq<T>) {
    forall i, j :: 0 <= i < j < |s| ==> s[i] != s[j]
  }

  // ----- What each choice does -----

  /** What the Daml choices assert before they commit. */
  predicate Accepts(l: State, c: Call) {
    match c
    case CreateFixingEvent(_) => true
    case Trigger(s, ev) => s in l.swaps && ev in l.events
    case SettleNet(csa, _, entries) =>
      && csa in l.csas
      && forall k :: 0 <= k < |entries| ==> EntryAccepted(l, l.csas[csa], entries[k])
    case Mature(s, due, actual) => s in l.swaps && due <= actual
  }

  predicate EntryAccepted(l: State, c: Csa, n: Entry) {
    && n.swap in l.swaps
    && Matches(l.swaps[n.swap], c)
    && n.reversed == (l.swaps[n.swap].partyA == c.partyB && l.swaps[n.swap].partyB == c.partyA)
    && forall e :: e in n.effects ==> e in l.effects
  }

  /** Adds one effect per produced time, with fresh consecutive ids. */
  function AddEffects(l: State, inst: InstrumentId, times: seq<Instant>): (r: State)
    ensures r == l.(effects := r.effects, next := r.next)
    decreases |times|
  {
    if times == [] then l
    else AddEffects(l.(effects := l.effects[l.next := Effect(inst, times[0])], next := l.next + 1),
                    inst, times[1..])
  }

  function Commit(l: State, c: Call, produced: seq<Instant>): State
    requires Accepts(l, c)
  {
    match c
    case CreateFixingEvent(d) => l.(events := l.events[l.next := d], next := l.next + 1)
    case Trigger(s, _) => AddEffects(l, l.swaps[s].inst, produced)
    case SettleNet(csa, _, entries) =>
      l.(batches := l.batches[l.next := Batch(csa, Flatten(entries))], next := l.next + 1)
    case Mature(s, _, _) =>
      l.(swaps := l.swaps - {s}, matured := l.matured[l.next := l.swaps[s].inst], next := l.next + 1)
  }

  /** A call that the ledger does not accept can only be refused. */
  predicate Possible(l: State, x: Exercise) {
    x.outcome.Refused? || Accepts(l, x.call)
  }

  function After(l: State, x: Exercise): State {
    if x.outcome.Refused? || !Accepts(l, x.call) then l else Commit(l, x.call, x.produced)
  }

  function Replay(l: State, xs: seq<Exercise>): State {
    if xs == [] then l else After(Replay(l, xs[..|xs| - 1]), xs[|xs| - 1])
  }

  ghost predicate AllDone(xs: seq<Exercise>) {
    forall i :: 0 <= i < |xs| ==> xs[i].outcome.Done?
  }

  /** Every exercise was possible at the moment it was sent. */
  ghost predicate PossibleRun(l: State, xs: seq<Exercise>) {
    forall i :: 0 <= i < |xs| ==> Possible(Replay(l, xs[..i]), xs[i])
  }

  function CountDone(xs: seq<Exercise>): nat {
    if xs == [] then 0
    else CountDone(xs[..|xs| - 1]) + (if xs[|xs| - 1].outcome.Done? then 1 else 0)
  }

  lemma ReplayAppend(l: State, xs: seq<Exercise>, x: Exercise)
    ensures Replay(l, xs + [x]) == After(Replay(l, xs), x)
    ensures CountDone(xs + [x]) == CountDone(xs) + (if x.outcome.Done? then 1 else 0)
    ensures forall i :: 0 <= i <= |xs| ==> (xs + [x])[..i] == xs[..i]
  {
    assert (xs + [x])[..|xs|] == xs;
    forall i | 0 <= i <= |xs|
      ensures (xs + [x])[..i] == xs[..i]
    {
    }
  }

  lemma AllDoneConcat(xs: seq<Exercise>, ys: seq<Exercise>)
    ensures AllDone(xs + ys) <==> AllDone(xs) && AllDone(ys)
  {
    if AllDone(xs + ys) {
      forall i | 0 <= i < |xs|
        ensures xs[i].outcome.Done?
      {
        assert (xs + ys)[i] == xs[i];
      }
      forall i | 0 <= i < |ys|
        ensures ys[i].outcome.Done?
      {
        assert (xs + ys)[|xs| + i] == ys[i];
      }
    }
  }

  lemma {:induction false} ReplayConcat(l: State, xs: seq<Exercise>, ys: seq<Exercise>)
    ensures Replay(l, xs + ys) == Replay(Replay(l, xs), ys)
    ensures CountDone(xs + ys) == CountDone(xs) + CountDone(ys)
    ensures PossibleRun(l, xs) && PossibleRun(Replay(l, xs), ys) ==> PossibleRun(l, xs + ys)
    decreases |ys|
  {
    hide After, Possible, Accepts, Commit;
    if ys == [] {
      assert xs + ys == xs;
    } else {
      var front, last := ys[..|ys| - 1], ys[|ys| - 1];
      assert ys == front + [last];
      assert xs + ys == (xs + front) + [last];
      ReplayConcat(l, xs, front);
      ReplayAppend(l, xs + front, last);
      ReplayAppend(Replay(l, xs), front, last);
      if PossibleRun(l, xs) && PossibleRun(Replay(l, xs), ys) {
        forall i | 0 <= i < |front|
          ensures Possible(Replay(Replay(l, xs), front[..i]), front[i])
        {
          assert front[..i] == ys[..i] && front[i] == ys[i];
        }
        PossibleAppend(l, xs + front, last);
      }
    }
  }

  lemma PossibleAppend(l: State, xs: seq<Exercise>, x: Exercise)
    requires PossibleRun(l, xs) && Possible(Replay(l, xs), x)
    ensures PossibleRun(l, xs + [x])
  {
    ReplayAppend(l, xs, x);
    forall i | 0 <= i < |xs + [x]|
      ensures Possible(Replay(l, (xs + [x])[..i]), (xs + [x])[i])
    {
      assert (xs + [x])[..i] == xs[..i];
    }
  }

  /** `sent` is what went through the client since the log was `before`, and the ledger shows it. */
  ghost predicate Sent(l: State, before: seq<Exercise>, sent: seq<Exercise>, now: State, log: seq<Exercise>) {
    log == before + sent && now == Replay(l, sent) && PossibleRun(l, sent)
  }

  lemma SentNone(l: State, before: seq<Exercise>)
    ensures Sent(l, before, [], l, before)
  {
    assert before + [] == before;
  }

  lemma SentOne(l: State, before: seq<Exercise>, sent: seq<Exercise>, now: State, x: Exercise)
    requires now == Replay(l, sent) && PossibleRun(l, sent) && Possible(now, x)
    ensures Sent(l, before, sent + [x], After(now, x), before + sent + [x])
    ensures CountDone(sent + [x]) == CountDone(sent) + (if x.outcome.Done? then 1 else 0)
    ensures AllDone(sent + [x]) <==> AllDone(sent) && x.outcome.Done?
  {
    ReplayAppend(l, sent, x);
    PossibleAppend(l, sent, x);
    AllDoneConcat(sent, [x]);
    assert AllDone([x]) <==> [x][0].outcome.Done?;
    assert before + (sent + [x]) == before + sent + [x];
  }

  lemma SentMore(l: State, before: seq<Exercise>, sent: seq<Exercise>, mid: State, log: seq<Exercise>,
                 more: seq<Exercise>, now: State, logNow: seq<Exercise>)
    requires Sent(l, before, sent, mid, log) && Sent(mid, log, more, now, logNow)
    ensures Sent(l, before, sent + more, now, logNow)
    ensures CountDone(sent + more) == CountDone(sent) + CountDone(more)
  {
    ReplayConcat(l, sent, more);
    hide Replay, CountDone, PossibleRun;
    assert before + (sent + more) == before + sent + more;
  }

  /** A run without its last exercise. */
  lemma FrontRun(l: State, xs: seq<Exercise>)
    requires xs != []
    ensures var front, x := xs[..|xs| - 1], xs[|xs| - 1];
            && xs == front + [x] && Replay(l, xs) == After(Replay(l, front), x)
            && (PossibleRun(l, xs) ==> PossibleRun(l, front) && Possible(Replay(l, front), x))
            && (AllDone(xs) ==> AllDone(front) && x.outcome.Done?)
  {
    var front := xs[..|xs| - 1];
    forall j | 0 <= j < |front|
      ensures front[j] == xs[j] && front[..j] == xs[..j]
    {
    }
  }

  /** The effects a Trigger adds: on the given instrument, with ids that were never used. */
  lemma {:induction false} AddEffectsShape(l: State, inst: InstrumentId, times: seq<Instant>)
    ensures var r := AddEffects(l, inst, times);
            && r.next == l.next + |times|
            && (forall e :: e in l.effects && e < l.next ==> e in r.effects && r.effects[e] == l.effects[e])
            && (forall e :: e in r.effects && e !in l.effects ==> l.next <= e < r.next)
            && (forall e :: e in r.effects && l.next <= e < r.next ==> r.effects[e].inst == inst)
            && (forall e :: e in r.effects && e < l.next ==> e in l.effects)
            && (forall e :: e in r.effects && r.next <= e ==> e in l.effects)
    decreases |times|
  {
    if times != [] {
      var m := l.(effects := l.effects[l.next := Effect(inst, times[0])], next := l.next + 1);
      AddEffectsShape(m, inst, times[1..]);
      assert m.effects[l.next].inst == inst;
    }
  }

  // ----- The ledger invariant -----

  ghost predicate Fresh(l: State) {
    && (forall e :: e in l.effects ==> e < l.next)
    && (forall b :: b in l.batches ==> b < l.next)
    && (forall m :: m in l.matured ==> m < l.next)
    && (forall v :: v in l.events ==> v < l.next)
  }

  /** Standing assumptions: one live swap per instrument, and no swap covered by two CSAs. */
  ghost predicate WellFormed(l: State) {
    && (forall s, t :: s in l.swaps && t in l.swaps && l.swaps[s].inst == l.swaps[t].inst ==> s == t)
    && (forall c, d, s :: c in l.csas && d in l.csas && s in l.swaps ==>
          Matches(l.swaps[s], l.csas[c]) && Matches(l.swaps[s], l.csas[d]) ==> c == d)
  }

  /** No effect is listed twice, in one batch or across batches, and only known effects are listed. */
  ghost predicate SettledOnce(l: State) {
    && (forall b :: b in l.batches ==> NoRepeat(l.batches[b].settled))
    && (forall b, c, e :: b in l.batches && c in l.batches ==>
          e in l.batches[b].settled && e in l.batches[c].settled ==> b == c)
    && (forall b, e :: b in l.batches && e in l.batches[b].settled ==> e in l.effects)
  }

  /** A retired instrument has no live swap, and every one of its effects is settled. */
  ghost predicate RetiredIsSettled(l: State) {
    && (forall m, s :: m in l.matured && s in l.swaps ==> l.swaps[s].inst != l.matured[m])
    && (forall m, e :: m in l.matured && e in l.effects && l.effects[e].inst == l.matured[m]
          ==> e in Consumed(l))
  }

  ghost predicate OneEventPerDate(l: State) {
    forall v, w :: v in l.events && w in l.events && l.events[v] == l.events[w] ==> v == w
  }

  ghost predicate Inv(l: State) {
    Fresh(l) && WellFormed(l) && SettledOnce(l) && RetiredIsSettled(l) && OneEventPerDate(l)
  }
}
