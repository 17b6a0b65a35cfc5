/**
 From a Csa payload to a published mark: decoding the signed balance, the publisher's decision to
 settle, and the call signal the app shows for the same agreement.
 */
module MarkPublisher {
  import opened Numbers
  import opened Options
  import opened Margin

  datatype State = Active | MarginCallOutstanding | MarkDisputed | Escalated
  datatype Direction = DirA | DirB

  // None: the field did not arrive as an array of pairs.
  datatype Payload = Payload(threshold: Option<seq<(Direction, real)>>, csb: Option<seq<(Currency, real)>>,
                             mta: real, rounding: real, valuationCcy: Currency, state: State)

  datatype DecodedCsa = DecodedCsa(thresholdDirA: real, thresholdDirB: real, mta: real, rounding: real,
                                   valuationCcy: Currency, postedByA: map<Currency, real>,
                                   postedByB: map<Currency, real>, state: State)

  function GetOrZero(m: map<Currency, real>, ccy: Currency): real {
    if ccy in m then m[ccy] else 0.0
  }

  function Lookup(pairs: seq<(Direction, real)>, d: Direction): Option<real> {
    if pairs == [] then None
    else if pairs[|pairs| - 1].0 == d then Some(pairs[|pairs| - 1].1)
    else Lookup(pairs[..|pairs| - 1], d)
  }

  ghost predicate DistinctKeys(csb: seq<(Currency, real)>) {
    forall i, j :: 0 <= i < j < |csb| ==> csb[i].0 != csb[j].0
  }

  /** The signed ledger balance in a currency. */
  ghost predicate Balance(csb: seq<(Currency, real)>, ccy: Currency, amount: real) {
    if exists i :: 0 <= i < |csb| && csb[i].0 == ccy
    then exists i :: 0 <= i < |csb| && csb[i] == (ccy, amount)
    else amount == 0.0
  }

  /**
   The two posted maps split the first `n` signed balances: their difference is the balance, one side at most is
   positive.
   */
  ghost predicate SplitOk(csb: seq<(Currency, real)>, n: nat, a: map<Currency, real>, b: map<Currency, real>)
    requires n <= |csb|
  {
    && (forall i :: 0 <= i < n ==>
          var ccy, x, y := csb[i].0, GetOrZero(a, csb[i].0), GetOrZero(b, csb[i].0);
          x - y == csb[i].1 && x >= 0.0 && y >= 0.0 && (x == 0.0 || y == 0.0))
    && (forall ccy :: ccy in a || ccy in b ==> exists i :: 0 <= i < n && csb[i].0 == ccy)
  }

  /** `d` is what the payload says: its terms as they are, its signed balances split into two posted maps. */
  ghost predicate DecodedFrom(p: Payload, d: DecodedCsa) {
    && p.threshold.Some? && p.csb.Some?
    && Some(d.thresholdDirA) == Lookup(p.threshold.value, DirA)
    && Some(d.thresholdDirB) == Lookup(p.threshold.value, DirB)
    && d.mta == p.mta && d.rounding == p.rounding && d.valuationCcy == p.valuationCcy && d.state == p.state
    && SplitOk(p.csb.value, |p.csb.value|, d.postedByA, d.postedByB)
  }

  /** Decoding fails exactly on a threshold or balance field of the wrong shape, or a missing direction. */
  method DecodeCsa(p: Payload) returns (r: Option<DecodedCsa>)
    requires p.csb.Some? ==> DistinctKeys(p.csb.value)
    ensures r.Some? <==>
      && p.threshold.Some? && p.csb.Some?
      && Lookup(p.threshold.value, DirA).Some? && Lookup(p.threshold.value, DirB).Some?
    ensures r.Some? ==> DecodedFrom(p, r.value)
  {
    if p.threshold.None? { return None; }
    var thrA, thrB := Lookup(p.threshold.value, DirA), Lookup(p.threshold.value, DirB);
    if thrA.None? || thrB.None? { return None; }
    if p.csb.None? { return None; }
    var csb := p.csb.value;
    var postedByA: map<Currency, real>, postedByB: map<Currency, real> := map[], map[];
    for k := 0 to |csb|
      invariant SplitOk(csb, k, postedByA, postedByB)
    {
      var (ccy, n) := csb[k];
      FreshKey(csb, k, postedByA, postedByB);
      if n > 0.0 {
        postedByA := postedByA[ccy := n];
      } else if n < 0.0 {
        postedByB := postedByB[ccy := -n];
      } else {
        postedByA, postedByB := postedByA[ccy := 0.0], postedByB[ccy := 0.0];
      }
    }
    r := Some(DecodedCsa(thrA.value, thrB.value, p.mta, p.rounding, p.valuationCcy, postedByA, postedByB, p.state));
  }

  lemma FreshKey(csb: seq<(Currency, real)>, k: nat, a: map<Currency, real>, b: map<Currency, real>)
    requires k < |csb| && DistinctKeys(csb) && SplitOk(csb, k, a, b)
    ensures csb[k].0 !in a && csb[k].0 !in b
  {
  }

  /** The decoded view recovers the signed ledger balance of every currency. */
  lemma DecodedBalance(csb: seq<(Currency, real)>, a: map<Currency, real>, b: map<Currency, real>, ccy: Currency)
    requires DistinctKeys(csb) && SplitOk(csb, |csb|, a, b)
    ensures Balance(csb, ccy, GetOrZero(a, ccy) - GetOrZero(b, ccy))
  {
    if i :| 0 <= i < |csb| && csb[i].0 == ccy {
      assert csb[i] == (ccy, GetOrZero(a, ccy) - GetOrZero(b, ccy));
    }
  }

  // ----- The two readers of a decoded Csa -----

  /** The gated call of the publisher. */
  function GatedCall(csa: DecodedCsa, exposure: real): real {
    var req := ComputeRequired(exposure, csa.thresholdDirA, csa.thresholdDirB);
    var postedNet := GetOrZero(csa.postedByA, csa.valuationCcy) - GetOrZero(csa.postedByB, csa.valuationCcy);
    GateCall(req.fromA - req.fromB - postedNet, csa.mta, csa.rounding)
  }

  datatype Choice = PublishMark(exposure: real) | SettleVm

  class CsaPublisher {
    // The choices exercised so far; a call that throws is recorded too.
    ghost var log: seq<Choice>

    constructor ()
      ensures log == []
    {
      log := [];
    }

    method Exercise(c: Choice) returns (ok: bool)
      modifies this
      ensures log == old(log) + [c]
    {
      log := log + [c];
      ok := *;
    }

    /** Publish, then settle unless a human must act first or there is nothing to do. None when a call throws. */
    method PublishAndMaybeSettle(csa: DecodedCsa, exposure: real) returns (settled: Option<bool>)
      modifies this
      ensures log == old(log) + [PublishMark(exposure)] || log == old(log) + [PublishMark(exposure), SettleVm]
      ensures settled.Some? ==>
        settled.value
        == (csa.state !in {MarkDisputed, Escalated} && (GatedCall(csa, exposure) != 0.0 || csa.state != Active))
      ensures settled.Some? ==>
        (settled.value <==> log == old(log) + [PublishMark(exposure), SettleVm])
      ensures csa.state in {MarkDisputed, Escalated} ==> log == old(log) + [PublishMark(exposure)]
    {
      var published := Exercise(PublishMark(exposure));
      if !published { return None; }
      if csa.state == MarkDisputed || csa.state == Escalated {
        return Some(false);
      }
      var req := ComputeRequired(exposure, csa.thresholdDirA, csa.thresholdDirB);
      var postedA := GetOrZero(csa.postedByA, csa.valuationCcy);
      var postedB := GetOrZero(csa.postedByB, csa.valuationCcy);
      var rawCall := req.fromA - req.fromB - (postedA - postedB);
      var gated := GateCall(rawCall, csa.mta, csa.rounding);
      if gated == 0.0 && csa.state == Active {
        return Some(false);
      }
      var done := Exercise(SettleVm);
      assert old(log) + [PublishMark(exposure)] + [SettleVm] == old(log) + [PublishMark(exposure), SettleVm];
      if !done { return None; }
      settled := Some(true);
    }
  }

  datatype Side = SideA | SideB
  datatype CallSignal = CallSignal(side: Side, amount: real)

  function ComputeCallSignal(csa: DecodedCsa, exposure: real): Option<CallSignal> {
    var fromA, fromB := Max(0.0, exposure - csa.thresholdDirB), Max(0.0, -exposure - csa.thresholdDirA);
    var current := GetOrZero(csa.postedByA, csa.valuationCcy) - GetOrZero(csa.postedByB, csa.valuationCcy);
    var gated := GateCall(fromA - fromB - current, csa.mta, csa.rounding);
    if gated == 0.0 then None
    else Some(CallSignal(if gated > 0.0 then SideA else SideB, Abs(gated)))
  }

  /** What a balance and an exposure call for under the payload's terms. */
  ghost function CallOn(p: Payload, thrA: real, thrB: real, balance: real, exposure: real): real {
    GateCall(Target(exposure, thrA, thrB) - balance, p.mta, p.rounding)
  }

  /**
   The app and the oracle agree on every payload and exposure: both read the call that the signed ledger
   balance calls for. The app shows nothing exactly when it is 0, and otherwise its side and size.
   */
  lemma AppAndOracleAgree(p: Payload, d: DecodedCsa, exposure: real)
    requires DecodedFrom(p, d) && DistinctKeys(p.csb.value)
    ensures exists balance :: Balance(p.csb.value, p.valuationCcy, balance)
              && GatedCall(d, exposure) == CallOn(p, d.thresholdDirA, d.thresholdDirB, balance, exposure)
    ensures var call, signal := GatedCall(d, exposure), ComputeCallSignal(d, exposure);
            && (signal.None? <==> call == 0.0)
            && (signal.Some? ==>
                  call == if signal.value.side == SideA then signal.value.amount else -signal.value.amount)
            && (signal.Some? ==> signal.value.amount > 0.0)
  {
    var balance := GetOrZero(d.postedByA, p.valuationCcy) - GetOrZero(d.postedByB, p.valuationCcy);
    DecodedBalance(p.csb.value, d.postedByA, d.postedByB, p.valuationCcy);
    hide GateCall;
    assert GatedCall(d, exposure) == CallOn(p, d.thresholdDirA, d.thresholdDirB, balance, exposure);
  }
}
