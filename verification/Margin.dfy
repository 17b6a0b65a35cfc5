/**
 The margin call: netting swaps into an exposure, the target balance behind the two thresholds, and
 the gate that suppresses small calls and rounds the rest.
 */
module Margin {
  import opened Numbers
  import opened Parties

  type Party = string
  type Currency = string

  // ----- Rounding and the gate -----

  /** `Math.round`: the nearest integer, halves up. */
  function Round(x: real): int { (x + 0.5).Floor }

  /** `roundCommercial 0`: the nearest integer, halves away from zero. */
  function RoundCommercial(x: real): int { if x >= 0.0 then Round(x) else -Round(-x) }

  /** The multiple of `rounding` nearest to `raw`, halves up. */
  function Snap(raw: real, rounding: real): real
    requires rounding != 0.0
  {
    Round(raw / rounding) as real * rounding
  }

  function SnapCommercial(raw: real, rounding: real): real
    requires rounding != 0.0
  {
    RoundCommercial(raw / rounding) as real * rounding
  }

  function GateCall(raw: real, mta: real, rounding: real): real {
    if Abs(raw) < mta then 0.0
    else if rounding == 0.0 then raw
    else Snap(raw, rounding)
  }

  /** The gate of the Csa contract, which the off-chain gate mirrors. */
  function OnChainGate(raw: real, mta: real, rounding: real): real {
    if Abs(raw) < mta then 0.0
    else if rounding == 0.0 then raw
    else SnapCommercial(raw, rounding)
  }

  /** What the Csa template ensures of every contract. */
  predicate ValidTerms(mta: real, rounding: real) { mta >= 0.0 && rounding >= 0.0 }

  /** `raw` lies exactly half-way between two multiples of the rounding. */
  predicate Tie(raw: real, rounding: real)
    requires rounding > 0.0
  {
    Round(raw / rounding) as real == raw / rounding + 0.5
  }

  // ----- Facts about snapping, proved on quotients and then used as they stand -----

  lemma Scale(a: real, b: real, r: real)
    requires r > 0.0
    ensures a <= b <==> a * r <= b * r
    ensures a == b <==> a * r == b * r
  {
    if a < b {
      assert (b - a) * r > 0.0;
    } else if b < a {
      assert (a - b) * r > 0.0;
    }
  }

  lemma Unscale(x: real, y: real, r: real, a: real, b: real)
    requires r > 0.0 && x * r == a && y * r == b && a <= b
    ensures x <= y
  {
    Scale(x, y, r);
  }

  lemma UnscaleLess(x: real, y: real, r: real, a: real, b: real)
    requires r > 0.0 && x * r == a && y * r == b && a < b
    ensures x < y
  {
    Scale(y, x, r);
  }

  lemma SameQuotient(x: real, y: real, r: real, a: real)
    requires r > 0.0 && x * r == a && y * r == a
    ensures x == y
  {
    Scale(x, y, r);
  }

  lemma StepAway(x: real, n: real, r: real, raw: real, snap: real)
    requires r > 0.0 && -0.5 <= x - n < 0.5 && x * r == raw && n * r == snap
    ensures -0.5 * r <= raw - snap < 0.5 * r
    ensures x - n == -0.5 <==> raw - snap == -0.5 * r
  {
    var d := x - n;
    assert d * r == raw - snap;
    Scale(-0.5, d, r);
    ScaleLess(d, 0.5, r);
  }

  lemma ScaleLess(a: real, b: real, r: real)
    requires r > 0.0 && a < b
    ensures a * r < b * r
  {
    assert (b - a) * r > 0.0;
  }

  /** Snapping said on the quotient, without a division. */
  lemma Quotient(raw: real, r: real) returns (x: real)
    requires r > 0.0
    ensures x * r == raw && (x >= 0.0 <==> raw >= 0.0)
    ensures Snap(raw, r) == Round(x) as real * r && (Tie(raw, r) <==> Round(x) as real == x + 0.5)
    ensures Snap(-raw, r) == Round(-x) as real * r && (Tie(-raw, r) <==> Round(-x) as real == -x + 0.5)
    ensures SnapCommercial(raw, r) == (if raw >= 0.0 then Snap(raw, r) else (-Round(-x)) as real * r)
  {
    x := raw / r;
    Scale(0.0, x, r);
    assert -raw / r == -x;
  }

  lemma Split(a: real, b: real, r: real)
    ensures (a + b) * r == a * r + b * r
    ensures (a - b) * r == a * r - b * r
    ensures (-a) * r == -(a * r)
  {
  }

  /** Snapping moves up by at most half a step, or down by less than half a step. */
  lemma SnapNear(raw: real, r: real)
    requires r > 0.0
    ensures -0.5 * r <= raw - Snap(raw, r) < 0.5 * r
    ensures Tie(raw, r) <==> raw - Snap(raw, r) == -0.5 * r
  {
    hide Snap, Tie, SnapCommercial;
    var x := Quotient(raw, r);
    var n := Round(x) as real;
    assert -0.5 <= x - n && x - n < 0.5;
    StepAway(x, n, r, raw, Snap(raw, r));
  }

  lemma SnapZero(raw: real, r: real)
    requires r > 0.0 && -0.5 * r <= raw < 0.5 * r
    ensures Snap(raw, r) == 0.0
  {
    hide Snap, Tie, SnapCommercial;
    var x := Quotient(raw, r);
    Unscale(-0.5, x, r, -0.5 * r, raw);
    UnscaleLess(x, 0.5, r, raw, 0.5 * r);
    assert Round(x) == 0;
    assert 0.0 * r == 0.0;
  }

  lemma SnapMonotone(a: real, b: real, r: real)
    requires r > 0.0 && a <= b
    ensures Snap(a, r) <= Snap(b, r)
  {
    hide Snap, Tie, SnapCommercial;
    var x := Quotient(a, r);
    var y := Quotient(b, r);
    Unscale(x, y, r, a, b);
    assert Round(x) <= Round(y);
    Scale(Round(x) as real, Round(y) as real, r);
  }

  lemma SnapMultiple(k: int, raw: real, r: real)
    requires r > 0.0 && raw == k as real * r
    ensures Snap(raw, r) == raw
  {
    hide Snap, Tie, SnapCommercial;
    var x := Quotient(raw, r);
    SameQuotient(x, k as real, r, raw);
    assert Round(x) == k;
  }

  /** The nearest integer to -x: the negative, one more at a tie. */
  lemma RoundNegated(x: real)
    ensures var tie := Round(x) as real == x + 0.5;
            && Round(-x) == -Round(x) + (if tie then 1 else 0)
            && (Round(-x) as real == -x + 0.5 <==> tie)
  {
    var n := Round(x);
    assert n as real <= x + 0.5 < n as real + 1.0;
    if n as real == x + 0.5 {
      assert -x + 0.5 == (1 - n) as real;
    } else {
      assert (-n) as real < -x + 0.5 < (-n) as real + 1.0;
      assert Round(-x) == -n;
    }
  }

  lemma SnapNegated(raw: real, r: real)
    requires r > 0.0
    ensures Tie(-raw, r) <==> Tie(raw, r)
    ensures Snap(-raw, r) == -Snap(raw, r) + (if Tie(raw, r) then r else 0.0)
  {
    hide Snap, Tie, SnapCommercial;
    var x := Quotient(raw, r);
    RoundNegated(x);
    var n := Round(x) as real;
    Split(n, 1.0, r);
    Split(1.0, n, r);
    assert (-Round(x)) as real == -n && (1 - Round(x)) as real == 1.0 - n;
  }

  /** On chain: the off-chain multiple, except that a negative tie goes one step further down. */
  lemma SnapCommercialIs(raw: real, r: real)
    requires r > 0.0
    ensures SnapCommercial(raw, r) == Snap(raw, r) - (if raw < 0.0 && Tie(raw, r) then r else 0.0)
  {
    hide Snap, Tie, SnapCommercial;
    var x := Quotient(raw, r);
    if raw < 0.0 {
      SnapNegated(raw, r);
      assert (-Round(-x)) as real == -(Round(-x) as real);
      Split(Round(-x) as real, 0.0, r);
    }
  }

  // ----- The gate converges -----

  /** The part of a call that the gate leaves open. */
  function Residual(raw: real, mta: real, rounding: real): real { raw - GateCall(raw, mta, rounding) }

  /** After a gated transfer nothing more is called: an unchanged exposure moves collateral at most once. */
  lemma GateConverges(raw: real, mta: real, rounding: real)
    requires ValidTerms(mta, rounding)
    ensures GateCall(Residual(raw, mta, rounding), mta, rounding) == 0.0
    ensures Abs(Residual(raw, mta, rounding)) <= Max(mta, rounding / 2.0)
  {
    hide Snap;
    if rounding > 0.0 {
      SnapNear(raw, rounding);
      if Abs(raw) >= mta {
        SnapZero(raw - Snap(raw, rounding), rounding);
      }
    }
  }

  /** On chain the same holds except at exact ties whose half-step is not below the minimum transfer. */
  lemma OnChainConvergesIff(raw: real, mta: real, rounding: real)
    requires ValidTerms(mta, rounding)
    ensures OnChainGate(raw - OnChainGate(raw, mta, rounding), mta, rounding) == 0.0
            <==> !(rounding > 0.0 && Abs(raw) >= mta && Tie(raw, rounding) && mta <= rounding / 2.0)
  {
    hide Snap, SnapCommercial, Tie;
    if Abs(raw) >= mta && rounding > 0.0 {
      SnapCommercialIs(raw, rounding);
      SnapNear(raw, rounding);
      var rest := raw - SnapCommercial(raw, rounding);
      SnapCommercialIs(rest, rounding);
      SnapNear(rest, rounding);
      if -0.5 * rounding <= rest < 0.5 * rounding {
        SnapZero(rest, rounding);
      } else {
        SnapZero(rest - rounding, rounding);
        HalfStep(rounding);
      }
    }
  }

  /** Half a step up rounds to a whole step. */
  lemma HalfStep(r: real)
    requires r > 0.0
    ensures Snap(0.5 * r, r) == r
  {
    hide Snap, Tie, SnapCommercial;
    var x := Quotient(0.5 * r, r);
    SameQuotient(x, 0.5, r, 0.5 * r);
    assert Round(x) == 1;
    assert 1.0 * r == r;
  }

  /** The off-chain mirror agrees with the contract except at negative ties. */
  lemma MirrorAgreesIff(raw: real, mta: real, rounding: real)
    requires ValidTerms(mta, rounding)
    ensures GateCall(raw, mta, rounding) == OnChainGate(raw, mta, rounding)
            <==> !(rounding > 0.0 && raw <= -mta && raw < 0.0 && Tie(raw, rounding))
  {
    hide Snap, SnapCommercial, Tie;
    if rounding > 0.0 {
      SnapCommercialIs(raw, rounding);
    }
  }

  /** A larger shortfall never gets a smaller call. */
  lemma GateMonotone(a: real, b: real, mta: real, rounding: real)
    requires ValidTerms(mta, rounding) && a <= b
    ensures GateCall(a, mta, rounding) <= GateCall(b, mta, rounding)
  {
    hide Snap;
    if rounding > 0.0 {
      SnapMonotone(a, b, rounding);
      SnapZero(0.0, rounding);
      if b >= 0.0 { SnapMonotone(0.0, b, rounding); }
      if a <= 0.0 { SnapMonotone(a, 0.0, rounding); }
    }
  }

  /** When the minimum transfer is a multiple of the rounding, every call made reaches it. */
  lemma CallsReachMinimum(raw: real, mta: real, k: nat, rounding: real)
    requires rounding >= 0.0 && mta == k as real * rounding
    ensures GateCall(raw, mta, rounding) != 0.0 ==> Abs(GateCall(raw, mta, rounding)) >= mta
  {
    if rounding > 0.0 {
      MultiplesFixed(k, mta, rounding);
      hide Snap;
      if raw >= mta { SnapMonotone(mta, raw, rounding); }
      if raw <= -mta { SnapMonotone(raw, -mta, rounding); }
    }
  }

  lemma MultiplesFixed(k: int, mta: real, rounding: real)
    requires rounding > 0.0 && mta == k as real * rounding
    ensures Snap(mta, rounding) == mta && Snap(-mta, rounding) == -mta
  {
    assert (-k) as real == -(k as real);
    Split(k as real, 0.0, rounding);
    SnapMultiple(k, mta, rounding);
    SnapMultiple(-k, -mta, rounding);
  }

  /** The sign of the call flips with the sign of the shortfall, except at exact ties. */
  lemma GateNegatedIff(raw: real, mta: real, rounding: real)
    requires ValidTerms(mta, rounding)
    ensures GateCall(-raw, mta, rounding) == -GateCall(raw, mta, rounding)
            <==> !(rounding > 0.0 && Abs(raw) >= mta && Tie(raw, rounding))
  {
    hide Snap, Tie;
    if rounding > 0.0 {
      SnapNegated(raw, rounding);
    }
  }

  // ----- Exposure and target -----

  datatype Required = Required(fromA: real, fromB: real)

  function ComputeRequired(exposure: real, thresholdDirA: real, thresholdDirB: real): Required {
    Required(Max(0.0, exposure - thresholdDirB), Max(0.0, -exposure - thresholdDirA))
  }

  function Target(exposure: real, thresholdDirA: real, thresholdDirB: real): real {
    var req := ComputeRequired(exposure, thresholdDirA, thresholdDirB);
    req.fromA - req.fromB
  }

  /** With thresholds that are not negative only one side is ever required, and only past its own threshold. */
  lemma OneSideRequired(exposure: real, thrA: real, thrB: real)
    requires thrA >= 0.0 && thrB >= 0.0
    ensures var t := Target(exposure, thrA, thrB);
            && (t > 0.0 <==> exposure > thrB) && (t < 0.0 <==> -exposure > thrA)
            && (t > 0.0 ==> t == exposure - thrB) && (t < 0.0 ==> t == exposure + thrA)
  {
  }

  type Cid = nat
  datatype Workflow = Workflow(cid: Cid, partyA: Party, partyB: Party)
  datatype NettedSwap = NettedSwap(cid: Cid, reversed: bool)

  predicate PairMatches(w: Workflow, a: Party, b: Party) {
    SamePair(w.partyA, w.partyB, a, b)
  }

  /** The workflows between `a` and `b`, each flagged when it was proposed the other way round. */
  function NettingSet(workflows: seq<Workflow>, a: Party, b: Party): seq<NettedSwap> {
    if workflows == [] then []
    else
      var w, rest := workflows[0], NettingSet(workflows[1..], a, b);
      if PairMatches(w, a, b) then [NettedSwap(w.cid, w.partyA != a)] + rest else rest
  }

  /** Sum of the present values in the frame of the CSA's party A. */
  function SumSigned(swaps: seq<NettedSwap>, npv: Cid -> real): real {
    if swaps == [] then 0.0
    else (if swaps[0].reversed then -npv(swaps[0].cid) else npv(swaps[0].cid)) + SumSigned(swaps[1..], npv)
  }

  /** Positive means party A owes party B. */
  function Exposure(workflows: seq<Workflow>, a: Party, b: Party, npv: Cid -> real): real {
    -SumSigned(NettingSet(workflows, a, b), npv)
  }

  datatype Terms = Terms(partyA: Party, partyB: Party, thresholdDirA: real, thresholdDirB: real,
                         mta: real, rounding: real, balance: real)

  /** The same agreement with the two parties' names exchanged. */
  function Relabel(t: Terms): Terms {
    Terms(t.partyB, t.partyA, t.thresholdDirB, t.thresholdDirA, t.mta, t.rounding, -t.balance)
  }

  function RawCall(t: Terms, exposure: real): real {
    Target(exposure, t.thresholdDirA, t.thresholdDirB) - t.balance
  }

  lemma {:induction false} ExposureRelabelled(workflows: seq<Workflow>, a: Party, b: Party, npv: Cid -> real)
    requires a != b
    ensures Exposure(workflows, b, a, npv) == -Exposure(workflows, a, b, npv)
  {
    if workflows != [] {
      ExposureRelabelled(workflows[1..], a, b, npv);
      var w := workflows[0];
      if PairMatches(w, a, b) {
        SumCons(NettedSwap(w.cid, w.partyA != a), NettingSet(workflows[1..], a, b), npv);
        SumCons(NettedSwap(w.cid, w.partyA != b), NettingSet(workflows[1..], b, a), npv);
      }
    }
  }

  lemma SumCons(n: NettedSwap, rest: seq<NettedSwap>, npv: Cid -> real)
    ensures SumSigned([n] + rest, npv) == (if n.reversed then -npv(n.cid) else npv(n.cid)) + SumSigned(rest, npv)
  {
    assert ([n] + rest)[1..] == rest;
  }

  /** Relabelling negates exposure, target and raw call, and the gated call except at exact ties. */
  lemma RelabellingNegates(t: Terms, workflows: seq<Workflow>, npv: Cid -> real)
    requires t.partyA != t.partyB && ValidTerms(t.mta, t.rounding)
    ensures var r := Relabel(t);
            var e, f := Exposure(workflows, t.partyA, t.partyB, npv), Exposure(workflows, r.partyA, r.partyB, npv);
            && f == -e
            && RawCall(r, f) == -RawCall(t, e)
            && (GateCall(RawCall(r, f), t.mta, t.rounding) == -GateCall(RawCall(t, e), t.mta, t.rounding)
                <==> !(t.rounding > 0.0 && Abs(RawCall(t, e)) >= t.mta && Tie(RawCall(t, e), t.rounding)))
  {
    ExposureRelabelled(workflows, t.partyA, t.partyB, npv);
    GateNegatedIff(RawCall(t, Exposure(workflows, t.partyA, t.partyB, npv)), t.mta, t.rounding);
  }

  // ----- Settling on chain and re-gating off chain -----

  /** The signed deficit that `SettleVm` records; the debtor is party A when it is positive. */
  function Deficit(t: Terms, exposure: real): real { OnChainGate(RawCall(t, exposure), t.mta, t.rounding) }

  /** `PostCollateral` by the debtor, of the whole deficit. */
  function PostDeficit(t: Terms, exposure: real): Terms { t.(balance := t.balance + Deficit(t, exposure)) }

  /** What the publisher calls for. */
  function PublisherCall(t: Terms, exposure: real): real { GateCall(RawCall(t, exposure), t.mta, t.rounding) }

  /** Half-way ties on the negative side that the minimum transfer does not suppress. */
  predicate NegativeTie(raw: real, mta: real, rounding: real) {
    rounding > 0.0 && raw < 0.0 && Abs(raw) >= mta && Tie(raw, rounding)
  }

  /** Once the deficit is posted, at the same exposure the publisher calls for nothing, except after a negative tie. */
  lemma PostedDeficitClosesIff(t: Terms, exposure: real)
    requires ValidTerms(t.mta, t.rounding)
    ensures PublisherCall(PostDeficit(t, exposure), exposure) == 0.0
            <==> !(NegativeTie(RawCall(t, exposure), t.mta, t.rounding) && t.mta <= t.rounding / 2.0)
  {
    hide Target;
    var raw, r := RawCall(t, exposure), t.rounding;
    assert RawCall(PostDeficit(t, exposure), exposure) == raw - OnChainGate(raw, t.mta, r);
    MixedResidualIff(raw, t.mta, r);
  }

  lemma MixedResidualIff(raw: real, mta: real, r: real)
    requires ValidTerms(mta, r)
    ensures GateCall(raw - OnChainGate(raw, mta, r), mta, r) == 0.0 <==> !(NegativeTie(raw, mta, r) && mta <= r / 2.0)
  {
    hide Snap, SnapCommercial, Tie;
    if Abs(raw) >= mta && r > 0.0 {
      SnapCommercialIs(raw, r);
      SnapNear(raw, r);
      if NegativeTie(raw, mta, r) {
        HalfStep(r);
      } else {
        SnapZero(raw - Snap(raw, r), r);
      }
    }
  }

  /** From half a step short, every posting of the contract's deficit leaves half a step open on the other side. */
  lemma HalfStepsAlternate(t: Terms, exposure: real)
    requires t.mta <= t.rounding / 2.0 && t.rounding > 0.0 && t.mta >= 0.0
    requires Abs(RawCall(t, exposure)) == t.rounding / 2.0
    ensures Abs(Deficit(t, exposure)) == t.rounding
    ensures RawCall(PostDeficit(t, exposure), exposure) == -RawCall(t, exposure)
    ensures PostDeficit(PostDeficit(t, exposure), exposure) == t
  {
    hide Target;
    HalfStepGate(t.rounding, t.mta);
    var raw, u := RawCall(t, exposure), PostDeficit(t, exposure);
    hide OnChainGate;
    assert RawCall(u, exposure) == raw - Deficit(t, exposure);
    assert Deficit(t, exposure) == 2.0 * raw && Deficit(u, exposure) == -2.0 * raw;
  }

  lemma HalfStepGate(r: real, mta: real)
    requires r > 0.0 && 0.0 <= mta <= r / 2.0
    ensures OnChainGate(r / 2.0, mta, r) == r && OnChainGate(-(r / 2.0), mta, r) == -r
  {
    hide Snap, SnapCommercial, Tie;
    HalfStep(r);
    SnapCommercialIs(r / 2.0, r);
    SnapCommercialIs(-(r / 2.0), r);
    SnapNegated(r / 2.0, r);
    SnapNear(r / 2.0, r);
  }

  // ----- Ties at a rounding of 10000 -----

  lemma HalfOfTenThousand()
    ensures Tie(-5000.0, 10000.0) && Tie(5000.0, 10000.0)
    ensures Snap(-5000.0, 10000.0) == 0.0 && Snap(5000.0, 10000.0) == 10000.0
  {
    assert -5000.0 / 10000.0 == -0.5 && 5000.0 / 10000.0 == 0.5;
  }

  /** The two gates disagree on a shortfall of -5000. */
  lemma MirrorMisses()
    ensures GateCall(-5000.0, 0.0, 10000.0) == 0.0 && OnChainGate(-5000.0, 0.0, 10000.0) == -10000.0
  {
    HalfOfTenThousand();
    hide Snap, SnapCommercial, Tie;
    SnapCommercialIs(-5000.0, 10000.0);
  }

  /** Posting the contract's deficit on it leaves the contract's gate and the publisher's calling the other way. */
  lemma OnChainDiverges()
    ensures OnChainGate(-5000.0 - OnChainGate(-5000.0, 0.0, 10000.0), 0.0, 10000.0) == 10000.0
    ensures GateCall(-5000.0 - OnChainGate(-5000.0, 0.0, 10000.0), 0.0, 10000.0) == 10000.0
  {
    MirrorMisses();
    HalfOfTenThousand();
    hide Snap, SnapCommercial, Tie;
    SnapCommercialIs(5000.0, 10000.0);
  }

  /** The publisher's gate is not odd there. */
  lemma GateNotOdd()
    ensures GateCall(5000.0, 0.0, 10000.0) == 10000.0 && GateCall(-5000.0, 0.0, 10000.0) == 0.0
  {
    HalfOfTenThousand();
  }
}
