/**
 FpML export and import of swap proposals, on the element tree: what a round trip keeps, and what it
 normalises. The overnight-index and federal-funds patterns are parameters.
 */
module Fpml {
  import opened Directions
  import opened Options

  datatype IrsPayload = IrsPayload(notional: real, currency: string, fixRate: real, floatingRateId: string,
                                   floatingSpread: real, startDate: int, maturityDate: int, dayCount: string,
                                   fixedDirection: Direction)
  datatype BasisPayload = BasisPayload(notional: real, currency: string, leg0IndexId: string, leg1IndexId: string,
                                       leg0Spread: real, leg1Spread: real, startDate: int, maturityDate: int,
                                       dayCount: string, leg0Direction: Direction)
  datatype XccyPayload = XccyPayload(fixedCurrency: string, fixedNotional: real, fixedRate: real, floatCurrency: string,
                                     floatNotional: real, floatIndexId: string, floatSpread: real, startDate: int,
                                     maturityDate: int, dayCount: string, fixedDirection: Direction)
  datatype Proposal = IRS(irs: IrsPayload) | OIS(irs: IrsPayload) | BASIS(basis: BasisPayload) | XCCY(xccy: XccyPayload)

  // The elements of a swapStream that import reads; None where the element is absent.
  datatype Floating = Floating(indexId: Option<string>, spread: Option<real>, compounding: Option<string>)
  datatype Stream = Stream(payer: Option<string>, receiver: Option<string>, effective: Option<int>,
                           termination: Option<int>, notional: Option<real>, currency: Option<string>,
                           fixedRate: Option<real>, floating: Option<Floating>, dayCountFraction: Option<string>)

  datatype Patterns = Patterns(overnight: string -> bool, fedFunds: string -> bool)

  // ----- Export -----

  function ToFpmlDayCount(daml: string): string {
    match daml
    case "Act360" => "ACT/360"
    case "Act365Fixed" => "ACT/365.FIXED"
    case "Basis30360" => "30/360"
    case _ => "ACT/360"
  }

  function PayerRef(d: Direction): string { if d.Pay? then "party1" else "party2" }

  function BuildFixedLeg(start: int, end: int, notional: real, currency: string, rate: real, dayCount: string,
                         d: Direction): Stream
  {
    Stream(Some(PayerRef(d)), Some(PayerRef(Opposite(d))), Some(start), Some(end), Some(notional), Some(currency),
           Some(rate), None, Some(ToFpmlDayCount(dayCount)))
  }

  function BuildFloatLeg(start: int, end: int, notional: real, currency: string, indexId: string, spread: real,
                         dayCount: string, inArrears: bool, average: bool, d: Direction): Stream
  {
    var compounding :=
      if inArrears then Some("CompoundedInArrears") else if average then Some("OvernightAverage") else None;
    Stream(Some(PayerRef(d)), Some(PayerRef(Opposite(d))), Some(start), Some(end), Some(notional), Some(currency), None,
           Some(Floating(Some(indexId), Some(spread), compounding)), Some(ToFpmlDayCount(dayCount)))
  }

  function BuildIrsStreams(x: Patterns, p: IrsPayload, forceInArrears: bool): seq<Stream> {
    [BuildFixedLeg(p.startDate, p.maturityDate, p.notional, p.currency, p.fixRate, p.dayCount, p.fixedDirection),
     BuildFloatLeg(p.startDate, p.maturityDate, p.notional, p.currency, p.floatingRateId, p.floatingSpread, p.dayCount,
                   forceInArrears || x.overnight(p.floatingRateId), false, Opposite(p.fixedDirection))]
  }

  function BasisLeg(x: Patterns, p: BasisPayload, indexId: string, spread: real, d: Direction): Stream {
    BuildFloatLeg(p.startDate, p.maturityDate, p.notional, p.currency, indexId, spread, p.dayCount,
                  x.overnight(indexId) && !x.fedFunds(indexId), x.fedFunds(indexId), d)
  }

  function BuildBasisStreams(x: Patterns, p: BasisPayload): seq<Stream> {
    [BasisLeg(x, p, p.leg0IndexId, p.leg0Spread, p.leg0Direction),
     BasisLeg(x, p, p.leg1IndexId, p.leg1Spread, Opposite(p.leg0Direction))]
  }

  function BuildXccyStreams(p: XccyPayload): seq<Stream> {
    [BuildFixedLeg(p.startDate, p.maturityDate, p.fixedNotional, p.fixedCurrency, p.fixedRate, p.dayCount,
                   p.fixedDirection),
     BuildFloatLeg(p.startDate, p.maturityDate, p.floatNotional, p.floatCurrency, p.floatIndexId, p.floatSpread,
                   p.dayCount, true, false, Opposite(p.fixedDirection))]
  }

  function BuildStreams(x: Patterns, p: Proposal): seq<Stream> {
    match p
    case IRS(irs) => BuildIrsStreams(x, irs, false)
    case OIS(irs) => BuildIrsStreams(x, irs, true)
    case BASIS(basis) => BuildBasisStreams(x, basis)
    case XCCY(xccy) => BuildXccyStreams(xccy)
  }

  // ----- Import: parsing -----

  datatype Rate =
    | FixedRate(rate: real)
    | FloatRate(indexId: string, spread: real, compounding: Option<string>)
  datatype ParsedLeg = ParsedLeg(currency: string, notional: real, rate: Rate, dayCountFraction: string,
                                 payer: Option<string>)
  datatype Parsed = Parsed(legs: seq<ParsedLeg>, effective: int, termination: int)

  predicate IsCompounding(v: string) {
    v in {"Flat", "None", "Straight", "CompoundedInArrears", "OvernightAverage"}
  }

  /** None where the source throws: notional, currency or index id missing, or an empty id. */
  function ParseLeg(s: Stream): Option<ParsedLeg> {
    if s.notional.None? || s.currency.None? || s.currency.value == "" then None
    else
      var dayCountFraction := GetOr(s.dayCountFraction, "ACT/360");
      if s.fixedRate.Some? then
        Some(ParsedLeg(s.currency.value, s.notional.value, FixedRate(s.fixedRate.value), dayCountFraction, s.payer))
      else if s.floating.None? || s.floating.value.indexId.None? || s.floating.value.indexId.value == "" then None
      else
        var f := s.floating.value;
        var compounding := if f.compounding.Some? && IsCompounding(f.compounding.value) then f.compounding else None;
        var rate := FloatRate(f.indexId.value, GetOr(f.spread, 0.0), compounding);
        Some(ParsedLeg(s.currency.value, s.notional.value, rate, dayCountFraction, s.payer))
  }

  function ParseLegs(streams: seq<Stream>): Option<seq<ParsedLeg>> {
    if streams == [] then Some([])
    else
      var first, rest := ParseLeg(streams[0]), ParseLegs(streams[1..]);
      if first.None? || rest.None? then None else Some([first.value] + rest.value)
  }

  /** All legs, with the dates of the first stream. */
  function Parse(streams: seq<Stream>): Option<Parsed> {
    var legs := ParseLegs(streams);
    if streams == [] || legs.None? || streams[0].effective.None? || streams[0].termination.None? then None
    else Some(Parsed(legs.value, streams[0].effective.value, streams[0].termination.value))
  }

  // ----- Import: classification -----

  datatype Classification =
    | AsIrs(fixedLeg: ParsedLeg, floatLeg: ParsedLeg)
    | AsOis(fixedLeg: ParsedLeg, floatLeg: ParsedLeg)
    | AsBasis(legA: ParsedLeg, legB: ParsedLeg)
    | AsXccy(fixedLeg: ParsedLeg, floatLeg: ParsedLeg)
    | Unsupported

  predicate IsOis(x: Patterns, l: ParsedLeg) {
    && l.rate.FloatRate?
    && l.rate.compounding == Some("CompoundedInArrears")
    && l.rate.indexId != ""
    && x.overnight(l.rate.indexId)
  }

  function Classify(x: Patterns, p: Parsed): Classification {
    if |p.legs| != 2 then Unsupported
    else
      var a, b := p.legs[0], p.legs[1];
      if a.rate.FixedRate? && b.rate.FixedRate? then Unsupported
      else if a.rate.FloatRate? && b.rate.FloatRate? then
        if a.currency == b.currency then AsBasis(a, b) else Unsupported
      else
        var fixedLeg, floatLeg := if a.rate.FixedRate? then a else b, if a.rate.FixedRate? then b else a;
        if a.currency != b.currency then AsXccy(fixedLeg, floatLeg)
        else if IsOis(x, floatLeg) then AsOis(fixedLeg, floatLeg)
        else AsIrs(fixedLeg, floatLeg)
  }

  // ----- Import: building the proposal -----

  function Upper(c: char): char {
    if 'a' <= c <= 'z' then c - 'a' + 'A' else c
  }

  function ToUpper(s: string): string {
    seq(|s|, i requires 0 <= i < |s| => Upper(s[i]))
  }

  function NormalizeDayCount(fraction: string): string {
    match ToUpper(fraction)
    case "ACT/360" => "Act360"
    case "ACT/365" => "Act365Fixed"
    case "ACT/365.FIXED" => "Act365Fixed"
    case "ACT/365F" => "Act365Fixed"
    case "30/360" => "Basis30360"
    case "30E/360" => "Basis30360"
    case _ => "Act360"
  }

  function DirectionFromPayer(payer: Option<string>, default: Direction): Direction {
    if payer == Some("party1") then Pay else if payer == Some("party2") then Receive else default
  }

  function RateOf(l: ParsedLeg): real { if l.rate.FixedRate? then l.rate.rate else 0.0 }

  function IndexOf(l: ParsedLeg): string { if l.rate.FloatRate? then l.rate.indexId else "" }

  function SpreadOf(l: ParsedLeg): real { if l.rate.FloatRate? then l.rate.spread else 0.0 }

  /** None where the source throws: currencies that differ. */
  function BuildIrs(fixedLeg: ParsedLeg, floatLeg: ParsedLeg, start: int, end: int): Option<IrsPayload> {
    if fixedLeg.currency != floatLeg.currency then None
    else Some(IrsPayload(fixedLeg.notional, fixedLeg.currency, RateOf(fixedLeg), IndexOf(floatLeg), SpreadOf(floatLeg),
                         start, end, NormalizeDayCount(fixedLeg.dayCountFraction),
                         DirectionFromPayer(fixedLeg.payer, Receive)))
  }

  /** None where the source throws: currencies or notionals that differ. */
  function BuildBasis(a: ParsedLeg, b: ParsedLeg, start: int, end: int): Option<BasisPayload> {
    if a.currency != b.currency || a.notional != b.notional then None
    else Some(BasisPayload(a.notional, a.currency, IndexOf(a), IndexOf(b), SpreadOf(a), SpreadOf(b), start, end,
                           NormalizeDayCount(a.dayCountFraction), DirectionFromPayer(a.payer, Pay)))
  }

  function BuildXccy(fixedLeg: ParsedLeg, floatLeg: ParsedLeg, start: int, end: int): XccyPayload {
    XccyPayload(fixedLeg.currency, fixedLeg.notional, RateOf(fixedLeg), floatLeg.currency, floatLeg.notional,
                IndexOf(floatLeg), SpreadOf(floatLeg), start, end, NormalizeDayCount(fixedLeg.dayCountFraction),
                DirectionFromPayer(fixedLeg.payer, Receive))
  }

  function BuildProposal(c: Classification, start: int, end: int): Option<Proposal> {
    match c
    case AsIrs(f, l) => var p := BuildIrs(f, l, start, end); if p.None? then None else Some(IRS(p.value))
    case AsOis(f, l) => var p := BuildIrs(f, l, start, end); if p.None? then None else Some(OIS(p.value))
    case AsBasis(a, b) => var p := BuildBasis(a, b, start, end); if p.None? then None else Some(BASIS(p.value))
    case AsXccy(f, l) => Some(XCCY(BuildXccy(f, l, start, end)))
    case Unsupported => None
  }

  /** Parse, classify, build; None where one of them throws. */
  function Import(x: Patterns, streams: seq<Stream>): Option<Proposal> {
    var parsed := Parse(streams);
    if parsed.None? then None
    else BuildProposal(Classify(x, parsed.value), parsed.value.effective, parsed.value.termination)
  }

  function RoundTrip(x: Patterns, p: Proposal): Option<Proposal> { Import(x, BuildStreams(x, p)) }

  // ----- What a round trip does -----

  /** Every currency and index id of the proposal is non-empty. */
  predicate NonEmpty(p: Proposal) {
    match p
    case IRS(irs) => irs.currency != "" && irs.floatingRateId != ""
    case OIS(irs) => irs.currency != "" && irs.floatingRateId != ""
    case BASIS(b) => b.currency != "" && b.leg0IndexId != "" && b.leg1IndexId != ""
    case XCCY(c) => c.fixedCurrency != "" && c.floatCurrency != "" && c.floatIndexId != ""
  }

  predicate Mapped(dayCount: string) { dayCount in {"Act360", "Act365Fixed", "Basis30360"} }

  function DayCountOf(p: Proposal): string {
    match p
    case IRS(irs) => irs.dayCount
    case OIS(irs) => irs.dayCount
    case BASIS(b) => b.dayCount
    case XCCY(c) => c.dayCount
  }

  /** The proposal carries the tag the classifier gives its export. */
  predicate TagMatches(x: Patterns, p: Proposal) {
    match p
    case IRS(irs) => !x.overnight(irs.floatingRateId)
    case OIS(irs) => x.overnight(irs.floatingRateId)
    case BASIS(_) => true
    case XCCY(c) => c.fixedCurrency != c.floatCurrency
  }

  function KnownDayCount(dayCount: string): string { if Mapped(dayCount) then dayCount else "Act360" }

  function Vanilla(x: Patterns, p: IrsPayload): Proposal { if x.overnight(p.floatingRateId) then OIS(p) else IRS(p) }

  /** What a round trip turns a proposal into. */
  function Normal(x: Patterns, p: Proposal): Proposal {
    match p
    case IRS(irs) => Vanilla(x, irs.(dayCount := KnownDayCount(irs.dayCount)))
    case OIS(irs) => Vanilla(x, irs.(dayCount := KnownDayCount(irs.dayCount)))
    case BASIS(b) => BASIS(b.(dayCount := KnownDayCount(b.dayCount)))
    case XCCY(c) =>
      var dayCount := KnownDayCount(c.dayCount);
      if c.fixedCurrency != c.floatCurrency then XCCY(c.(dayCount := dayCount))
      else Vanilla(x, IrsPayload(c.fixedNotional, c.fixedCurrency, c.fixedRate, c.floatIndexId, c.floatSpread,
                                 c.startDate, c.maturityDate, dayCount, c.fixedDirection))
  }

  lemma DayCountRoundTrip(dayCount: string)
    ensures NormalizeDayCount(ToFpmlDayCount(dayCount)) == KnownDayCount(dayCount)
  {
    assert ToUpper("ACT/360") == "ACT/360";
    assert ToUpper("ACT/365.FIXED") == "ACT/365.FIXED";
    assert ToUpper("30/360") == "30/360";
  }

  lemma DirectionRoundTrip(d: Direction, default: Direction)
    ensures DirectionFromPayer(Some(PayerRef(d)), default) == d
  {
  }

  lemma ParseTwo(a: Stream, b: Stream)
    ensures ParseLegs([a, b]) == if ParseLeg(a).None? || ParseLeg(b).None? then None
        else Some([ParseLeg(a).value, ParseLeg(b).value])
  {
    hide ParseLeg;
    assert [a, b][1..] == [b] && [b][1..] == [];
    if ParseLeg(b).Some? {
      assert [ParseLeg(b).value] + [] == [ParseLeg(b).value];
      if ParseLeg(a).Some? {
        assert [ParseLeg(a).value] + [ParseLeg(b).value] == [ParseLeg(a).value, ParseLeg(b).value];
      }
    }
    assert ParseLegs([]) == Some([]);
    assert ParseLegs([b]) == if ParseLeg(b).None? then None else Some([ParseLeg(b).value]);
  }

  lemma ParseFixed(start: int, end: int, notional: real, currency: string, rate: real, dayCount: string, d: Direction)
    ensures ParseLeg(BuildFixedLeg(start, end, notional, currency, rate, dayCount, d))
            == if currency == "" then None
               else Some(ParsedLeg(currency, notional, FixedRate(rate), ToFpmlDayCount(dayCount), Some(PayerRef(d))))
  {
    hide ToFpmlDayCount, PayerRef;
  }

  lemma ParseFloat(start: int, end: int, notional: real, currency: string, indexId: string, spread: real,
                   dayCount: string, inArrears: bool, average: bool, d: Direction)
    ensures ParseLeg(BuildFloatLeg(start, end, notional, currency, indexId, spread, dayCount, inArrears, average, d))
            == if currency == "" || indexId == "" then None
               else
                 var compounding :=
                   if inArrears then Some("CompoundedInArrears")
                   else if average then Some("OvernightAverage")
                   else None;
                 Some(ParsedLeg(currency, notional, FloatRate(indexId, spread, compounding), ToFpmlDayCount(dayCount),
                                Some(PayerRef(d))))
  {
    hide ToFpmlDayCount, PayerRef;
  }

  lemma IrsRoundTrip(x: Patterns, p: IrsPayload, forced: bool)
    ensures Import(x, BuildIrsStreams(x, p, forced))
            == if p.currency != "" && p.floatingRateId != ""
                then Some(Vanilla(x, p.(dayCount := KnownDayCount(p.dayCount)))) else None
  {
    var d := p.fixedDirection;
    var inArrears := forced || x.overnight(p.floatingRateId);
    ParseFixed(p.startDate, p.maturityDate, p.notional, p.currency, p.fixRate, p.dayCount, d);
    ParseFloat(p.startDate, p.maturityDate, p.notional, p.currency, p.floatingRateId, p.floatingSpread, p.dayCount,
               inArrears, false, Opposite(d));
    var streams := BuildIrsStreams(x, p, forced);
    ParseTwo(streams[0], streams[1]);
    DayCountRoundTrip(p.dayCount);
    DirectionRoundTrip(d, Receive);
    hide NormalizeDayCount, ToFpmlDayCount, KnownDayCount, ParseLegs, ParseLeg, DirectionFromPayer, PayerRef, Opposite;
  }

  lemma BasisRoundTrip(x: Patterns, p: BasisPayload)
    ensures Import(x, BuildBasisStreams(x, p))
            == if p.currency != "" && p.leg0IndexId != "" && p.leg1IndexId != ""
                then Some(BASIS(p.(dayCount := KnownDayCount(p.dayCount))))
               else None
  {
    var d, i, j := p.leg0Direction, p.leg0IndexId, p.leg1IndexId;
    ParseFloat(p.startDate, p.maturityDate, p.notional, p.currency, i, p.leg0Spread, p.dayCount,
               x.overnight(i) && !x.fedFunds(i), x.fedFunds(i), d);
    ParseFloat(p.startDate, p.maturityDate, p.notional, p.currency, j, p.leg1Spread, p.dayCount,
               x.overnight(j) && !x.fedFunds(j), x.fedFunds(j), Opposite(d));
    var streams := BuildBasisStreams(x, p);
    ParseTwo(streams[0], streams[1]);
    DayCountRoundTrip(p.dayCount);
    DirectionRoundTrip(d, Pay);
    hide NormalizeDayCount, ToFpmlDayCount, KnownDayCount, ParseLegs, ParseLeg, DirectionFromPayer, PayerRef, Opposite;
  }

  lemma XccyRoundTrip(x: Patterns, p: XccyPayload)
    ensures Import(x, BuildXccyStreams(p)) == if NonEmpty(XCCY(p)) then Some(Normal(x, XCCY(p))) else None
  {
    var d := p.fixedDirection;
    ParseFixed(p.startDate, p.maturityDate, p.fixedNotional, p.fixedCurrency, p.fixedRate, p.dayCount, d);
    ParseFloat(p.startDate, p.maturityDate, p.floatNotional, p.floatCurrency, p.floatIndexId, p.floatSpread, p.dayCount,
               true, false, Opposite(d));
    var streams := BuildXccyStreams(p);
    ParseTwo(streams[0], streams[1]);
    DayCountRoundTrip(p.dayCount);
    DirectionRoundTrip(d, Receive);
    hide NormalizeDayCount, ToFpmlDayCount, KnownDayCount, ParseLegs, ParseLeg, DirectionFromPayer, PayerRef, Opposite;
  }

  /** A round trip normalises the proposal, and throws exactly when a currency or index id is empty. */
  lemma RoundTripNormalises(x: Patterns, p: Proposal)
    ensures RoundTrip(x, p) == if NonEmpty(p) then Some(Normal(x, p)) else None
  {
    hide Import, BuildIrsStreams, BuildBasisStreams, BuildXccyStreams, Vanilla, KnownDayCount;
    match p
    case IRS(irs) => IrsRoundTrip(x, irs, false);
    case OIS(irs) => IrsRoundTrip(x, irs, true);
    case BASIS(basis) => BasisRoundTrip(x, basis);
    case XCCY(xccy) => XccyRoundTrip(x, xccy);
  }

  lemma KnownIff(dayCount: string)
    ensures KnownDayCount(dayCount) == dayCount <==> Mapped(dayCount)
    ensures Mapped(KnownDayCount(dayCount))
  {
  }

  /**
   Import after export is the identity exactly on non-empty proposals with a mapped day count and the classifier's tag.
   */
  lemma IdentityIff(x: Patterns, p: Proposal)
    ensures RoundTrip(x, p) == Some(p) <==> NonEmpty(p) && Mapped(DayCountOf(p)) && TagMatches(x, p)
  {
    RoundTripNormalises(x, p);
    KnownIff(DayCountOf(p));
    hide RoundTrip, Mapped, KnownDayCount;
  }

  /** A second round trip changes nothing. */
  lemma RoundTripIdempotent(x: Patterns, p: Proposal)
    requires RoundTrip(x, p).Some?
    ensures RoundTrip(x, RoundTrip(x, p).value) == RoundTrip(x, p)
  {
    RoundTripNormalises(x, p);
    KnownIff(DayCountOf(p));
    IdentityIff(x, Normal(x, p));
    hide RoundTrip, Mapped, KnownDayCount;
  }

  lemma ImportedIsMapped(fraction: string)
    ensures Mapped(NormalizeDayCount(fraction))
  {
  }

  lemma {:induction false} ParsedNonEmpty(streams: seq<Stream>)
    requires ParseLegs(streams).Some?
    ensures forall l :: l in ParseLegs(streams).value ==>
                          l.currency != "" && (l.rate.FloatRate? ==> l.rate.indexId != "")
  {
    if streams != [] {
      ParsedNonEmpty(streams[1..]);
    }
  }

  /**
   What the builder makes of non-empty legs is non-empty, mapped, and tagged as the classifier would, except for one
   case.
   */
  lemma BuiltIsNormal(x: Patterns, parsed: Parsed, p: Proposal)
    requires forall l :: l in parsed.legs ==> l.currency != "" && (l.rate.FloatRate? ==> l.rate.indexId != "")
    requires BuildProposal(Classify(x, parsed), parsed.effective, parsed.termination) == Some(p)
    ensures NonEmpty(p) && Mapped(DayCountOf(p))
    ensures TagMatches(x, p) <==> !(p.IRS? && x.overnight(p.irs.floatingRateId))
  {
    assert |parsed.legs| == 2;
    var a, b := parsed.legs[0], parsed.legs[1];
    ImportedIsMapped(a.dayCountFraction);
    ImportedIsMapped(b.dayCountFraction);
    hide Mapped, NormalizeDayCount, DirectionFromPayer;
    assert a in parsed.legs && b in parsed.legs;
  }

  /** Exporting what was imported from any streams gives it back, unless an overnight index came without compounding. */
  lemma ReimportIff(x: Patterns, streams: seq<Stream>)
    requires Import(x, streams).Some?
    ensures var p := Import(x, streams).value;
            RoundTrip(x, p) == Some(p) <==> !(p.IRS? && x.overnight(p.irs.floatingRateId))
  {
    hide RoundTrip, ParseLegs, Classify, BuildProposal, NonEmpty, Mapped, TagMatches;
    ParsedNonEmpty(streams);
    var p := Import(x, streams).value;
    BuiltIsNormal(x, Parse(streams).value, p);
    IdentityIff(x, p);
  }

  // ----- An IRS on an overnight index -----

  const SOFR_ONLY := Patterns((id: string) => id == "SOFR", (id: string) => false)
  const SOFR_IRS := IrsPayload(100.0, "USD", 0.05, "SOFR", 0.0, 0, 365, "Act360", Receive)

  // The streams of the swap as another system may send them, with no compounding on the float leg.
  const PLAIN_STREAMS := [BuildFixedLeg(0, 365, 100.0, "USD", 0.05, "Act360", Receive),
                          BuildFloatLeg(0, 365, 100.0, "USD", "SOFR", 0.0, "Act360", false, false, Pay)]

  /** Exported as an IRS it comes back as an OIS. */
  lemma OvernightIrsChanges()
    ensures RoundTrip(SOFR_ONLY, IRS(SOFR_IRS)) == Some(OIS(SOFR_IRS))
  {
    RoundTripNormalises(SOFR_ONLY, IRS(SOFR_IRS));
    hide RoundTrip;
  }

  /** So does what was imported as an IRS from plain streams. */
  lemma PlainStreamsChange()
    ensures Import(SOFR_ONLY, PLAIN_STREAMS) == Some(IRS(SOFR_IRS))
    ensures RoundTrip(SOFR_ONLY, IRS(SOFR_IRS)) != Some(IRS(SOFR_IRS))
  {
    OvernightIrsChanges();
    ParseFixed(0, 365, 100.0, "USD", 0.05, "Act360", Receive);
    ParseFloat(0, 365, 100.0, "USD", "SOFR", 0.0, "Act360", false, false, Pay);
    ParseTwo(PLAIN_STREAMS[0], PLAIN_STREAMS[1]);
    DayCountRoundTrip("Act360");
    hide NormalizeDayCount, ToFpmlDayCount, ParseLegs, ParseLeg, RoundTrip;
  }
}
