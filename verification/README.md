# Verified model of the irsforge core

A Dafny model of four parts of the repository, and proofs about them.

1. **Settlement scheduler.** The trigger, settle-net and mature ticks run against a ledger of finite maps. An
   exercise may be refused, may commit, or may commit and lose its reply; queries may fail and return rows in any
   order. The claims hold over every run of serialised ticks, interrupted ones and activity of others included.
2. **Pricing engine**, in exact reals: civil dates and schedules, linear zero curves, compounded coupons, the
   IRS/OIS, basis, cross-currency and CDS strategies, bumps, risk figures, par rate, hedge notional, time shifts,
   and the root solver.
3. **Margin call path**: netting with orientation, threshold and gate, the decode of the signed balance, the
   publisher's decision to settle, its mirror in the app, and the coalesced tick that drives the publisher.
4. **Ledger health bus** and **FpML export and import**.

Exceptions are `None`/`Thrown` results. Ticks, methods of objects and loops are Dafny methods proved against
functions or predicates; the properties are lemmas about those.

## Layout

- Scheduler: `Ledger`, `LedgerClient`, `TriggerLifecycle`, `SettleNet`, `Mature`, `SchedulerRuns`, `FullTick`.
- Pricing: `Calendar`, `Schedule`, `Curves`, `Compounding`, `Pricing`, `Linearity`, `Bumps`, `Valuation`,
  `Spreads`, `RiskMetrics`, `Hedge`, `KeyRates`, `TimeDecomposition`, `RootSolver`.
- Margin: `Margin`, `MarkPublisher`, `CoalescedTick`. Others: `HealthBus`, `Fpml`. Shared: `Options`, `Numbers`,
  `Sorting`, `Directions`, `Parties`.

## What the proofs found

- A monthly schedule that starts on day 29 to 31 drifts off the month grid for good once a month is too short
  (`MonthEndDrifts`); `OnGridIffNoDrift` says exactly when.
- With a lookback above 0 every non-empty window of the compounded coupon weights days twice: the last fixing runs to
  the period end and a tail is added as well (`WeightsTileIffNoLookback`, `LookbackWeightsTwice`). The comment that the
  tail serves only forward periods holds for lookback 0.
- Higher fixings can lower a compounded coupon when the tail's growth factor is negative (`CompoundedMonotoneIff`,
  `NegativeTailFallsBack`).
- Freezing a curve keeps it only while each pillar it overtakes, and the one after, carries the first pillar's rate
  (`FreezeKeepsIff`, `ClampedCurveDiffers`).
- The off-chain gate calls itself a mirror of the contract's, but `Math.round` and `roundCommercial` differ exactly
  at negative half-way ties (`MirrorAgreesIff`, `MirrorMisses`). The off-chain gate always converges; the on-chain one
  does not at exact ties (`OnChainConvergesIff`, `OnChainDiverges`). Posting the deficit that the contract records
  therefore leaves the publisher a new call exactly at some negative ties (`PostedDeficitClosesIff`), and at half a
  rounding step it goes back and forth for ever (`HalfStepsAlternate`).
- Publisher and code comment disagree: the comment says a non-active agreement is never settled; the code settles
  whenever the state is `MarginCallOutstanding`. The model follows the code.
- Two CSAs over one pair of parties settle one effect twice (`SubmittedTwiceIffTwoCsas`, `TwoCsasSettleTwice`); the
  runs assume there is one.
- Once an index is loaded, the spread of an IRS or OIS float leg changes no value (`IndexedSpreadIgnored`); without
  one it is worth a fixed leg (`SpreadWorth`, `SpreadCountsWithoutIndex`).
- The reported par rate of a cross-currency swap is not a root (`XccyParMisses`); `ParRateIff` says when it is.
- `keyRateDv01` throws when the context curve mirrors a curve of the book but lacks one of its tenors, or when a
  projection filed under another's index id does (`KeyRatesIff`, `KeyRatesThrow`).
- Without a reporting currency, duration and convexity of a cross-currency swap divide by the reference leg's notional
  in that leg's own currency, while the NPV is in the first leg's (`ReferenceFactorIff`, `DollarsForEuros`); naming
  that same currency changes both figures by the conversion factor and no value (`DefaultedReporting`).
- Import after export is described as the identity. It is so exactly under `IdentityIff`; and a swap imported as IRS
  on an overnight index comes back as OIS (`ReimportIff`, `OvernightIrsChanges`, `PlainStreamsChange`).

## Assumptions

- One live swap per instrument, no swap covered by two CSAs, and the scheduler as the only one to change effects,
  batches, matured swaps and fixing events. Others may change swaps, CSAs and instruments between ticks, but open no
  swap on a retired instrument.
- Ticks are serialised. The three production crons are not, and nothing is claimed about interleaved reads.
- The choices on the ledger do what `Ledger.Commit` says, when `Ledger.Accepts` holds.
- Dates are whole civil days; an instant is its day and the rest of its text. Records keep insertion order
  and have unique keys.
- Currency codes and index ids survive printing and parsing of XML unchanged.

## Model
| member | source | states |
|---|---|---|
| SchedulerRuns.NoEffectSettledTwice | oracle/src/services/scheduler/settle-net.ts:43-131 | Over every run with refused, lost and successful calls, two positions in batches seen at any two moments that hold one effect id are the same position of the same batch |
| SchedulerRuns.RetiredStaysSettled | oracle/src/services/scheduler/mature.ts:29-111 | Once an instrument is retired, in every later state all its effects are settled and no live swap is on it, provided others open none on it |
| SchedulerRuns.OneFixingEventPerDate | oracle/src/services/scheduler/instrument-events.ts:27-61 | Fixing events for one date, seen at any two moments of a run, are one contract |
| SchedulerRuns.RunKeeps | oracle/src/services/scheduler/index.ts:47-57 | Every state of a run keeps the ledger invariant, and nothing settled, retired or created is ever lost or changed |
| SchedulerRuns.ExerciseKeeps | oracle/src/services/scheduler/settle-net.ts:43-46 | One exercise keeps the invariant whatever becomes of it, if it was safe when sent |
| SchedulerRuns.CallsDisjoint | oracle/src/services/scheduler/settle-net.ts:64-128 | Two netting calls of one tick that share an effect have the same CSA and event time |
| SettleNet.BinEffectsByTimestamp | oracle/src/services/scheduler/settle-net.ts:133-141 | The bins split the rows by event time: each time once, each bin exactly its rows in order |
| SettleNet.BuildEntries | oracle/src/services/scheduler/settle-net.ts:143-172 | One entry per swap, carrying exactly that swap's effects of the bin, reversed iff its party A is not the CSA's |
| SettleNet.EntriesMakeCall | oracle/src/services/scheduler/settle-net.ts:99-113 | The entries of a bin make one well-formed call: all of the bin, nothing else, nothing twice |
| SettleNet.SettleNetTick | oracle/src/services/scheduler/settle-net.ts:47-131 | Calls are well formed and differ in CSA or time; every due effect of a CSA is submitted or an error names the CSA; counters and errors match the calls sent |
| FullTicks.SubmittedExactlyDue | oracle/src/services/scheduler/settle-net.ts:84-113 | Where a CSA's due effects are all submitted, its calls submit an effect iff it is due for that CSA |
| FullTicks.SubmittedOnce | oracle/src/services/scheduler/settle-net.ts:64-128 | No effect is submitted at two places of a tick |
| FullTicks.SubmittedTwiceIffTwoCsas | oracle/src/services/scheduler/settle-net.ts:70-74 | Without the one-CSA assumption, an effect is submitted under two CSAs iff it is due for two |
| FullTicks.TwoCsasSettleTwice | oracle/src/services/scheduler/settle-net.ts:70-74 | A concrete ledger with two CSAs over one pair where a complete tick puts one effect into two batches |
| FullTicks.AcceptedIffTwoParties | contracts/src/Csa/Netting.daml:58-73 | A planned netting call passes the contract's orientation check iff the CSA's two parties differ |
| FullTicks.NothingDueAfter | oracle/src/services/scheduler/settle-net.ts:43-46 | After a tick whose calls all succeed nothing is due for any CSA |
| FullTicks.SecondTickFiresNothing | oracle/src/services/scheduler/settle-net.ts:43-46 | A settle-net tick right after such a tick sends no call |
| FullTicks.FullTickRetires | oracle/src/services/scheduler/tick.ts:14-32 | If every call succeeds, each live swap with a CSA and a known maturity at or before today is retired by the same full tick, effects it triggered included |
| FullTicks.RunFullTick | oracle/src/services/scheduler/tick.ts:23-32 | The three ticks in order keep the ledger invariant, and a clean run leaves no expired swap live |
| TriggerLifecycle.TriggerLifecycleTick | oracle/src/services/scheduler/trigger-lifecycle.ts:26-76 | Triggers go only to swaps without an effect dated today, each at most once, with an event of that day; every such swap is triggered or named in an error |
| TriggerLifecycle.EnsureFixingEventForDate | oracle/src/services/scheduler/instrument-events.ts:37-61 | The event returned exists for the date; one is created only when the day has none |
| TriggerLifecycle.EffectRowsAgree | oracle/src/services/scheduler/effect-discovery.ts:22-32 | The check over the queried rows answers for the ledger |
| Maturing.MatureTick | oracle/src/services/scheduler/mature.ts:43-111 | Only swaps not yet matured, past a known maturity and with all effects settled are retired, each at most once, and every such swap is attempted; counters and errors account for every swap |
| Maturing.FetchAllMaturityDates | oracle/src/services/scheduler/instrument-maturity.ts:18-45 | The map holds exactly the instruments of the five families with a maturity, each with one of its own |
| LedgerClients.LedgerClient.Exercise | oracle/src/services/scheduler/settle-net.ts:102-120 | A call the ledger does not accept is refused; a contract id comes back iff it committed and was reported |
| Schedules.GenerateScheduleDates | shared-pricing/src/engine/cashflows.ts:34-47 | Terminates and returns the specified dates |
| Calendar.AddMonthsIsMakeDay | shared-pricing/src/engine/cashflows.ts:28-32 | A month step lands on the valid date that MakeDay (section 21.4.1 of ECMA-262) denotes |
| Calendar.AddMonthsMoves | shared-pricing/src/engine/cashflows.ts:28-32 | k month steps move at least 28 * k days |
| Calendar.MonthsTile | shared-pricing/src/engine/cashflows.ts:28-32 | Each month starts where the previous one ends, leap years included |
| Schedules.ScheduleAscends | shared-pricing/src/engine/cashflows.ts:41-46 | Dates strictly increase inside (start, end], at least 28 days per month apart |
| Schedules.ScheduleSteps | shared-pricing/src/engine/cashflows.ts:41-46 | Each date is one step on from the one before, and one more step would pass the end |
| Schedules.OnGridIffNoDrift | shared-pricing/src/engine/cashflows.ts:28-47 | The i-th date is start plus i steps for all i iff overflow never changes from one month to the next |
| Schedules.EarlyStartOnGrid | shared-pricing/src/engine/cashflows.ts:28-47 | A start on day 28 or before is always on the grid |
| Schedules.MonthEndDrifts | shared-pricing/src/engine/cashflows.ts:28-47 | A concrete month-end start that leaves the grid |
| Schedules.CalcFixedCashflows | shared-pricing/src/engine/cashflows.ts:49-68 | One coupon per period, over exactly the period |
| Schedules.FixedLegTotal | shared-pricing/src/engine/cashflows.ts:49-68 | The coupons add up to one coupon from the start to the last date, under all four day counts |
| Schedules.YearFractionAdds | shared-pricing/src/engine/day-count.ts:6-33 | Year fractions of adjoining periods add up |
| Curves.LinearZero | shared-pricing/src/engine/curves.ts:23-36 | The loop returns the weighted sum of pillar rates, and divides by zero exactly on an enclosing segment without length |
| Curves.SortedIsDefined | shared-pricing/src/engine/curves.ts:28-34 | On sorted tenors, repeats allowed, it never divides by zero |
| Curves.SortedFindsSegment | shared-pricing/src/engine/curves.ts:28-35 | On sorted tenors the last fallback is not reached |
| Curves.WeightsPartition | shared-pricing/src/engine/curves.ts:23-36 | The weights are non-negative and add up to 1 |
| Curves.RateWithinPillars | shared-pricing/src/engine/curves.ts:23-36 | The rate lies within any bounds on the pillar rates |
| Curves.ParallelBumpIsExact | shared-pricing/src/engine/bump-parallel.ts:15-17 | A parallel bump moves the rate at every tenor by exactly bp |
| Curves.PillarBumpIsWeighted | shared-pricing/src/risk/bump.ts:22-30 | A one-pillar bump moves the rate at a tenor by bp times the pillar's weight there |
| Curves.KeyRateBumpsAddUp | shared-pricing/src/risk/bump.ts:22-30 | The effects of bumping each pillar alone add up, at every tenor, to the parallel bump |
| Curves.FrozenCurveIsSameCurve | shared-pricing/src/risk/time.ts:85-96 | While every pillar stays a day away, the frozen curve at t is the old one at t plus the shift |
| Curves.ClampedCurveDiffers | shared-pricing/src/risk/time.ts:91-94 | A concrete curve with an overtaken pillar for which it is not |
| Curves.FreezeKeepsIff | shared-pricing/src/risk/time.ts:85-96 | For ascending pillars, it is that curve at every t iff the rates are flat around each pillar overtaken |
| Compounding.CalcCompoundedCashflow | shared-pricing/src/engine/cashflows.ts:93-127 | The loop computes the specified compounded coupon |
| Compounding.OrderDoesNotMatter | shared-pricing/src/engine/cashflows.ts:97 | On distinct dates the coupon does not depend on the order of the observations |
| Compounding.NoLookbackTiles | shared-pricing/src/engine/cashflows.ts:99-124 | With lookback 0 the fixings of a non-empty window cover first fixing to period end exactly once, with no tail |
| Compounding.WeightsTileIffNoLookback | shared-pricing/src/engine/cashflows.ts:99-124 | The fixings of a non-empty window alone span first fixing to period end; weights and tail together cover those days exactly once iff the lookback is 0 |
| Compounding.LookbackWeightsTwice | shared-pricing/src/engine/cashflows.ts:107-124 | A concrete window with lookback 1 that weights a day twice |
| Compounding.EmptyWindowIsForward | shared-pricing/src/engine/cashflows.ts:117-126 | With no fixing in the window the coupon is one simple forward period |
| Compounding.CompoundedMonotoneIff | shared-pricing/src/engine/cashflows.ts:107-126 | With non-negative floored rates, raising fixings or the floor does not lower the factor iff the tail factor is not negative or the accrual is unchanged |
| Compounding.CouponMonotoneIff | shared-pricing/src/engine/cashflows.ts:93-127 | The same for the coupon of unsorted observations, reversed for a negative notional |
| Compounding.NegativeTailFallsBack | shared-pricing/src/engine/cashflows.ts:117-126 | Concrete fixings and curve where higher fixings lower the factor |
| Compounding.CompoundedBeatsSimple | shared-pricing/src/engine/cashflows.ts:93-127 | For every lookback and window, non-negative floored rates and tail rate make it at least simple interest over the same day weights plus that of the tail |
| Pricing.CalcFloatCashflows | shared-pricing/src/engine/cashflows.ts:129-157 | The loop pays, per period, the forward rate of its middle plus the spread |
| Pricing.CompoundedCoupons | shared-pricing/src/engine/strategies/xccy.ts:93-118 | The coupon loop pays each period's compounded coupon, with or without a spread |
| Pricing.PricesIff | shared-pricing/src/engine/price.ts:59-72 | Pricing succeeds iff there is a reporting currency and, for cross-currency swaps, curves and a spot rate for every leg |
| Linearity.NpvScales | shared-pricing/src/engine/price.ts:59-72 | Scaling every notional by k scales the NPV by k for IRS, OIS, BASIS, XCCY and CDS; it throws when the swap does |
| Linearity.LegPVScales | shared-pricing/src/engine/price.ts:62-71 | The same for every leg's value |
| Linearity.CashflowsScale | shared-pricing/src/engine/strategies/cds.ts:23-52 | Every strategy's cashflows keep their dates and tags and scale in amount |
| Linearity.FlipNegates | shared-pricing/src/engine/price.ts:55-71 | Flipping every direction negates the NPV |
| Spreads.IndexedSpreadIgnored | shared-pricing/src/engine/strategies/irs.ts:40-65 | With an index loaded, no spreads on float legs change the NPV of an IRS or OIS |
| Spreads.SpreadWorth | shared-pricing/src/engine/strategies/irs.ts:40-65 | For IRS and OIS without an index, and for BASIS and XCCY, a changed spread is worth exactly a fixed leg at the difference; else nothing |
| Spreads.SpreadCountsWithoutIndex | shared-pricing/src/engine/strategies/irs.ts:40-42 | A concrete IRS without an index whose NPV moves with its spread |
| Linearity.SortedValue | shared-pricing/src/engine/strategies/xccy.ts:56-57 | Sorting cashflows by date does not change their value |
| Linearity.XccyValue | shared-pricing/src/engine/strategies/xccy.ts:51-76 | A cross-currency leg is worth its principal exchange plus its coupons |
| Valuation.PriceIsNpv | shared-pricing/src/engine/price.ts:105-121 | price().npv equals priceWithContext, and price throws on the same swaps, risk figures included |
| Valuation.ParRateIsRoot | shared-pricing/src/engine/price.ts:123-141 | For IRS, OIS, BASIS and CDS the swap repriced at a reported par rate is worth exactly 0 |
| Valuation.ParRateIff | shared-pricing/src/engine/price.ts:123-141 | For every type, the repriced value times the fixed leg's equals principal value times NPV, so it is 0 iff one of these is |
| Valuation.XccyParMisses | shared-pricing/src/engine/strategies/xccy.ts:51-54 | A concrete cross-currency swap, discounted as curves.ts does, not worth 0 at its par rate |
| RiskMetrics.PriceScales | shared-pricing/src/engine/price.ts:74-103 | For k > 0 times the swap, values and DV01 scale, par rate, duration and convexity stay |
| RiskMetrics.PriceFlips | shared-pricing/src/engine/price.ts:74-103 | The other side has opposite values, duration and convexity, and the same DV01 and par rate |
| RiskMetrics.ReferenceFactorIff | shared-pricing/src/engine/price.ts:81-90 | Without a reporting currency the reference leg is left unconverted, which agrees with its value's conversion iff the leg is in that currency or quoted at 1 |
| RiskMetrics.DefaultedReporting | shared-pricing/src/engine/price.ts:81-103 | Naming the default reporting currency keeps NPV, leg values, DV01 and par rate, and divides duration and convexity by the conversion factor |
| RiskMetrics.DollarsForEuros | shared-pricing/src/engine/price.ts:81-90 | A concrete swap reported in euros whose reference notional is the dollar amount |
| Bumps.ShiftBookAll | shared-pricing/src/engine/bump-parallel.ts:19-32 | The nested loops shift every pillar of every projection, and of every discount curve if asked to, and keep keys and order |
| Bumps.EnumeratePillars | shared-pricing/src/risk/metrics.ts:37-73 | The loops list exactly the pillars of the curves of the currencies the swap touches, in order |
| Bumps.ParallelPriceable | shared-pricing/src/engine/bump-parallel.ts:34-40 | A parallel bump never changes whether pricing throws |
| Hedging.MeasureScales | shared-pricing/src/solver/hedge-notional.ts:23-39 | DV01, basis DV01 and key-rate DV01 are linear in the notionals, throwing cases included |
| Hedging.HedgeIsNeutralIff | shared-pricing/src/solver/hedge-notional.ts:41-56 | Among all multiples of the hedge, target plus hedge measure is 0 iff the leg-0 notional is the returned one |
| Hedging.HedgeCancels | shared-pricing/src/solver/hedge-notional.ts:41-56 | Scaled to the returned notional, target plus hedge measure is exactly 0 |
| KeyRates.EnumeratedBumpsIff | shared-pricing/src/risk/bump.ts:32-79 | An enumerated pillar can be bumped iff the projections its id names have the tenor and so has the context curve where it mirrors that kind |
| KeyRates.KeyRatesIff | shared-pricing/src/risk/metrics.ts:75-88 | Key rates of a priceable swap can be computed iff that holds for every enumerated pillar |
| KeyRates.KeyRatesThrow | shared-pricing/src/risk/metrics.ts:75-88 | A concrete priceable swap and book for which key rates throw |
| KeyRates.OtherIndexUnmoved | shared-pricing/src/engine/strategies/basis-swap.ts:26-30 | Bumping a projection pillar leaves every fixed and protection leg, and every float leg on another index, at its value while the discount curve stays |
| TimeDecomposition.FindNextEvent | shared-pricing/src/risk/time.ts:36-66 | The loops find the specified next event |
| TimeDecomposition.NextEventIsEarliest | shared-pricing/src/risk/time.ts:36-66 | It is the earliest future date of its kind, missing only when none is left; with no fixing left it is the earliest payment |
| TimeDecomposition.HorizonIsFuture | shared-pricing/src/risk/time.ts:68-83 | Every resolved horizon lies after the value date |
| TimeDecomposition.AdvanceContext | shared-pricing/src/risk/time.ts:98-126 | The loops shift every curve of the context and book, or throw for an earlier day |
| TimeDecomposition.ThetaPlusRoll | shared-pricing/src/risk/time.ts:161-192 | NPV today, settled flows filtered, plus theta plus roll is forwardNpv, for every horizon; all are defined iff the horizon resolves and the swap can be priced |
| TimeDecomposition.FreezeKeepsForwards | shared-pricing/src/risk/time.ts:85-96 | While every pillar stays a day away, freezing changes no forward coupon |
| TimeDecomposition.LinearEngineInterpolates | shared-pricing/src/engine/curves.ts:3-21 | The engine of linear curves is an instance of what that assumes |
| RootSolver.Bisect | shared-pricing/src/solver/newton.ts:28-62 | Refuses iff there is no sign change; the point is within (hi - lo) / 2^iterations of both ends of a sign change inside the bracket; residual is f there |
| RootSolver.ExpandBracket | shared-pricing/src/solver/newton.ts:64-83 | Returns a sign-changing doubled bracket around x0, or none of the brackets tried has one |
| RootSolver.SolveNewton | shared-pricing/src/solver/newton.ts:85-163 | Converged iff abs(f(root)) is within tolerance; residual is f(root); a bisected root is enclosed; every trace sample is on the graph; evaluations and iterations are bounded by the options |
| RootSolver.BracketReaches | shared-pricing/src/solver/newton.ts:137 | The number of doublings reaches the widest bracket asked for |
| Margin.GateConverges | oracle/src/services/mark-publisher/formula.ts:21-26 | For mta and rounding at least 0, the gate of what a gated transfer leaves is 0, and what it leaves is at most max(mta, rounding / 2) |
| Margin.PostedDeficitClosesIff | contracts/src/Csa/Csa.daml:268-294 | After the deficit that SettleVm records is posted, at an unchanged exposure, the publisher's call is 0 except exactly at negative unsuppressed ties with mta at most half a step |
| Margin.HalfStepsAlternate | contracts/src/Csa/Csa.daml:63-95 | At a shortfall of half a step, posting the whole deficit twice returns to the start |
| Margin.GateMonotone | oracle/src/services/mark-publisher/formula.ts:21-26 | A larger shortfall is never called for less |
| Margin.CallsReachMinimum | oracle/src/services/mark-publisher/formula.ts:21-26 | If rounding divides mta, every non-zero call is at least mta |
| Margin.GateNegatedIff | oracle/src/services/mark-publisher/formula.ts:21-26 | The gate is odd except exactly at half-way ties that are not suppressed |
| Margin.GateNotOdd | oracle/src/services/mark-publisher/formula.ts:21-26 | Concrete opposite shortfalls with calls of 10000 and 0 |
| Margin.MirrorAgreesIff | contracts/src/Csa/Math.daml:39-45 | The off-chain gate equals the contract's except exactly at negative half-way ties that are not suppressed |
| Margin.MirrorMisses | contracts/src/Csa/Math.daml:39-45 | A concrete shortfall the two gates call differently |
| Margin.OnChainConvergesIff | contracts/src/Csa/Math.daml:39-45 | Exactly when the contract's gate converges |
| Margin.OnChainDiverges | contracts/src/Csa/Math.daml:39-45 | A concrete shortfall that a transfer gated on chain turns into its opposite |
| Margin.OneSideRequired | oracle/src/services/mark-publisher/formula.ts:10-19 | At most one side is required, and only past its own threshold |
| Margin.ExposureRelabelled | oracle/src/services/mark-publisher/netting-set.ts:17-37 | Swapping a CSA's parties negates the exposure of any set of workflows in either orientation |
| Margin.RelabellingNegates | oracle/src/services/mark-publisher/compute.ts:43-57 | It negates target and raw call too, and the gated call except exactly at ties |
| MarkPublisher.DecodeCsa | oracle/src/services/mark-publisher/decode.ts:33-80 | Fails exactly on a field of the wrong shape or a missing direction; else splits every signed balance into two sides of which at most one is positive |
| MarkPublisher.DecodedBalance | app/src/features/csa/decode.ts:53-63 | postedByA minus postedByB is the signed ledger balance of every currency |
| MarkPublisher.CsaPublisher.PublishAndMaybeSettle | oracle/src/services/mark-publisher/publisher.ts:25-93 | Publishes first and once; settles iff the state is neither disputed nor escalated and the call is non-zero or the state not Active |
| MarkPublisher.AppAndOracleAgree | app/src/features/csa/call-amount.ts:16-32 | Both read the call the signed balance asks for; the app's signal is null iff it is 0, else its side and size |
| CoalescedTicks.CoalescedTick.Trigger | oracle/src/services/mark-publisher/coalesced-tick.ts:51-67 | The new state is the machine's trigger step |
| CoalescedTicks.CoalescedTick.TickEnds | oracle/src/services/mark-publisher/coalesced-tick.ts:42-48 | The new state is the machine's end step |
| CoalescedTicks.OneTickAtATime | oracle/src/services/mark-publisher/coalesced-tick.ts:6-10 | Over every history, between two starts a tick ends, running means an unended start, and no timer is armed meanwhile |
| CoalescedTicks.NoTriggerLost | oracle/src/services/mark-publisher/coalesced-tick.ts:51-67 | Every accepted trigger is followed by a start, still pending, or cancelled by a stop |
| CoalescedTicks.StartsNeedTriggers | oracle/src/services/mark-publisher/coalesced-tick.ts:9-10 | Starts, the armed timer and the queued follow-up never outnumber accepted triggers |
| CoalescedTicks.TriggerBetweenStarts | oracle/src/services/mark-publisher/coalesced-tick.ts:9-10 | Between two starts there is an accepted trigger |
| CoalescedTicks.StartAfterQuiet | oracle/src/services/mark-publisher/coalesced-tick.ts:58-66 | A start comes at least the window after every trigger accepted before it |
| CoalescedTicks.StartFollowsArming | oracle/src/services/mark-publisher/coalesced-tick.ts:58-66 | A start directly follows, by the window, the trigger or tick end that armed it |
| CoalescedTicks.StopIsFinal | oracle/src/services/mark-publisher/coalesced-tick.ts:69-75 | No tick starts after a stop, and nothing stays armed |
| HealthBus.LedgerHealthBus.RecordSuccess | app/src/shared/ledger/health-bus.ts:72-96 | The new state is the bus's success step |
| HealthBus.LedgerHealthBus.RecordFailure | app/src/shared/ledger/health-bus.ts:98-107 | The new state is the bus's failure step |
| HealthBus.HealthIsDeclared | app/src/shared/ledger/health-bus.ts:44-54 | Over every history, the label equals the one declared on all calls so far: idle, down, reconnecting or live |
| HealthBus.TimerIffWindow | app/src/shared/ledger/health-bus.ts:133-151 | A timer is armed iff a reconnecting window is set, for that window's end |
| HealthBus.TimerDueAtWindowEnd | app/src/shared/ledger/health-bus.ts:139-150 | Where no call is reported later than the window's length after it happened, the callback is due at the window's end |
| Fpml.RoundTripNormalises | app/src/features/fpml-export/build-xml.ts:115-213 | A round trip throws iff a currency or index id is empty, and otherwise yields the stated normal form, directions kept |
| Fpml.IdentityIff | app/src/features/fpml-import/build-proposal.ts:35-45 | It is the identity iff ids are non-empty, the day count is mapped and the tag is the classifier's |
| Fpml.OvernightIrsChanges | app/src/features/fpml-import/build-proposal.ts:35-45 | A concrete IRS proposal on an overnight index comes back as OIS |
| Fpml.RoundTripIdempotent | app/src/features/fpml-import/build-proposal.ts:45-170 | A second round trip changes nothing |
| Fpml.ReimportIff | app/src/features/fpml-import/classify.ts:18-126 | Exporting what was imported from any streams gives it back unless it is an IRS on an overnight index |
| Fpml.PlainStreamsChange | app/src/features/fpml-import/classify.ts:18-126 | Concrete streams imported as that IRS, which a round trip changes |
| Fpml.BuiltIsNormal | shared-pricing/src/fpml/classify.ts:16-52 | What the classifier and builder make of parsed legs is non-empty, mapped and rightly tagged, but for that case |

## Left out
- Floating-point rounding, NaN and infinity: exact reals instead; the NaN of a zero-length curve segment is `None`, and the engine's curve lookups are total.
- exp and log: the exponential is a parameter, and the LogLinearDF interpolation is not modelled. Curve lookups are parameters of the engine; `Pricing.LinearEngine` is the one for linear curves, where an infinite discount factor is written 0.
- Annotations on cashflows (discountFactor, projectedRate): they are written but not read by what is modelled.
- Holdings, setup contract ids and observation ids passed along with the scheduler's exercises, and the choices' own settlement arithmetic.
- Interleaved cron ticks, HTTP, the JSON API, logging, configuration, React and CSV code.
- Listeners of the health bus and its reset for tests.
- Horizons of a part of a day, time zones and daylight saving: whole days only.
- carry, which adds up flows without their direction, and attribution, which sums to its total by the definition of its residual.
- CCY, FX, ASSET and FpML pricing strategies, credit01, fxDelta and crossIndexBasisDv01: they would only add easy members.
- XML text: export and import work on the element tree; date text is a whole day, and upper-casing covers ASCII.
- The stored snapshot and replay of marks.
- SchedulerRuns.RunKeeps: assumes WellFormed of the swaps and CSAs others leave behind, because the ledger does not enforce one CSA per pair.
