# Surge: verified models of the evidence gate, the learner, the simulator and the trader

Surge decides when a trading signal has earned trust, learns nightly probabilities from its own
past, replays strategies over archives, and runs a paper or human-gated live account. This project
models the parts of it where a mistake would be silent, and proves what those parts promise.

## What is modelled

**Evidence (`Martingale`, `EProcess`, `WarmStart`, `Envelope`, `Pooling`, `PooledEvidence`, `PooledPeeking`,
`ForwardRecord`, `Betting`, `BettingGrowth`, `BettingValidity`).** The evidence gate multiplies up a test martingale and lets the operator look
at it every day. The code adds logarithms; the model multiplies, so a running product replaces `log_e`. Probability is a recursion
over the tree of histories: a law gives, after every history, a finite distribution of the next
observation, and `Expect` and `Prob` fold that tree to any horizon. Optional stopping and Ville's
inequality are proved for any process that drifts by at most `c` a step, then used for the binary
process (with and without a warm start), for its threshold-crossing time, for the value the pooled
test returns along a schedule of reports, and for the winsorized betting capital.

**Learning (`Calibration`, `WalkForward`, `Emissions`).** The flat engine refits every few sessions and keeps an
online ledger of how often each conviction band was right; the stacked engine trains a judge on
several such engines. Training and scoring are opaque functions, so every statement holds for any
estimator. Each loop is proved equal to a specification that recounts everything from scratch, and
two-run lemmas say what an emission cannot depend on.

**Simulation (`Backtest`, `BacktestInvariants`, `BacktestTrades`, `BacktestSolvency`,
`BacktestBrackets`, `BacktestSizing`).** The day-by-day simulator with queued entries, bracket exits, cash and an equity curve. A strategy is any
function of the visible history.

**Trading (`Ledger`, `Risk`, `RiskSizing`, `Trading`, `TradingMoney`, `TradingRules`, `TradingSafety`, `TradingLimits`,
`TradingSlippage`, `TradingExposure`, `TradingAudit`, `TrailingStop`).** The tables of one trading mode are the fields of
`Store`; order execution, exits, cycles and the kill switch are methods of `TradingEngine` that change
them, each proved equal to a function of the old tables. Runs are arbitrary sequences of cycles,
kill-switch triggers and resets; `TradingRules` reduces what a run keeps to what one close, one new
stop and one decision keep.

**Smaller cores (`Auc`, `Migration`, `Learn`, `LearnCoverage`).** Ranking by sorting and bisection, the in-place
table upgrade that may be killed after any statement, and the registration of hypotheses.

Numbers are exact reals. Prices, decisions of the committee, fitted models, strategies and loss
baselines are inputs. `Tick.prices` holds the last prices a cycle kept, so symbols without a
(nonzero) quote are simply absent from it.

## Where the code departs from its documentation

The model follows the code; each point has a lemma.

- The bet is capped at 1 - 1e-6 after it is raised to the baseline. Above that baseline the process
  is no longer valid "for all p <= p0": `ValidExactlyBelowCap`, `FalseAlarmExactlyBelowCap`.
- A warm start resumes the flat test only after a record that holds both wins and losses,
  `WarmStartResumes`; a replay rate of exactly 0 or 1 warms toward one half instead, `DegenerateRateIsHalf`.
- The floor of 1e-12 under the betting capital can lift it. One step keeps the promised mean exactly
  when the worst accepted return would not meet the floor: `StepValidExactlyAboveFloor`, with
  `FloorLiftsMean` as a witness. In general the capital is a supermartingale up to 1e-12 a step:
  `ReturnsValidUnderAnyStoppingRule`; with the default rules the floor cannot fire within 39 returns:
  `ValidUpTo39`.
- Returns below `lo` are skipped, so the kept returns, not the raw ones, are the subject of the null
  hypothesis. The two agree exactly when nothing can be skipped: `RawMeanFairExactly`, witness
  `SkippingLiftsMean`.
- The pooled record is sorted by date only, with ties in the order of the streams, so a report can come in
  behind one already counted; the record grows by appending exactly as `PoolGrowsExactly` says. Looking at
  the pooled value after every session is therefore not safe "for any adapted sequence": it is safe exactly
  when no report is dated before an earlier one, nor on the same date as an earlier one of a later stream,
  `PeekingSafeExactly`. `SecondPairFirst` is a witness with two pairs and one date.
- The baseline of a pair's forward record is the majority over the whole record. A new label that turns the
  majority inverts every earlier coin: `EarlierKeptExactly`, `TurnInvertsCoins`, witness `MissRewritesRecord`.
- A position whose remainder is at most 1e-9 shares is closed without booking it: `FillLeaksExactly`,
  witness `FractionalSharesLeak`.
- The simulator's cash check ignores the commission: cash is safe exactly without one,
  `SolventExactlyWithoutCommission`, and otherwise bounded below by the commissions paid, `RunSolvent`.
- Entries fill at the open but are sized with the same day's closes of what is held, entries filled a moment
  earlier included. An entry does not depend on those closes exactly when it cannot be filled anyway or nothing
  held trades that day, `DecidedAtOpenExactly`, witness `SecondEntrySeesClose`.
- The position cap applies to each order, not to what is held: it bounds a holding exactly when the
  symbol is new, `CapBoundsHoldingExactly` and, judged by the account's own equity, `HoldingCapKeptExactly`;
  witness `CapIsPerOrder`.
- The at-risk limit is checked for the new shares at the reference price, while the fill slips and its stop
  replaces the old one for the whole holding: the limit survives an approved buy exactly when the symbol is
  new and nothing slips, `RiskLimitKeptExactly`, witness `HeldSymbolBreaksBudget` (no slippage, the
  repository's own limits).
- The cash check uses the reference price, the fill adds slippage: cash is kept exactly without
  slippage, `CashKeptExactlyWithoutSlippage`, witness `SlippageOverdraws`; over runs the damage is
  bounded by `RunLimited`.

## Model

| member | source | states |
|---|---|---|
| `Martingale.OptionalStopping` | src/surge/duel/verify.py:10-19 | A process whose one-step mean rises by at most c never has mean above its start plus n·c under any rule that looks only at the past |
| `Martingale.Ville` | src/surge/verdict.py:49-55 | A nonnegative such process reaches 1 with probability at most its start plus the accumulated drift |
| `Martingale.HitProbability` | src/surge/verdict.py:49-55 | The probability that a nonnegative process reaches `thr` within n observations is at most start/thr plus drift |
| `Martingale.FirstHitIsLeast` | src/surge/duel/verify.py:84-102 | The reported hit is the least prefix length at which the threshold holds, and none is reported only if no prefix reaches it |
| `Martingale.FirstHitPersists` | src/surge/duel/verify.py:84-102 | More observations never change a hit already reported |
| `EProcess.WarmstartEvalue` | src/surge/duel/verify.py:54-81 | The loop returns 0 on a missing or degenerate baseline or an empty record, else the product of the predictable bets' factors |
| `EProcess.SessionsToCross` | src/surge/duel/verify.py:84-102 | The early-exit loop returns exactly the first hit of that product |
| `EProcess.FirstCrossIsLeast` | src/surge/duel/verify.py:84-102 | That number is the least prefix length whose returned e-value reaches `thr`; none is returned iff no prefix does |
| `EProcess.EvalueBernoulli` | src/surge/verdict.py:45-84 | The flat e-value equals the warmed one with prior weight 0, step for step, whatever prior rate is supplied |
| `EProcess.PhatRange` | src/surge/duel/verify.py:73-75 | The bet lies in [p0, 1 - 1e-6] while the baseline leaves room for it, and is pinned to 1 - 1e-6 below the baseline otherwise |
| `EProcess.FairFactor` | src/surge/verdict.py:73-82 | A bet at or above the baseline has mean factor at most 1 for every win rate up to the baseline |
| `EProcess.ProcessPositive` | src/surge/duel/verify.py:71-81 | Evidence stays positive, so its logarithm exists at every step |
| `EProcess.ProcessDrifts` | src/surge/duel/verify.py:12-19 | Under every history-dependent win probability up to p0 the process is a supermartingale, for any prior |
| `EProcess.ValidUnderAnyStoppingRule` | src/surge/duel/verify.py:12-19 | Stopped by any rule that sees only the past, mean evidence is at most 1 at every horizon |
| `EProcess.FalseAlarmBound` | src/surge/duel/verify.py:84-102 | The total probability of records on which `sessions_to_cross` returns a number is at most 1/thr |
| `EProcess.ValidExactlyBelowCap` | src/surge/duel/verify.py:73-75 | Mean e-value at most 1 for every null law and horizon n iff n is 0 or p0 is at most 1 - 1e-6 |
| `EProcess.FalseAlarmExactlyBelowCap` | src/surge/duel/verify.py:96-102 | The 1/thr bound holds for all thresholds, null laws and horizons iff p0 is at most 1 - 1e-6 |
| `EProcess.SureLossesGrow` | src/surge/duel/verify.py:75-79 | With p0 above the cap, certain losses make the evidence strictly grow |
| `EProcess.CertainAlarm` | src/surge/duel/verify.py:96-101 | With p0 above the cap, some threshold above 1 is crossed with certainty after one sure loss |
| `WarmStart.WarmStartResumes` | src/surge/duel/verify.py:54-81 | A warm start with the rate and length of a training record (holding both wins and losses) is the flat test resumed after it: training evidence times warmed evidence is the flat evidence of both records |
| `WarmStart.WarmEvalueResumes` | src/surge/duel/verify.py:66-81 | The same for the value the function returns |
| `WarmStart.WarmCrossingResumes` | src/surge/duel/verify.py:84-102 | The warmed crossing of thr is the first session at which the flat evidence of both records is thr times the training record's |
| `WarmStart.RateIsWeighted` | src/surge/duel/verify.py:67-75 | With prior rate r and weight n the running rate is that of n more outcomes, won at rate r |
| `WarmStart.DegenerateRateIsHalf` | src/surge/duel/verify.py:67 | An absent rate, or one outside (0, 1), warms toward one half, in value and in crossing |
| `WarmStart.ReplayWarmsTowardItsRate` | src/surge/duel/verify.py:175 | Rate 0.6, weight 15: a first win is worth 1.1875, a first loss 0.8125 |
| `Envelope.PhiLoss` | src/surge/verdict.py:57-61 | The Krichevsky-Trofimov weight of w wins and l losses does not depend on their order |
| `Envelope.FlatBound` | src/surge/verdict.py:69-84 | Against a fair coin, in any order, w >= l wins show at most Phi(w,l)/Phi(l,l) and fewer show at most 1, while the cap is idle |
| `Envelope.NoFalseEvidence` | src/surge/verdict.py:73-77 | A record whose wins do not exceed its losses has e-value at most 1 in every order |
| `Envelope.ShortRecordsIdle` | src/surge/verdict.py:78 | The cap cannot bind on the first 500,000 outcomes |
| `Envelope.FlatBoundAttained` | src/surge/verdict.py:69-84 | Losses first, then wins attain the bound exactly |
| `Pooling.PooledPairedEvalue` | src/surge/duel/verify.py:105-120 | Merging, sorting and filtering in place yields the warmed e-value of the pooled coin stream |
| `Pooling.SortIsStable` | src/surge/duel/verify.py:117 | The sort is chronological and keeps each date's sessions in their order |
| `Pooling.StableSortUnique` | src/surge/duel/verify.py:117 | Only one sequence is chronological and stable, so the model's sort is the built-in one |
| `Pooling.SortCommutes` | src/surge/duel/verify.py:117-119 | Sorting by date commutes with dropping the sessions on which both agree |
| `Pooling.PooledCount` | src/surge/duel/verify.py:191-201 | The pooled stream has exactly as many coins as the separate records have disagreements |
| `Pooling.PairedEvalue` | src/surge/verdict.py:135-147 | Unequal lengths are refused; otherwise the flat e-value of the discordant outcomes, 0 when there are none |
| `Pooling.NeverBothBetter` | src/surge/verdict.py:135-147 | Strategy and baseline never both show evidence above 1 against each other on the same sessions |
| `Pooling.DiscordantLead` | src/surge/verdict.py:135-147 | Among the sessions that differ, won less lost is the strategy's hits less the baseline's |
| `Pooling.PairedEvidenceBeatsBaseline` | src/surge/verdict.py:135-147 | On records of up to 500,000 sessions the paired test exceeds 1 only for a strategy that was right more often than its baseline |
| `Pooling.FirstDifferenceDecides` | src/surge/duel/verify.py:117 | Dates are compared by the first character that differs |
| `Pooling.PrefixComesFirst` | src/surge/duel/verify.py:117 | and a prefix comes first |
| `PooledEvidence.SortAppendsExactly` | src/surge/duel/verify.py:114-117 | Adding a session to the merge appends it to the sorted record iff it is dated no earlier than all others and differs from none of its own date behind it in the merge |
| `PooledEvidence.PoolGrowsExactly` | src/surge/duel/verify.py:114-117 | The same for a session reported by one pair among the streams |
| `PooledEvidence.PooledCoinsGrow` | src/surge/duel/verify.py:114-120 | Then the pooled coins grow by at most one coin at the end |
| `PooledEvidence.LateReportReorders` | src/surge/duel/verify.py:114-117 | A late report of the same date moves ahead of a coin already tossed |
| `PooledPeeking.PooledAsReported` | src/surge/duel/verify.py:105-120 | While reports come in order, the pooled test tosses the coins in the order of arrival, after any number of reports by any streams |
| `PooledPeeking.InOrderValid` | src/surge/duel/verify.py:21-27 | Then, for any prior and any law of sessions without an edge, the returned value has stopped mean at most 1 under every rule and reaches thr with probability at most 1/thr |
| `PooledPeeking.LateReportFavours` | src/surge/duel/verify.py:114-120 | If some report falls behind an earlier one, watching for a first loss under fair coins has mean evidence exactly 1 + 0.25/(weight + 2) |
| `PooledPeeking.PeekingSafeExactly` | src/surge/duel/verify.py:21-27 | For every neutral prior and every schedule of reports, the returned value keeps stopped mean at most 1 under all laws without an edge and all rules iff no report falls behind an earlier one |
| `PooledPeeking.SecondPairFirst` | src/surge/duel/verify.py:195-198 | Two pairs, one date, the second reporting first: mean 9/8 flat, 69/68 at prior weight 15 |
| `ForwardRecord.ForwardStream` | src/surge/duel/verify.py:124-147 | The two passes over the evaluated rows return every session judged against the record's majority, and nothing for an empty record or an unknown pair |
| `ForwardRecord.EarlierKeptExactly` | src/surge/duel/verify.py:137-145 | Adding a row anywhere keeps all earlier sessions as they were iff there are none or it does not turn the majority (a fall on a tie, a rise one short of it) |
| `ForwardRecord.TurnInvertsCoins` | src/surge/duel/verify.py:137-145 | If it does, each earlier coin becomes an agreement and each agreement a coin |
| `ForwardRecord.MissRewritesRecord` | src/surge/duel/verify.py:137-145 | Three rows on which that happens |
| `ForwardRecord.EvidenceBeatsMajority` | src/surge/duel/verify.py:124-147 | A pair's stream of at most 500,000 sessions shows flat evidence above 1 only if its right calls outnumber those of the best constant direction in hindsight |
| `ForwardRecord.OneSidedShowsNothing` | src/surge/duel/verify.py:137-145 | Always choosing the same instrument never shows evidence, whatever the labels |
| `Betting.EvalueReturns` | src/surge/verdict.py:87-132 | The loop over running count, sum and sum of squares returns the capital of the recomputed predictable bets, floor and skips included |
| `Betting.LambdaRange` | src/surge/verdict.py:119-125 | The bet is one-sided and never above lam_max |
| `BettingGrowth.StakeMaximisesGrowth` | src/surge/verdict.py:119-126 | Once two returns are kept, no fraction in [0, lam_max] has more second-order growth on their mean and mean squared deviation (floored at 1e-6) than the one staked |
| `BettingGrowth.NothingStaked` | src/surge/verdict.py:119-126 | Nothing is staked before two returns are kept, nor while the kept returns sum to at most 0 |
| `BettingGrowth.NeverGainedStaysAtOne` | src/surge/verdict.py:96-98 | A record whose kept returns never summed above 0 has evidence exactly 1 |
| `BettingGrowth.WinsCountAsHi` | src/surge/verdict.py:103-106 | Returns above hi count as hi: cutting them first changes nothing |
| `Betting.WinsorizingLowersMean` | src/surge/verdict.py:103-106 | Cutting the upper tail never raises the mean of the kept returns |
| `Betting.FairExactlyWhen` | src/surge/verdict.py:95-101 | One bet has mean factor at most 1 iff nothing is staked or the winsorized mean is at most 0 |
| `Betting.FactorFloor` | src/surge/verdict.py:98-99 | Every factor is positive; under the default rules every factor is at least 1/2 |
| `Betting.CapitalDrifts` | src/surge/verdict.py:99-101 | Under every null law the capital's one-step mean rises by at most 1e-12 |
| `Betting.ReturnsValidUnderAnyStoppingRule` | src/surge/verdict.py:99-101 | Under any stopping rule, mean capital after n returns is at most 1 + n·1e-12 |
| `Betting.ReturnsFalseAlarmBound` | src/surge/verdict.py:99-101 | The chance that the capital reaches thr within n returns is at most (1 + n·1e-12)/thr |
| `Betting.ValidWhileFloorIdle` | src/surge/verdict.py:126-128 | On the runs that never touch the floor the bound is exactly 1 |
| `Betting.FalseAlarmWhileFloorIdle` | src/surge/verdict.py:99-101 | The probability of reaching thr without the floor having fired is at most 1/thr, for every null law and horizon |
| `Betting.ShortRunsIdle` | src/surge/verdict.py:126-128 | Under the default rules the floor cannot fire within 39 returns |
| `Betting.ValidUpTo39` | src/surge/verdict.py:87-132 | So up to 39 returns the default capital has mean at most 1 under every null law |
| `BettingValidity.StepValidExactlyAboveFloor` | src/surge/verdict.py:95-129 | From a history, no law whose kept returns have mean at most 0 lifts the mean capital iff the worst accepted return would not take the capital below the floor |
| `BettingValidity.FloorLifts` | src/surge/verdict.py:126-128 | Where it would, the zero-mean law on lo and hi lifts the mean |
| `BettingValidity.ValidAboveFloor` | src/surge/verdict.py:99-101 | Under a law that never gets there, mean capital is at most 1 under any stopping rule and thr is reached with probability at most 1/thr |
| `BettingValidity.RawMeanFairExactly` | src/surge/verdict.py:103-118 | While something is staked, the bet is fair for every law of returns at least y with raw mean at most 0 iff none of those returns is skipped, y >= lo |
| `BettingValidity.SkippingFavours` | src/surge/verdict.py:117-118 | With y below lo the zero-raw-mean law on y and hi favours the bet |
| `Calibration.TallyRecord` | src/surge/duel/calibration.py:42-51 | Records of unequal length are refused; otherwise each band's count and hits over the whole record |
| `Calibration.BatchTallySnoc` | src/surge/duel/adaptive.py:471-473 | Scoring one session online equals recounting the longer record |
| `Calibration.TallyCountsCalls` | src/surge/duel/calibration.py:22-51 | Each band's n is the number of sessions predicted in it, its wins the number of those that rose after more than 0.5 or did not after 0.5 or less |
| `Calibration.AnchorFromCounts` | src/surge/duel/adaptive.py:422-434 | With k of the n earlier calls of its band right, a value is anchored max((2k - n)/(2(n + 100)), 0.0005) from one half, on its own side |
| `Calibration.LedgerIsSound` | src/surge/duel/calibration.py:42-51 | No band has more hits than predictions |
| `Calibration.AnchorKeepsSide` | src/surge/duel/adaptive.py:422-434 | Anchoring keeps the raw side, leaves at least 0.0005 of edge and never reaches certainty |
| `Calibration.AnchorMonotone` | src/surge/duel/adaptive.py:427-434 | A band with more hits in as many predictions is never anchored closer to 1/2 |
| `WalkForward.WalkForwardProbs` | src/surge/duel/adaptive.py:437-474 | The loop with its carried model and online ledger emits, session by session, what a refit and recount from strictly earlier sessions gives |
| `WalkForward.FittedAtClosedForm` | src/surge/duel/adaptive.py:460-463 | The model in force was fitted at the last multiple of the refit interval after the start |
| `WalkForward.DeskRows` | src/surge/duel/adaptive.py:325-336 | The judge's features are every desk's own walk-forward conviction, 0 where a desk is silent |
| `WalkForward.StackedWalkForwardProbs` | src/surge/duel/adaptive.py:338-365 | The second-level loop emits what a judge trained on strictly earlier rows and a recounted ledger give |
| `WalkForward.FlatCausal` | src/surge/duel/adaptive.py:444-451 | Two histories that agree on features through session i and on labels before it get the same flat emission |
| `WalkForward.StackedCausal` | src/surge/duel/adaptive.py:314-320 | The same for the stacked engine, raw and anchored |
| `WalkForward.StackedPrefixCausal` | src/surge/duel/adaptive.py:314-320 | The stacked engine's whole emitted series agrees through session i |
| `WalkForward.ProbsForConfig` | src/surge/duel/adaptive.py:368-381 | Flat and stacked configurations are dispatched to their engines |
| `WalkForward.PredictConfig` | src/surge/duel/adaptive.py:250-257 | Tonight's value is the specified emission for the appended session |
| `WalkForward.PlaceholderIrrelevant` | src/surge/duel/adaptive.py:252-257 | Tonight's emission is the same for every placeholder label |
| `WalkForward.LiveIsReplay` | src/surge/duel/adaptive.py:250-257 | Predicting live before session i gives what a later replay of the whole archive reports for session i |
| `WalkForward.EmissionKeepsSide` | src/surge/duel/adaptive.py:422-434 | Every anchored emission is on its raw side of 1/2 at distance in [0.0005, 0.5); silence is emitted exactly where there is no raw value |
| `Emissions.RawExplicit` | src/surge/duel/adaptive.py:459-470 | Silent before min_train; then the score under the model trained on the sessions before the last refit, the last `window` of them when one is set |
| `Emissions.StackedExplicit` | src/surge/duel/adaptive.py:307-365 | Silent for one and a half times min_train; then the judge trained on what the desks argued before its last refit scores what they argue now, each desk 2p - 1, or 0 while untrained |
| `Emissions.EmissionFromCounts` | src/surge/duel/adaptive.py:459-474 | An anchored emission is read off the earlier raw calls of its band: how many there were and how many came true |
| `Emissions.PerfectAndHopelessBands` | src/surge/duel/adaptive.py:422-434 | After n right calls a value stands max(n/(2(n + 100)), 0.0005) from one half, after only wrong ones 0.0005 |
| `WalkForward.CalibrationStore.Save` | src/surge/duel/calibration.py:80-87 | Upserting a ledger replaces that pair's and source's bands and no others |
| `WalkForward.CalibrationStore.ReplayCalibration` | src/surge/duel/calibration.py:54-89 | Under 200 sessions nothing is stored; otherwise the anchored and the raw ledgers of the replay are |
| `WalkForward.CalibrationStore.AnchorLiveProb` | src/surge/duel/calibration.py:116-123 | The stored raw ledger anchors the value; with nothing stored it passes through |
| `WalkForward.LiveAnchorIsNextStep` | src/surge/duel/calibration.py:116-123 | Anchoring tonight's raw value with the archive's raw ledger is the walk-forward's own next emission |
| `Backtest.SortedDates` | src/surge/backtest/engine.py:73-81 | The master clock is the strictly increasing union of all dates |
| `Backtest.MarkToMarket` | src/surge/backtest/engine.py:159-166 | The loop sums the positions at the day's close, at entry price where there is no bar |
| `Backtest.FillPending` | src/surge/backtest/engine.py:92-111 | The loop with its skips and its break fills the queue as specified, one entry after the other |
| `Backtest.TakeExits` | src/surge/backtest/engine.py:113-140 | The sweep closes exactly the positions whose bracket the bar meets |
| `Backtest.RunBacktest` | src/surge/backtest/engine.py:72-157 | Curve and trades are those of the specified days; fewer than 3 dates give the flat curve and no trades |
| `Backtest.ClockCausal` | src/surge/backtest/engine.py:73-81 | Data that agree on every bar dated up to a clock day share the clock up to that day |
| `Backtest.HistoryCausal` | src/surge/backtest/engine.py:168-177 | What a strategy sees depends only on bars dated up to the date |
| `Backtest.RunCausal` | src/surge/backtest/engine.py:91-152 | Two such runs hold the same book and curve after every day, and queue the same entries before the cutoff |
| `Backtest.BacktestCausal` | src/surge/backtest/engine.py:1-3 | No look-ahead: equity through day i and the trades closed by it depend only on bars dated up to it |
| `Backtest.RunAppends` | src/surge/backtest/engine.py:88-143 | Later days never rewrite the curve or a trade; new trades carry their own day's date |
| `BacktestInvariants.RunBalances` | src/surge/backtest/engine.py:85-152 | After every day cash plus open cost is capital plus realised profit less commissions on shares opened and closed; one long position per symbol, within the limit; one point per day |
| `BacktestInvariants.RunSolvent` | src/surge/backtest/engine.py:102-105 | Cash never falls below minus the commissions paid, so never below 0 when they are 0 |
| `BacktestSolvency.SolventExactlyWithoutCommission` | src/surge/backtest/engine.py:102-105 | Cash stays nonnegative on every day of every market and strategy iff the commission is 0 |
| `BacktestSolvency.CommissionOverdraws` | src/surge/backtest/engine.py:102-105 | For any commission, the price at which a one-symbol market overdraws the account |
| `BacktestInvariants.RunTimely` | src/surge/backtest/engine.py:91-152 | Every entry is at the slipped open one clock day after a signal; round trips in a symbol never overlap; no open position has lived through a bar that met its exit |
| `BacktestInvariants.HeldNoLongerThanAllowed` | src/surge/backtest/engine.py:126-140 | No position survives its first bar at or after `hold_until` |
| `BacktestInvariants.EquityDecomposes` | src/surge/backtest/engine.py:142-143 | Each equity point is capital plus realised and paper profit less commissions |
| `BacktestInvariants.ExitIsAttainableAndPessimistic` | src/surge/backtest/engine.py:119-130 | Exit prices lie within the bar, gaps fill at the open, and a bar that meets stop and target is filled at the stop |
| `BacktestTrades.RunSettled` | src/surge/backtest/engine.py:91-152 | After every day each closed trade came out on the first bar that met the bracket set at its entry, at that bar's price, and each open position is its untouched bracket |
| `BacktestTrades.RoundTripUnique` | src/surge/backtest/engine.py:113-140 | An entry determines its exit: date, price, profit and reason |
| `BacktestBrackets.TradesAreFirstTouches` | src/surge/backtest/engine.py:109-140 | Every trade left on the first day whose bar reached stop_pct below or target_pct above its entry price or came after hold_days, the stop first, at the price that side allows less slippage, with the profit that makes |
| `BacktestBrackets.ReasonsBoundPrices` | src/surge/backtest/engine.py:119-139 | A stop sells at or below entry·(1 - stop_pct)·(1 - slip), a target at or above entry·(1 + target_pct)·(1 - slip), a time exit strictly between and not before the holding days; always within the bar less slippage |
| `BacktestBrackets.OpenPositionsUntouched` | src/surge/backtest/engine.py:113-127 | No position open after a day had a bar, since its entry, that reached either side or came after its holding days |
| `BacktestBrackets.EntriesFillAtOpen` | src/surge/backtest/engine.py:91-111 | Every entry was filled at an open plus slippage, one clock day after the strategy named the symbol from bars up to that day |
| `BacktestBrackets.HistoryIsThePast` | src/surge/backtest/engine.py:169-177 | The strategy is shown exactly the bars dated up to and including the day |
| `BacktestBrackets.FillInMoney` | src/surge/backtest/engine.py:96-111 | A fill buys the most shares worth at most position_pct of the marked equity, within the cash, and takes their price and commission |
| `BacktestBrackets.QueueTakesFirst` | src/surge/backtest/engine.py:146-152 | The queue holds the first signals not held, in the strategy's order, as many as there are free slots, and nothing on the last day |
| `BacktestTrades.AffordableIsLargest` | src/surge/backtest/engine.py:102 | The quantity is the largest whose cost is within the position's fraction of equity |
| `BacktestSizing.DecidedAtOpenExactly` | src/surge/backtest/engine.py:91-109 | A queued entry's outcome is the same under all closes of its day iff it could not be filled at any size or no position held at that moment has a bar that day |
| `BacktestSizing.SecondEntrySeesClose` | src/surge/backtest/engine.py:102 | Two entries at one open: the second's quantity depends on where the first will close |
| `Ledger.Store.UpsertPosition` | src/surge/trading/store.py:97-110 | Overwrites the row with the symbol in place, or appends |
| `Ledger.Store.ApplyFill` | src/surge/trading/execution.py:39-73 | The whole new state of the tables after a fill, including the sale that is ignored without a position; rows stay consistent |
| `Ledger.UpsertKeeps` | src/surge/trading/store.py:97-110 | An upsert leaves one row per symbol, its own row current and every other row as it was |
| `Ledger.FillIsBooked` | src/surge/trading/execution.py:39-73 | A fill is logged once, the account after it is recorded at cost, and a sale books its profit on the row and closes it at 1e-9 shares |
| `Ledger.FillConserves` | src/surge/trading/execution.py:45-65 | One fill moves cash plus open cost by its realised profit less its commission and any forgotten sliver |
| `Ledger.RunConserves` | src/surge/trading/execution.py:39-73 | Conservation over any run of fills, through averaging, closing and reopening |
| `Ledger.WholeSharesConserve` | src/surge/trading/execution.py:39-73 | With whole shares nothing is forgotten: cash + open cost + commissions - realised profit is the starting capital |
| `Ledger.FractionalSharesLeak` | src/surge/trading/execution.py:63-64 | A fractional sale after which value has vanished without any realised loss |
| `Ledger.FillLeaksExactly` | src/surge/trading/execution.py:59-65 | A fill breaks conservation iff it closes a row with 0 < remainder <= 1e-9 of nonzero cost |
| `Risk.AssessTrade` | src/surge/trading/risk.py:51-133 | The running quantity through the gates ends in the specified approval or veto |
| `Risk.ApprovedWithinCaps` | src/surge/trading/risk.py:65-133 | An approved size is between 1 and the proposed one and meets notional cap, at-risk budget and cash limit together; crowded clusters get at most half (or one share) |
| `Risk.ShrinksNoMoreThanNeeded` | src/surge/trading/risk.py:86-129 | Outside a crowded cluster every larger quantity would break one of the caps |
| `Risk.CapBoundsExactlyNewHoldings` | src/surge/trading/risk.py:87-94 | In any uncrowded portfolio, every approved buy of a symbol keeps held plus bought shares within the position cap, for all sizes, stops, equities and cash, iff none of it is held |
| `Risk.CapBoundsHoldingExactly` | src/surge/trading/risk.py:87-94 | Over all portfolios, crowded ones included, iff the shares held are 0 |
| `Risk.SizeIsLargest` | src/surge/trading/risk.py:25-39 | The proposed size is the largest whole quantity within the risk budget and the capital budget |
| `Risk.SizeWithinBudget` | src/surge/trading/risk.py:25-39 | It risks no more than the per-trade budget and is worth no more than the position cap |
| `Risk.TradeRiskWithinBudget` | src/surge/trading/execution.py:99-112 | Sized and assessed, an opening trade still risks no more than the per-trade budget |
| `Risk.StatusMonotone` | src/surge/trading/risk.py:147-160 | Losing more never softens the risk status |
| `Risk.StatusInMoney` | src/surge/trading/risk.py:147-160 | For any limits and baselines: halted iff the equity is down to the monthly limit below a recorded baseline, else liquidating iff to the weekly one, else closed to entries iff to the daily one, else warned iff to half of it; an absent or zero baseline loses nothing |
| `Risk.DeepLossHalts` | src/surge/trading/risk.py:147-156 | Down 15% against all baselines under the repository's limits: halted |
| `RiskSizing.SizeInMoney` | src/surge/trading/risk.py:25-39 | The size is the largest whole quantity whose loss to the stop, or over 1% of the price, fits the per-trade risk scaled to the part asked for, and whose value fits that part of equity |
| `RiskSizing.RiskInMoney` | src/surge/trading/risk.py:42-45 | A position risks its shares times the distance from cost to stop, or times the default percentage of cost without one |
| `RiskSizing.CrowdedByCorrelated` | src/surge/trading/risk.py:96-108 | A portfolio is crowded for a symbol iff it holds another one of its cluster |
| `RiskSizing.CrowdingHalves` | src/surge/trading/risk.py:96-108 | A trade within every limit is halved when crowded and approved whole otherwise |
| `RiskSizing.OutrightVetoes` | src/surge/trading/risk.py:64-84 | Exactly when a halt, halted entries, no quantity or the position limit vetoes; a held symbol is never turned away for the number of positions |
| `Trading.TradingEngine.PlaceOnPaper` | src/surge/trading/brokers.py:55-77 | A paper order is recorded, filled with adverse slippage and commission, and marked filled |
| `Trading.TradingEngine.ClosePosition` | src/surge/trading/execution.py:147-168 | Sells the whole position on paper, stages the sale live, does nothing without a position |
| `Trading.TradingEngine.ExecuteDecision` | src/surge/trading/execution.py:76-145 | The whole new state for every decision, price, verdict and mode |
| `Trading.TradingEngine.WatchPosition` | src/surge/trading/orchestrator.py:88-114 | Ratchets one stop, then closes at its stop or target |
| `Trading.TradingEngine.ManageExits` | src/surge/trading/orchestrator.py:86-115 | Watches every row of the opening snapshot in order |
| `Trading.TradingEngine.CancelWorking` | src/surge/trading/killswitch.py:46-58 | Cancels exactly the working orders |
| `Trading.TradingEngine.FlattenAll` | src/surge/trading/killswitch.py:60-69 | Closes every open position at its last price, or at cost without one |
| `Trading.TradingEngine.FireKillSwitch` | src/surge/trading/killswitch.py:35-85 | Cancel, flatten, then record the halt |
| `Trading.TradingEngine.RunCandidates` | src/surge/trading/orchestrator.py:158-186 | Executes the decisions of the priced candidates in order |
| `Trading.TradingEngine.RunCycle` | src/surge/trading/orchestrator.py:118-200 | One cycle's whole effect on the tables, for every branch |
| `Trading.TradingEngine.ResetHalt` | src/surge/trading/killswitch.py:88-95 | A reset records that the system runs again and touches nothing else |
| `Trading.TradingEngine.RunEvents` | src/surge/trading/orchestrator.py:118-200 | Any sequence of cycles, triggers and resets leaves the tables of the run the invariants speak of |
| `TradingMoney.SaleProceedsInMoney` | src/surge/trading/brokers.py:55-77 | Closing on paper brings qty·ref less slippage, less the larger of minimum and per-share commission, and leaves no position |
| `TradingMoney.BuyOutlayInMoney` | src/surge/trading/execution.py:130-143 | An approved paper buy costs qty·ref plus slippage and commission, and leaves the decision's own stop and target, or the default percentages, on the holding |
| `TradingMoney.SellDecisionCloses` | src/surge/trading/execution.py:76-97 | A sell decision closes the whole position, filled on paper or waiting live; a hold, an unusable price or no position changes nothing |
| `TradingMoney.BuyDecisionStages` | src/surge/trading/execution.py:112-128 | Live, an approved buy is one waiting order for the approved shares; a vetoed buy is nothing in any mode |
| `TradingMoney.TriggerCashesEquity` | src/surge/trading/killswitch.py:60-69 | On paper the kill switch turns the market value into cash less slippage and commissions; without either, cash is the equity the account had |
| `TradingMoney.CycleRecordsEquity` | src/surge/trading/orchestrator.py:188-192 | A completed cycle records its own cash and equity, and one risk row with the status it judged by |
| `TradingMoney.CandidatesInOrder` | src/surge/trading/orchestrator.py:158-186 | Decisions are taken in the universe's order, later ones on the account earlier ones left |
| `TradingSafety.CyclesInertUntilReset` | src/surge/trading/killswitch.py:20-32 | From a halt until the next reset, deleting every cycle from a run changes nothing: no order, no position, no row |
| `TradingSafety.ResetResumes` | src/surge/trading/killswitch.py:88-95 | A reset ends the halt and changes nothing but the risk table |
| `TradingSafety.CycleHaltsExactly` | src/surge/trading/orchestrator.py:134-146 | A running system's cycle ends halted iff its equity is down to the limit below the recorded monthly or weekly baseline, in money |
| `TradingSafety.LossLimitStopsEntries` | src/surge/trading/risk.py:67-73 | A cycle whose equity is down to the limit below the recorded daily, weekly or monthly baseline creates no order but sales |
| `TradingSafety.TriggerFlattens` | src/surge/trading/killswitch.py:46-75 | On paper the trigger leaves no open position, every order filled, cancelled or rejected with the settled ones untouched, and a halted system |
| `TradingSafety.LiveNeverTrades` | src/surge/trading/execution.py:119-128 | In live mode no run fills an order, moves cash or changes a holding; every order it creates waits for approval or is cancelled |
| `TradingLimits.ClosedLimited` | src/surge/trading/execution.py:147-168 | Closing on paper adds no position and takes no cash but the commission |
| `TradingLimits.BoughtLimited` | src/surge/trading/execution.py:130-136 | An approved buy keeps the position limit and the cash bound of its own equity |
| `TradingLimits.BuyIsBracketed` | src/surge/trading/execution.py:112-145 | An approved paper buy adds exactly the approved shares, records one filled order, and leaves stop < price < target, so the same price does not close it |
| `TradingLimits.DefaultsBracket` | src/surge/trading/execution.py:99-141 | The default stop and target lie on either side of the price |
| `TradingLimits.RunLimited` | src/surge/trading/orchestrator.py:118-200 | Over every run of paper cycles, triggers and resets: open positions within the limit, and cash never below -(1e-6 + slippage × position cap of the largest equity at a buy) less commissions |
| `TradingSlippage.BuyCash` | src/surge/trading/execution.py:130-136 | An approved paper buy costs its quantity at the slipped price plus its commission |
| `TradingSlippage.CashKeptExactlyWithoutSlippage` | src/surge/trading/risk.py:123-129 | Without commission, every approved paper buy, judged by its own account's equity, keeps cash at or above -1e-6 iff the slippage is 0 |
| `TradingExposure.BuyMovesRisk` | src/surge/trading/execution.py:130-143 | An approved paper buy replaces its symbol's row, merged and under its new stop, in the capital at risk and moves nothing else |
| `TradingExposure.RiskLimitKeptExactly` | src/surge/trading/risk.py:110-121 | For held and for new symbols alike: every approved paper buy leaves the capital at risk within its limit, over all accounts, prices, decisions and statuses, iff the symbol is new and the slippage is 0 |
| `TradingExposure.HeldSymbolBreaksBudget` | src/surge/trading/execution.py:130-143 | Under the repository's limits and without slippage, 8 more shares of a held symbol take the capital at risk from 960 to 1200, the limit being 1000 |
| `TradingExposure.BuyAdds` | src/surge/trading/execution.py:130-143 | The holding grows by exactly the approved quantity |
| `TradingExposure.HoldingCapKeptExactly` | src/surge/trading/risk.py:87-94 | A position cap below the whole account bounds the holding after every approved paper buy, judged by the account's own equity, iff it was not held |
| `TradingAudit.LogReproducesBook` | src/surge/trading/execution.py:39-73 | After any run of paper cycles, replaying the fills table from an empty book reproduces cash and every row's quantity, average, realised profit and state |
| `TradingAudit.CyclesConserve` | src/surge/trading/orchestrator.py:118-200 | Over any run of paper cycles cash + open cost + commissions - realised profit is the starting capital |
| `TradingAudit.EquityIsEarned` | src/surge/trading/risk.py:136-140 | The equity a paper run's cycle judges by is the starting capital plus realised and paper profit less commissions |
| `TrailingStop.SweepObserves` | src/surge/trading/orchestrator.py:86-115 | A sweep over all open positions does to one of them what its own price alone does |
| `TrailingStop.CycleObserves` | src/surge/trading/orchestrator.py:118-200 | So does a whole running cycle whose decisions leave the symbol alone, whatever else it trades |
| `TrailingStop.TrailingStopClosedForm` | src/surge/trading/orchestrator.py:86-115 | Over any run of such cycles the position is open iff no price quoted for it has met its best stop so far or its target, and then its stop is the best one; a position without a stop is armed by its first price |
| `TrailingStop.BestStopIsMaximum` | src/surge/trading/orchestrator.py:94-105 | The best stop is the maximum of the initial stop and every price above average cost less the trailing percentage |
| `TrailingStop.StopsMoveOnlyUp` | src/surge/trading/orchestrator.py:94-105 | With trailing off no price moves a stop; with it on a price arms a position without one and moves another only up, and only above average cost |
| `TrailingStop.RatchetNeverTripsItself` | src/surge/trading/orchestrator.py:94-114 | A price never trips the stop it has just raised |
| `Auc.BisectLeft` | src/surge/duel/calibsearch.py:51-53 | The first place not below the value in a sorted list |
| `Auc.BisectRight` | src/surge/duel/calibsearch.py:51-53 | The first place above the value in a sorted list |
| `Auc.AucConvictionCorrect` | src/surge/duel/calibsearch.py:41-54 | None when a class is absent, else the pairwise Mann-Whitney count: wins plus half the ties over all pairs |
| `Auc.AucRange` | src/surge/duel/calibsearch.py:41-54 | The result lies in [0, 1] |
| `Auc.SeparatedSamples` | src/surge/duel/calibsearch.py:41-54 | With calls of both kinds and every correct one more convinced than every wrong one, the result is 1 |
| `Auc.PairsMirror` | src/surge/duel/calibsearch.py:50-54 | Every pair is won by one side or split |
| `Auc.FlipComplements` | src/surge/duel/calibsearch.py:41-54 | Exchanging right and wrong turns the result into its complement to 1 |
| `Migration.Connection.MigrateSqlite` | src/surge/db.py:147-179 | A run killed after any number of statements leaves exactly the state of that prefix of its plan |
| `Migration.NothingLost` | src/surge/db.py:147-179 | Through any sequence of crashes and later writes every old row is still in the database, and every written row is current |
| `Migration.CrashSafe` | src/surge/db.py:147-179 | The next completed run leaves every old row once under its pair unless something newer is there, no leftover table, and further runs change nothing |
| `Learn.ProposeChallengers` | src/surge/learn.py:179-216 | The loop and the adaptive branch propose exactly the specified variants |
| `Learn.ProposeCulpritChallengers` | src/surge/learn.py:219-240 | Each frequent culprit yields its drop and its inversion unless already raced |
| `Learn.ModelState.RegisterDiscovered` | src/surge/learn.py:401-425 | The persisted set grows by exactly the returned additions |
| `Learn.AdditionsAreNew` | src/surge/learn.py:411-416 | Every addition is an idea the diagnostics support, under a new tag, with multipliers nothing races yet |
| `Learn.FewerProposals` | src/surge/learn.py:192-286 | With more maps raced, the proposers repeat only tags they proposed before |
| `Learn.AdaptiveRepeats` | src/surge/learn.py:205-216 | The adaptive branch too proposes only what it proposed before |
| `Learn.OneCallReachesFixpoint` | src/surge/learn.py:401-425 | On unchanged diagnostics a second registration adds nothing, and the first overwrites nothing |
| `LearnCoverage.WeakComponentsAreRaced` | src/surge/learn.py:192-203 | After one registration every component right at most 40% of the time is raced inverted, and at most 45% dropped, unless the tag was taken before |
| `LearnCoverage.CulpritsAreRaced` | src/surge/learn.py:219-240 | Every culprit of at least 15% of the wrong calls is raced dropped with vix_regime at 1.5 and inverted with futures at 1.5 |
| `LearnCoverage.ConflictWinnerIsRaced` | src/surge/learn.py:272-286 | From 15 conflicts on, whichever of futures and Asia won more than 1.3 times as often is raced at 2.0 against 0.3 |
| `LearnCoverage.WorstComponentIsRaced` | src/surge/learn.py:205-216 | With nothing at or below 45%, the first worst component below 49% that no raced map touches is raced dropped |
| `LearnCoverage.AdaptiveOnlyWhenStuck` | src/surge/learn.py:205-216 | The adaptive idea comes alone, and only when every weak component's own map is raced already and no raced map touches the worst one |
| `LearnCoverage.OnlyCalledForIsAdded` | src/surge/learn.py:179-286 | Conversely every addition is called for by a component's accuracy, a culprit's rate or the conflict count, under a new tag and with multipliers nothing races |

## Left out

- Envelope.FlatBound: speaks of records on which the cap 1 - 1e-6 never binds (all of up to 500,000 outcomes, and longer ones that keep losing); once it binds, a win is worth less and a loss costs less than the bound counts.
- ForwardRecord.EvidenceBeatsMajority: speaks of up to 500,000 sessions for the same reason.
- EProcess.WarmstartEvalue: asks for a prior weight above -1, below which the running rate can divide by zero; pseudo-counts are never negative in the repository.
- EProcess.SessionsToCross: asks for a positive threshold and a baseline strictly between 0 and 1, where the code's logarithms exist.
- Betting.CapitalDrifts: allows 1e-12 a step, which the numerical floor forces; `BettingValidity.StepValidExactlyAboveFloor` says exactly when no allowance is needed.
- Betting.ReturnsValidUnderAnyStoppingRule: the promised bound of 1 is off by 1e-12 a return for the same reason; `BettingValidity.ValidAboveFloor`, `Betting.ValidWhileFloorIdle` and `Betting.ValidUpTo39` give exactly 1.
- Betting.ReturnsFalseAlarmBound: carries the same allowance; `BettingValidity.ValidAboveFloor` and `Betting.FalseAlarmWhileFloorIdle` give exactly 1/thr.
- PooledPeeking.PeekingSafeExactly: speaks of priors at one half (or without a rate, which is the same), as the family test uses; for a leaning prior `PooledPeeking.InOrderValid` gives the safe direction. The bound 1/thr is proved for reports in order and not claimed otherwise.
- TradingExposure.HoldingCapKeptExactly: asks for a position cap below 1, since an account without leverage cannot hold more than a cap above its equity but for the cash tolerance; `Risk.CapBoundsHoldingExactly` has no such bound.
- Ledger.Store.ApplyFill: asks for a positive quantity, which every caller supplies.
- TradingLimits.RunLimited: asks for positive prices, nonnegative minimum commission and slippage between 0 and 1, and counts positions opened by the engine alone.
- TrailingStop.TrailingStopClosedForm: takes a stop, where the row has one, as positive, and prices as positive; the engine treats a stop of 0 as none for exits but not for trailing.
- Floating point, rounding to four decimals, logarithms and exponentials: numbers are exact reals and evidence is kept as a product.
- Ridge regression, Platt scaling, feature preparation, the named configurations and their defaults: a configuration is given by its estimators and its numbers.
- Bars with missing fields, several bars of one symbol on one date, and the order in which a strategy meets symbols: histories are maps.
- `pnl_pct`, performance summaries and Sharpe-like metrics.
- Agents, debate, portfolio manager and persisted opinions: a cycle receives the decision for each symbol.
- The date arithmetic behind the loss baselines: a cycle receives the day's, week's and month's starting equity.
- The operator's approval of live orders and the live broker: staged orders stay where the engine leaves them.
- Rows of the other trading mode: one `Store` holds one mode's rows, which is all the code reads.
- Limit orders, which the engine never places; order identifiers beyond their place in the table.
- The added columns of the table upgrade, and the state in which an old-shaped table and a leftover one coexist, which no run produces.
- The feature-subset search and holdout split around the AUC, which only enumerate and slice.
- Rotation hypotheses, pruning and the promotion gate with its square roots; the counting of sign accuracies, culprits and conflicts from stored decisions, whose results are inputs.
- Python's sort is modelled by insertion sort, to which `Pooling.StableSortUnique` shows any stable sort equal.
- Concurrent access to the same tables, timestamps and audit rows.
