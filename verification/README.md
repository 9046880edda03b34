# Verified kernels of the trading agent

This project models the decision kernels of an autonomous trading agent in Dafny
and proves properties of them over all inputs, all runs and all interleavings.
Prices, equity and lots are `real`; clocks are integer seconds and days are
`seconds / 86400`; configuration is taken as already resolved for one symbol.
`dafny verify dfyconfig.toml` checks everything.

| file | models | main results |
|---|---|---|
| `Numbers.dfy` | `round`, sums, decimal grids | rounding is monotone, fixes grid values, errs by half a step |
| `ExitManager.dfy`, `TriggerLaws.dfy` | triggers, trail distance and activation, partial volume, post-partial lock | shared by the stop engine and the paper broker; each in plain arithmetic |
| `StopEngine.dfy`, `StopEngineProofs.dfy` | the stop cascade of one management tick, declaratively and rule by rule | cascade = declaration; tightest candidate; BUY/SELL mirror symmetry |
| `StopLaws.dfy` | the same cascade on prices and configured numbers | the first price or age at which each rule moves the stop and the stop it gives; the cascade is its rules, one after another |
| `StopLifecycle.dfy`, `StopBook.dfy` | ticks and partial take-profits over whole runs, for one position and for the book | no-loss lock, and exactly when a SELL partial keeps it; how one position disturbs another |
| `LifecycleLaws.dfy`, `BookLaws.dfy` | what ticks, partials and passes store, on prices and numbers | a partial by price; extremes, latches and the single partial of whole runs; the exact book after a pass |
| `Bocpd.dfy`, `BocpdProofs.dfy`, `BocpdLaws.dfy` | the online change-point detector | the loops compute the normalised forward recursion, whose weights are densities at the batch mean and variance; when the changepoint probability is, and exceeds, 1/lambda; the MAP bound; when the gate can fire |
| `PaperBroker.dfy`, `PaperLedger.dfy`, `PaperLossProofs.dfy`, `PaperRunProofs.dfy` | fills, stop-first exits, partials, cash and equity | worst-case loss of a position and of the account, cash conservation, position lifecycle |
| `PaperLaws.dfy` | the same step on prices and configured numbers | when a position is stopped, banked, moved and closed; equity is what liquidation would leave |
| `DailyPnl.dfy` | realised PnL by UTC day, means and deviations | the bucket and series loops; deviation tests without square roots |
| `EdgeMonitor.dfy`, `EdgeMonitorProofs.dfy`, `EdgeLaws.dfy` | halt on divergence, recovery | exactly when HALT and WATCH begin and end in every run; what a HALT release has behind it, entry count, one history row a day |
| `Canary.dfy`, `CanaryProofs.dfy`, `CanaryLaws.dfy` | pick, promotion, demotion, decay | each decision on the trades' totals by day; the boost is exactly an unrevoked pick; promotion needs distinct days; when a promoted canary is protected |
| `RateLimit.dfy`, `RateLaws.dfy` | the fast layer's two sliding windows | in every run the pruned stamps let an entry through exactly where the full history does; no window overflows while its cap is within the 20 stamps kept; exactly when each limit holds in every run, for all settings |
| `TradeCaps.dfy` | broker batches under the shared lock, closes at any time, reads that fail | caps hold under every interleaving while reads fail only with room to spare; they break without the lock; a batch places exactly as many orders as there is room for |
| `Exposure.dfy` | exposure sums and capped sizing | exactly when a size is granted and which, limits survive every run |
| `ConfigProposal.dfy`, `ProposalLaws.dfy` | patch safety policy, mined proposals | which mistake moves which setting and by how much; proposals are never dangerous |
| `LearningOverrides.dfy`, `LearningLaws.dfy` | read-back fold and rollback | the last safe write of a path is what is read back; forbidden paths survive, the stop cap holds, when a second read-back changes nothing |
| `Drawdown.dfy` | the one-pass maximum drawdown | exactly when it equals the quadratic definition |

Where an algorithm is a loop or an object that updates fields, it is a method with
invariants or a class here, proved equal to a function on plain values (`Managed`,
`Next`, `Evaluate`, `Step`, `Fold`, ...); the results are then proved about that
function and hence about the method.  The `...Laws` files say what those functions do in
terms of prices, amounts, times and configured numbers only, without the predicates the
functions are written with.

## Where code, comments and expectations differ

- Paper sizes are capped for the signal's entry but market orders fill at the current
  price; a higher fill can overrun the exposure limits (`FillFitsIffNotAboveEntry`).
- The stop of a SELL without an existing stop is the last rule's, which need not be the
  tightest candidate (`SellWithoutStopMissesTightest`, `SellWithoutStopIsTightestIff`).
- `trail_after_partial` is logged for SELL only, so where the forced trail moves the
  stop the action lists (unlike stop and row) are not mirror symmetric
  (`ForcedTrailIsLoggedForSellOnly`, `ActionsAreMirroredIff`).
- A SELL stop stored at 0 or less reads as "no stop": a partial whose lock reaches
  within half a grid step of the whole entry price loses the lock
  (`SellPartialLosesLock`, `SellPartialLocksExactly`), and so does a tick whose rules
  reach that far (`SellTickLosesLock`, `SellTickKeepsLockExactly`).
- `round(size - close, 2)` conserves lots only for sizes on the 0.01 grid
  (`OffGridLotsGrow`, `VolumeIsConservedOnlyOnLotGrid`); paper sizes are rounded to 4
  decimals.
- The detector's comments expect P(r=0) to spike at a shift and to be bounded above by
  1/lambda.  It is exactly 1/lambda for all data until truncation
  (`ChangepointProbability`) and, for lambda above 1, exceeds it from then on
  (`ChangepointExceedsIffTruncated`).
- The edge monitor's in-band test is the halt test (2 sigma), not the 1 sigma of its
  description (`OneAndAHalfSigmaIsInBand`, `BandsDifferIff`), and its minimum-data gate
  counts closes, not days (`OneBusyDayPassesTheGate`, `GateCountsDaysIff`).
- A promoted canary is protected from a swap only once its window has passed; one
  promoted more recently is dropped for any other pick
  (`ProtectionStartsAfterTheWindow`, `FreshPromotionIsDropped`).
- A per-hour cap of 0 is read as 99, and only 20 stamps are kept, so larger caps do not
  bind by themselves.  The hourly limit holds in every run exactly when its cap is at
  most 20, or a ten-minute cap of at most 20 is set of which six fit in the hourly one
  (`HourlyCapHoldsIff`); the ten-minute limit exactly when its cap or the hourly one is
  at most 20 (`TenMinuteCapHoldsIff`).
- Under the shared lock a failed position read is taken as no open positions.  In any
  state, every run from there keeps a symbol's caps exactly when there was room to
  spare (`FailedReadKeepsCapsIffSpare`).
- The paper partial loop's `full_close_only` is one flag for the whole pass: a position
  too small to split makes every later position at TP1 close whole
  (`SmallPositionClosesTheNextWhole`, `PositionsDisturbByClosingWhole`).
- `is_dangerous` does not look at the configuration, so a stored patch cannot "become
  dangerous" when it drifts; lowering the payoff ratchet is not rejected as its comment
  says (`RatchetMayGoDown`); its lot-increase branch is unreachable
  (`LotIncreaseIsNeverReported`); and it compares whole paths, so a write at the parent
  of a forbidden path is judged safe (`ParentWriteReplacesForbidden`,
  `SafePatchesLeaveAloneIff`).
- The one-pass drawdown is exact exactly when no fall to a negative equity exceeds what
  it reports (`OnePassIsExactIff`); curves that reach below 0 can be understated
  (`NegativeEquityIsUnderstated`, `ExactIffNonnegative`).

## Model

| member | source | states |
|---|---|---|
| ExitManager.RiskDistance | core/exit_manager.py:36-39 | risk is never negative |
| ExitManager.BrokerCloseVolume | core/exit_manager.py:71-92 | for any minimum volume and step: either nothing is closed, or at least the minimum, leaving at least the configured remainder |
| Numbers.NearestOrEven | core/exit_manager.py:86 | `round` gives the nearest integer, and the even one of two as near |
| TriggerLaws.TriggerIff | core/position_manager.py:392-428 | a trigger is met exactly by its USD profit or from its distance on: points where the point size is known, else its ATR multiple |
| TriggerLaws.ActivationIff | core/exit_manager.py:131-173 | a trail may start exactly where it runs, or by its own trigger; deferred, exactly after a partial, from enough units of risk on, or by an early USD profit |
| TriggerLaws.TrailDistanceLaw | core/position_manager.py:453-484 | the distance is the whole points nearest to an ATR multiple, else configured points, else an ATR multiple; unknown exactly where points meet an unknown point size |
| TriggerLaws.RunnerLockIs | core/exit_manager.py:95-122 | the lock is a share of the initial risk where there is one, else an ATR multiple, beyond entry on either side |
| TriggerLaws.BrokerVolumeIsLargest | core/exit_manager.py:71-92 | for any positive volume step, the most steps within the fraction (1e-9 of a step of slack), to two decimals, where they are the least volume and leave the least remainder; else nothing |
| TriggerLaws.CloseVolumeIsLargest | core/exit_manager.py:71-92 | TP1 closes the most hundredths of a lot within the fraction, where they are at least one and leave the least remainder |
| TriggerLaws.NothingToClose | core/exit_manager.py:80-81 | nothing is closed of no size or by no fraction |
| StopEngine.BreakEvenRule | core/position_manager.py:705-808 | the break-even block moves stop, latch and log as declared |
| StopEngine.Be70Rule | core/position_manager.py:810-851 | the 70%-of-TP block offers entry and then the adaptive trail, and latches trailing and break-even |
| StopEngine.ArmedTrail | core/position_manager.py:869-896 | an armed trail offers the peak offset, clamped to entry in profit |
| StopEngine.RunnerTrail | core/position_manager.py:898-916 | after a partial an unarmed trail starts on the runner |
| StopEngine.TrailRule | core/position_manager.py:853-916 | the whole trail block settles the stop and row as declared |
| StopEngine.TimeRule | core/position_manager.py:918-973 | time decay offers the interpolated stop, never loosening |
| StopEngine.ComputeManagedSl | core/position_manager.py:629-983 | the rule cascade returns the declared outcome: stop, row and actions |
| StopEngineProofs.SettleIsTightest | core/position_manager.py:792-808 | offering candidates in turn leaves the tightest of them and the old stop |
| StopEngineProofs.ManagedStopIsTightest | core/position_manager.py:686-983 | for BUY, and SELL with a stop, the result is the tightest of the old stop and every fired rule's candidate; None exactly when it improves by less than 1e-9 |
| StopEngineProofs.SellWithoutStopTakesLastRule | core/position_manager.py:804-808 | a SELL without a stop takes the last fired rule's candidate |
| StopEngineProofs.SellWithoutStopIsTightestIff | core/position_manager.py:804-916 | that is still the tightest offer exactly when no earlier rule that fires offers less: the trail against break-even and the 70% rule, or the 70% rule's own two stops |
| StopEngineProofs.SellWithoutStopMissesTightest | core/position_manager.py:804-891 | sold at 100 without a stop, offered 99 and then 100, the position gets 100 |
| StopEngineProofs.MirrorBreakEven | core/position_manager.py:705-808 | the break-even trigger and lock ignore the side, given reflected prices |
| StopEngineProofs.MirrorTrailStop | core/position_manager.py:869-891 | the trailing stop is reflected |
| StopEngineProofs.MirrorTime | core/position_manager.py:926-968 | the time-decay stop is reflected |
| StopEngineProofs.ManagedIsMirrorSymmetric | core/position_manager.py:642-983 | reflecting all prices about entry and swapping sides reflects the returned stop and leaves flags, trail distance and MFE/MAE unchanged, for all configurations |
| StopEngineProofs.ActionsAreMirroredIff | core/position_manager.py:903-916 | the action lists of mirror images are equal exactly when the trail forced on a runner does not move the stop |
| StopEngineProofs.ForcedTrailIsLoggedForSellOnly | core/position_manager.py:908-916 | a runner in profit on either side: the SELL logs its forced trail, the BUY does not |
| StopLaws.BreakEvenByDistance | core/position_manager.py:716-808 | with n points of size pt (or an ATR multiple) as trigger the stop moves exactly from that favourable move on, to entry plus the lock, on both sides, unless the lock is too small a win |
| StopLaws.BreakEvenByUsd | core/position_manager.py:716-808 | with a USD trigger u, not silenced by points, it moves exactly from a profit of u on |
| StopLaws.BreakEvenByPercent | core/position_manager.py:730-790 | from the configured share of the entry price on it moves to entry, or to a lock in points, however small the win |
| StopLaws.BreakEvenStays | core/position_manager.py:716-808 | once latched the lock is offered at every price |
| StopLaws.BreakEvenByAny | core/position_manager.py:716-808 | in general: once latched or any trigger is reached the stop moves to the lock (points, else USD, else entry by the percentage, else an ATR multiple), except for too small a win short of the percentage; otherwise it stays |
| StopLaws.AdaptiveByShare | core/position_manager.py:810-851 | before break-even the 70% rule moves the stop exactly from the configured share of the way to TP1 on, to the tighter of entry and a distance behind the best price |
| StopLaws.AdaptiveOnce | core/position_manager.py:818-830 | a position at break-even is left alone by it |
| StopLaws.RaisesWithoutPointSize | core/position_manager.py:453-484 | managing a stop raises exactly where trailing is on in points of unknown size |
| StopLaws.TrailFollowsBest | core/position_manager.py:853-916 | an armed trail keeps the stop a distance behind the best price, never on the losing side of entry while in profit; unarmed, only a runner is trailed |
| StopLaws.DecayByAge | core/position_manager.py:918-973 | nothing moves up to the start age; from then on the stop is the point of the way from the initial stop to the target that the age is of the window |
| StopLaws.BreakEvenLatches | core/position_manager.py:786-808 | break-even is latched exactly by a stop that moves |
| StopLaws.AdaptiveLatches | core/position_manager.py:832-851 | the 70% rule latches break-even, trailing and its distance exactly when it fires |
| StopLaws.TrailLatches | core/position_manager.py:869-916 | trailing is latched with its distance exactly when armed or forced on a runner |
| StopLaws.ExcursionsAreTracked | core/position_manager.py:683-704 | every tick records the best and the worst price, and both excursions in units of the initial risk to four decimals |
| StopLaws.BreakEvenLogs | core/position_manager.py:792-808 | break-even is logged exactly where the stop it offers protects more |
| StopLaws.AdaptiveLogs | core/position_manager.py:832-851 | the 70% rule is logged exactly when it fires |
| StopLaws.TrailLogs | core/position_manager.py:869-916 | an armed trail is logged, with break-even where it first holds the stop at entry; a forced one for a SELL whose stop it moves |
| StopLaws.DecayLogs | core/position_manager.py:958-973 | time decay is logged exactly where its stop protects more |
| StopLaws.CascadeIsItsRules | core/position_manager.py:705-983 | with all rules on, the cascade offers exactly what each rule offers by itself, each on the row that the rules before it leave |
| StopLaws.ResultIsTightestRule | core/position_manager.py:705-983 | and settles the tightest stop that the rules settle by themselves |
| StopLifecycle.ArmedTickInProfitLocks | core/position_manager.py:870-895 | a tick in profit with trailing armed stores a stop at entry or better |
| StopLifecycle.ManageKeepsLock | core/position_manager.py:975-983 | no later tick loosens the stop past entry |
| StopLifecycle.SellTickKeepsLockExactly | core/position_manager.py:792-968 | a tick keeps a SELL's lock exactly when each rule that fires, by its own lock, peak, distance or time target, offers a stop above half a grid step |
| StopLifecycle.SellTickLosesLock | core/position_manager.py:803-808 | a break-even lock of more than the price loses the lock at one input |
| StopLifecycle.RoomKeepsStopsPositive | core/position_manager.py:792-968 | so it is when every distance a rule moves the stop into profit leaves room above zero |
| StopLifecycle.SellPartialLocksExactly | core/position_manager.py:1687-1719 | a SELL partial keeps a stop exactly when its lock is more than half a grid step short of the entry price |
| StopLifecycle.SellPartialLosesLock | core/position_manager.py:1687-1719 | sold at 1.0 with an initial stop of 4.0 and locked at 0.99, TP1 stores -0.05 |
| StopLifecycle.PartialKeepsLock | core/position_manager.py:1687-1725 | a partial may loosen the stop to its lock, never past entry |
| StopLifecycle.StepKeepsWellKept | core/position_manager.py:1052-1055 | stored stops stay on the 5-decimal grid and non-negative |
| StopLifecycle.LockLastsForever | core/position_manager.py:987-1085 | a locked position stays locked through every sequence of ticks and partials |
| StopLifecycle.NoLossLock | core/position_manager.py:870-895 | one armed tick in profit, and the stop is at entry or better in every later state |
| StopLifecycle.LockIsReached | core/position_manager.py:869-895 | a concrete BUY and SELL in profit reach the lock |
| LifecycleLaws.TickStores | core/position_manager.py:1041-1056 | a tick stores the returned stop to five decimals, the row, and a second target (the configured multiple of the distance from entry to the stop) where there is none |
| LifecycleLaws.PartialByPrice | core/position_manager.py:1640-1729 | the first price at TP1 closes the largest volume, books the move from entry to TP1 on it, puts the stop the lock beyond entry, re-targets the runner and latches the row |
| LifecycleLaws.NoPartial | core/position_manager.py:1656-1685 | otherwise nothing is booked, and at most a second target is stored |
| LifecycleLaws.RunRemembersExtremes | core/position_manager.py:690-695 | over every run of ticks and partials the row holds the best and the worst price any tick saw, entry included |
| LifecycleLaws.RunBooksOnce | core/position_manager.py:1656-1725 | over every run at most one partial is booked, lots change only then, and latches and the initial stop are never taken back |
| StopBook.PaperBook.ManageOne | core/position_manager.py:1041-1056 | a tick stamps a missing TP2, stores the returned stop rounded to 5 decimals, and the row |
| StopBook.PaperBook.PartialOne | core/position_manager.py:1640-1729 | TP1 keeps a fallback TP2, records the trade, re-targets and locks the runner, latches the row; a position too small to split leaves the flag set that closes positions whole |
| StopBook.PaperBook.RunPass | core/position_manager.py:987-1085 | one pass over the book: each position's own step, reversals dropped, trades recorded, nothing stored if computing a stop raises |
| StopBook.PassStepsEachPosition | core/position_manager.py:1640-1756 | after a pass every position left is its own step, widened to a whole close where an earlier position was closed whole; rows of other tickets are untouched |
| BookLaws.PassIs | core/position_manager.py:987-1085 | a pass raises exactly where computing one stop does; else it leaves exactly the positions not reversed, in order and after their own step, their rows, every other row as it was, and the trades booked in order |
| StopBook.PositionsDisturbByClosingWhole | core/position_manager.py:1665-1692 | a position closed whole at TP1 makes every later one at TP1 close whole; otherwise a position is as if it were alone |
| StopBook.SmallPositionClosesTheNextWhole | core/position_manager.py:1679-1692 | half of 1.0 lots stays open at TP1, but none after a position of 0.01 lots |
| StopBook.BookStaysLocked | core/position_manager.py:987-1085 | once all positions are locked, all that remain stay locked through every sequence of passes |
| Bocpd.BocpdDetector.constructor | core/bocpd_gate.py:71-106 | the initial state |
| Bocpd.BocpdDetector.CollectWarmup | core/bocpd_gate.py:121-129 | returns are collected until the variance freezes |
| Bocpd.BocpdDetector.ScaledPdfs | core/bocpd_gate.py:154-170 | densities divided by their maximum (1e-300 when none is positive) |
| Bocpd.BocpdDetector.ChangepointMass | core/bocpd_gate.py:172-177 | the index loop is the hazard-weighted sum |
| Bocpd.BocpdDetector.GrowthMass | core/bocpd_gate.py:184-187 | the growth loop fills one entry per run length |
| Bocpd.BocpdDetector.GrowStatistics | core/bocpd_gate.py:181-196 | run means and counts grow by the observation |
| Bocpd.BocpdDetector.FindMap | core/bocpd_gate.py:221-225 | the first index of the largest posterior |
| Bocpd.BocpdDetector.Recurse | core/bocpd_gate.py:143-206 | rescaled densities and normalisation give the unrescaled recursion: rescaling cancels |
| Bocpd.BocpdDetector.Update | core/bocpd_gate.py:111-225 | one observation takes the detector to the declared next state; a non-finite one changes nothing |
| Bocpd.BocpdDetector.IsChangepoint | core/bocpd_gate.py:240-248 | after warm-up, the stored posterior attains its maximum at a run length up to the changepoint limit: the stored MAP run length is never stale |
| Bocpd.BocpdDetector.IsTransition | core/bocpd_gate.py:250-259 | after warm-up, the posterior attains its maximum only past the changepoint limit and within the transition limit; never together with a changepoint |
| Bocpd.BocpdDetector.IsGatedBar | core/bocpd_gate.py:261-263 | after warm-up, the posterior attains its maximum within either limit |
| BocpdProofs.FlagsFollowForward | core/bocpd_gate.py:240-263 | over any stream the two flags are decided by where the plain forward recursion on batch statistics has its maximum |
| Bocpd.RescalingCancels | core/bocpd_gate.py:163-170 | dividing all densities by one positive number does not change the posterior |
| BocpdProofs.WarmupIsBatch | core/bocpd_gate.py:121-129 | the frozen variance is the floored batch variance of the first bars |
| BocpdProofs.FrozenVarianceIsForever | core/bocpd_gate.py:121-131 | once frozen, the variance never changes |
| BocpdProofs.StatisticsStep | core/bocpd_gate.py:178-196 | every retained run length's count and mean are those of the last observations |
| BocpdProofs.PosteriorIsNormalisedForward | core/bocpd_gate.py:131-219 | for every stream the posterior is the plain forward recursion normalised once, statistics are batch ones, the length is min(t+1, max_run), and the zero-mass reset is never taken |
| BocpdProofs.ForwardRecursion | core/bocpd_gate.py:143-187 | a new segment gets 1/lambda of all mass weighed by the densities of the newest observation (at each segment's mean, with variance v(n+2)/(n+1)); every other run length keeps the rest of the mass that was one shorter |
| BocpdProofs.ForwardIsEvidence | core/bocpd_gate.py:172-187 | what a run length weighs: the mass of the new segment when it began, times (lambda-1)/lambda for each step since, times the likelihood of its observations |
| BocpdProofs.PredictiveSpread | core/bocpd_gate.py:158 | for v > 0 the predictive variance is 2v at n = 0, strictly between v and 2v afterwards, and falls strictly with n |
| BocpdProofs.VarianceByMoments | core/bocpd_gate.py:121-129 | the batch variance is the mean of the squares less the square of the mean |
| BocpdProofs.ChangepointProbability | core/bocpd_gate.py:172-225 | P(r=0) is exactly 1/lambda until truncation starts and at least that afterwards |
| BocpdProofs.ChangepointExceedsIffTruncated | core/bocpd_gate.py:208-215 | P(r=0) exceeds 1/lambda exactly when lambda is above 1 and run lengths have been truncated |
| BocpdProofs.PosteriorIsDistribution | core/bocpd_gate.py:199-219 | the posterior is non-negative and sums to 1 |
| BocpdLaws.ReportsPosterior | core/bocpd_gate.py:217-225 | what is reported is the first entry of the posterior and the first index of its maximum |
| BocpdLaws.ResetStartsAfresh | core/bocpd_gate.py:198-206 | an observation to which no stored run length gives any density puts all mass on a new segment of that observation, with half of it as mean |
| BocpdProofs.Pigeonhole | core/bocpd_gate.py:221-225 | a posterior of fewer than lambda entries starting at 1/lambda has its maximum elsewhere |
| BocpdProofs.MapRunIsPositiveEarly | core/bocpd_gate.py:172-225 | the MAP run length is at least 1 at every untruncated step below lambda - 1 |
| BocpdProofs.GateOpensAfterWarmup | core/bocpd_gate.py:121-129 | over any stream the gate can fire exactly from the last warm-up bar on |
| BocpdProofs.EarlyBarsAreNotChangepoints | core/bocpd_gate.py:240-259 | at an untruncated step below lambda - 1 a changepoint is never one of run length 0: with the default limit of 1 the MAP run length is then exactly 1 |
| PaperBroker.Advance | core/paper_broker.py:378-454 | peak, break-even latch and initial stop move as declared |
| PaperBroker.Trail | core/paper_broker.py:499-529 | the trail block moves the stop as declared, and raises exactly where it is armed without a known distance |
| PaperBroker.CheckPosition | core/paper_broker.py:327-582 | the loop body raises or takes the declared step: stop first, then partial, raised stop and targets |
| PaperLaws.StopStandsFirst | core/paper_broker.py:338-376 | a position whose pre-step stop is reached closes there, whatever else the bar reaches |
| PaperLaws.PartialAtTp1 | core/paper_broker.py:456-497 | the first attained TP1 of an unstopped position banks the largest volume there; the runner is locked beyond entry and aims at TP2 |
| PaperLaws.BreakEvenMoves | core/paper_broker.py:378-454 | the stop goes to entry plus the lock exactly where break-even is due by price or USD and that protects more; the best price and the initial stop are recorded |
| PaperLaws.TrailFollows | core/paper_broker.py:499-529 | a due trail moves the stop behind the best price where that protects more |
| PaperLaws.NoTrail | core/paper_broker.py:499-529 | one that is not due moves nothing and raises nothing |
| PaperLaws.RaisesIff | core/paper_broker.py:499-529 | a step raises exactly where an unstopped, unbanked position's due trail is set in points of unknown size |
| PaperLaws.ExitsAfterMoves | core/paper_broker.py:531-582 | after the moves: the moved stop, then TP2 of a runner, then TP1 where partials are off and no trail is active, else the position is held |
| PaperLaws.RealisesTheMove | core/paper_broker.py:541-625 | a step realises the move from entry to the exit price on the lots closed |
| PaperLedger.ExitKeepsId | core/paper_broker.py:327-582 | a step never changes a position's id |
| PaperLedger.RemovalLeavesSurvivors | core/paper_broker.py:168-169 | removing the closed ids leaves exactly the positions that did not close |
| PaperLedger.Broker.UnrealizedPnl | core/paper_broker.py:277-285 | the loop is the sum of open P&L |
| PaperLedger.Broker.CheckExits | core/paper_broker.py:297-625 | the exit loop gives every updated record, closed ids, trades and cash, and raises exactly when a position does |
| PaperLedger.Broker.Remove | core/paper_broker.py:169 | closed ids leave the list, the rest stay in order |
| PaperLedger.Broker.FillOrders | core/paper_broker.py:82-165 | admitted signals fill in order, each under a fresh id |
| PaperLedger.Broker.ProcessApprovedSignals | core/paper_broker.py:53-182 | one call: fills, exits, cash and equity, as one step of the book; a call that raises leaves the book |
| PaperLaws.FillsByPrice | core/paper_broker.py:65-165 | which signals fill and the position that opens: a limit order at its own price and only at a market as good, else at the market |
| PaperLaws.FillsInOrder | core/paper_broker.py:82-165 | a call's fills are appended in the order of the signals under the next free ids |
| PaperLaws.CallRaisesIff | core/paper_broker.py:168-182 | a call raises exactly where checking one of its positions does |
| PaperLaws.EquityIsLiquidation | core/paper_broker.py:170-172 | equity after a call is the cash that closing every open position at its market price would leave |
| PaperLaws.RiseMovesEquity | core/paper_broker.py:277-285 | a rise in price raises the open P&L by the rise on every lot long and lowers it by that on every lot short |
| PaperLossProofs.PartialLeavesRunner | core/exit_manager.py:79-92 | TP1 never closes more than the position holds |
| PaperLossProofs.VolumeIsConservedOnlyOnLotGrid | core/paper_broker.py:489 | closed plus remaining lots equal the size exactly when it is on the 0.01 grid |
| PaperLossProofs.OffGridLotsGrow | core/paper_broker.py:489 | half of 0.025 lots: 0.01 is closed and 0.02 stays |
| PaperLossProofs.StopOnlyTightens | core/paper_broker.py:444-529 | break-even and trailing only move the stop towards profit |
| PaperLossProofs.CloseCostsAtMostRisk | core/paper_broker.py:541-588 | a close never costs more than the current risk |
| PaperLossProofs.PartialBanksGain | core/paper_broker.py:456-497 | a partial realises a gain and puts the runner's stop at entry or better |
| PaperLossProofs.StepNeverCostsMore | core/paper_broker.py:338-588 | cash plus what is still at risk never falls below what was at risk |
| PaperLossProofs.WorstCaseLoss | core/paper_broker.py:338-588 | over any bars a position realises at least minus its initial risk times size; with its partial taken the total is positive |
| PaperLossProofs.PassNeverCostsMore | core/paper_broker.py:338-625 | the same for a whole exit pass |
| PaperRunProofs.PassTrades | core/paper_broker.py:456-497 | a pass records at most one trade a position: final for a close, partial only where there was none |
| PaperRunProofs.NextKeepsLifecycle | core/paper_broker.py:168-170 | one call keeps the lifecycle |
| PaperRunProofs.RunKeepsLifecycle | core/paper_broker.py:168-170 | in every reachable book a position is open exactly when it has no final trade, and has at most one partial and, strictly later, at most one final trade |
| PaperRunProofs.CashIsConserved | core/paper_broker.py:147-172 | cash is starting cash plus recorded P&L to half a cent a trade, and equity is cash plus unrealised P&L, after every call |
| PaperRunProofs.AccountWorstCase | core/paper_broker.py:147-172 | the account never ends below its starting cash less the initial risk of everything it filled |
| DailyPnl.BucketByDay | core/edge_monitor.py:144-158 | the bucket dictionary holds each UTC day's total of the symbol's dated closes |
| DailyPnl.RealizedDailySeries | core/edge_monitor.py:161-194 | the series is each of the last days' total, oldest first, 0 for a day without closes |
| DailyPnl.DayPnlIsTotal | core/edge_monitor.py:144-158 | a day's P&L is what the symbol's trades dated that day realised |
| DailyPnl.SeriesTotals | core/edge_monitor.py:161-194 | the days of a series sum to the trades of its days |
| DailyPnl.VarianceByMoments | core/edge_monitor.py:196-204 | the variance is the mean of the squares less the square of the mean |
| EdgeMonitor.SymbolEdgeState.UpsertHistory | core/edge_monitor.py:262-270 | same-day rows are replaced, 90 kept |
| EdgeMonitor.SymbolEdgeState.Advance | core/edge_monitor.py:368-427 | the transition block moves status and counters as declared |
| EdgeMonitor.SymbolEdgeState.EvaluateSymbol | core/edge_monitor.py:275-463 | one observation of the closed trades takes the symbol to its declared next state |
| EdgeMonitor.Tick | core/edge_monitor.py:503-556 | a tick evaluates each projected symbol once and leaves all others alone |
| EdgeMonitorProofs.CounterTracksDays | core/edge_monitor.py:385-401 | the in-band counter is the number of distinct in-band days of the streak, or one less |
| EdgeLaws.HaltIsEnteredIff | core/edge_monitor.py:327-380 | in every run HALT is entered exactly at an observation with enough closes, wherever the symbol was, whose two halves are both off the projection by more than sigma deviations (a fixed floor for a flat half) |
| EdgeLaws.WatchIff | core/edge_monitor.py:414-427 | WATCH is entered exactly from OK with one half off, and is left exactly with both (HALT) or neither (OK) off |
| EdgeLaws.HaltEndsIff | core/edge_monitor.py:385-413 | HALT ends exactly at an observation with neither half off by which the required in-band days are counted |
| EdgeLaws.RecordTells | core/edge_monitor.py:369-463 | in every run halt_entered_at is the time of the last entry, and the observation counter counts judged observations, and each release once more |
| EdgeMonitorProofs.ReleaseNeedsDistinctDays | core/edge_monitor.py:367-437 | between a HALT entry and the release lie in-band observations on at least recovery_required distinct UTC days and none out of band among them |
| EdgeMonitorProofs.HaltIsNotOverlong | core/edge_monitor.py:408-413 | a symbol still on HALT has at most recovery_required distinct in-band days since its last out-of-band one |
| EdgeMonitorProofs.HaltCountIsEntries | core/edge_monitor.py:375-379 | halt_entered_count is the number of HALT entries of the run |
| EdgeMonitorProofs.HistoryHasOneRowPerDay | core/edge_monitor.py:262-270 | the history holds one row a day, in order, at most 90 |
| EdgeMonitorProofs.OnlyHaltBlocks | core/edge_monitor.py:618-635 | the entry hook blocks exactly on HALT |
| EdgeMonitorProofs.DivergenceComparesDeviations | core/edge_monitor.py:217-259 | the square-root-free test is the coded comparison with the population standard deviation and its fixed floor |
| EdgeMonitorProofs.BandsDifferIff | core/edge_monitor.py:385-387 | for any sigma threshold the coded in-band test and the documented one of one deviation differ exactly when one half is between one and sigma deviations off and the other does not diverge at the larger of them |
| EdgeMonitorProofs.OneAndAHalfSigmaIsInBand | core/edge_monitor.py:327-401 | seven closes over four days: a half one and a half deviations off is evaluated and counted as in band |
| EdgeMonitorProofs.GateCountsDaysIff | core/edge_monitor.py:327-334 | the minimum-data count is the number of days with a nonzero close exactly when every such close is dated and no day has two, and never below it |
| EdgeMonitorProofs.OneBusyDayPassesTheGate | core/edge_monitor.py:327-334 | seven closes on one day pass the gate of seven days |
| Canary.CanaryState.UpsertTodayHistory | core/canary.py:252-261 | same-day rows are replaced, 90 kept |
| Canary.CanaryState.Judge | core/canary.py:497-571 | decay, promotion, demotion or holding, as declared |
| Canary.CanaryState.RunChecks | core/canary.py:492-587 | the checks on the current canary take the declared step |
| Canary.CanaryState.Tick | core/canary.py:310-617 | one cycle takes the declared step and decision |
| CanaryProofs.PickIsBestTrusted | core/canary.py:97-155 | the pick is the pinned trusted symbol, else the first trusted row of the highest projection; none only when no row qualifies or by veto |
| CanaryProofs.BoostIsAnUnrevokedPick | core/canary.py:335-571 | in every run the canary is boosted exactly when its last granting or revoking decision was a pick or switch |
| CanaryProofs.BoostIsLostOneWay | core/canary.py:706-712 | without a pick or switch a lost boost never gives a multiplier above 1 again, for any symbol |
| CanaryProofs.HistoryTracksDays | core/canary.py:573-586 | the history has one row per observed day since the last pick or switch, up to 90 |
| CanaryProofs.PromotionNeedsDays | core/canary.py:497-542 | a promotion has at least the window's number of distinct UTC days behind it; a window above 90 never promotes |
| CanaryProofs.ProtectionStartsAfterTheWindow | core/canary.py:431-482 | a promoted canary is protected as intended exactly once its window has passed |
| CanaryProofs.DecayComparesDeviations | core/canary.py:286-303 | the square-root-free decay test is the coded comparison with the population standard deviation |
| CanaryLaws.CheckedBy | core/canary.py:497-571 | a checked canary decays, is promoted, is demoted or goes on exactly by its halves' totals, its total over the control's, and the evidence |
| CanaryLaws.DecidedBefore | core/canary.py:335-482 | what the cycle decides before checking: disabled, no pick, a first pick, a protected canary or a switch |
| CanaryLaws.DecisionMoves | core/canary.py:335-571 | what each decision does to the status and the times |
| CanaryLaws.CheckRecords | core/canary.py:573-587 | a check ends the history with today's two totals |
| CanaryLaws.MultiplierIs | core/canary.py:706-712 | entries are enlarged exactly for the boosted canary's own symbol, by its multiplier, and never shrunk |
| CanaryProofs.FreshPromotionIsDropped | core/canary.py:431-482 | a canary promoted an hour ago is dropped for a smaller projection |
| RateLimit.FastState.CountSince | core/fast_entry_executor.py:34-47 | the counting loop counts the stamps in the window |
| RateLimit.FastState.RateLimitsOk | core/fast_entry_executor.py:65-80 | the first limit that blocks |
| RateLimit.FastState.RecordTradeEntry | core/fast_signal_cache.py:169-187 | the stamp is appended, old ones pruned, 20 kept, other symbols untouched |
| RateLimit.FastState.Execute | core/fast_live_executor.py:176-180 | gate, place, record |
| RateLimit.RecordedCovers | core/fast_signal_cache.py:169-187 | pruning and truncation drop only what is too old or beyond the newest 20 |
| RateLimit.GateSpacing | core/fast_entry_executor.py:34-47 | a gate that passes sees every entry that matters |
| RateLimit.OtherSymbolLeavesBuckets | core/fast_signal_cache.py:169-187 | an attempt on another symbol leaves a symbol's stamps alone |
| RateLimit.RunKeepsInv | core/fast_entry_executor.py:65-80 | what every run keeps of a symbol's stamps at its own last clock reading |
| RateLimit.WindowsNeverOverflow | core/fast_entry_executor.py:65-80 | in every run serialised per symbol (attempts on different symbols may overlap) every closed one-hour and ten-minute window holds at most its cap of a symbol's entries |
| RateLaws.EntersByHistory | core/fast_entry_executor.py:65-80 | in every run an attempt enters exactly where its order is placed, the symbol's full history has room under both caps (one above 20 is never reached), the losing streak is below its cap and no cooldown is on |
| RateLaws.BlockedBy | core/fast_entry_executor.py:65-80 | which of the four limits is reported, and exactly when |
| RateLaws.EntryIsRecorded | core/fast_signal_cache.py:169-187 | an entry's buckets keep the newest 20 stamps of two hours and of ten minutes |
| RateLaws.CountsWindow | core/fast_entry_executor.py:34-47 | what the window counts count |
| RateLimit.HourlyCapHoldsIff | core/fast_signal_cache.py:169-187 | for all settings, the hourly cap holds in every run exactly when it is at most 20, or the ten-minute cap is set, at most 20, and six of it fit in the hourly one |
| RateLimit.TenMinuteCapHoldsIff | core/fast_signal_cache.py:169-187 | for all settings, the ten-minute cap holds in every run exactly when it or the hourly cap is at most 20 |
| TradeCaps.Terminal.ProcessApprovedSignalsUnsafe | core/mt5_broker.py:177-310 | the batch decides each signal on the positions last read (none where the read failed), whatever closed since |
| TradeCaps.LockedBatchIsARun | core/mt5_broker.py:147-151 | the locked batch is a run of the protocol from acquisition to release |
| TradeCaps.StepKeepsGuard | core/mt5_broker.py:198-201 | only the lock holder is in a batch, and its last read covers everything open or there is room to spare |
| TradeCaps.PlacementKeepsCaps | core/blue_guardian.py:205-217 | a placement the gates let through stays within the caps |
| TradeCaps.CapsHoldUnderLock | core/mt5_broker.py:258-297 | however many loops and closes interleave, no total or per-symbol cap is exceeded while reads fail only with room to spare |
| TradeCaps.CapsHoldFromIdle | core/dynamic_entry.py:32-40 | from idle loops the caps hold in every reachable state |
| TradeCaps.SuccessfulReadsAreSafe | core/mt5_broker.py:297 | runs in which no read fails need no such proviso |
| TradeCaps.FailedReadKeepsCapsIffSpare | core/mt5_broker.py:573-576 | in any state the lock guards, after a failed read anywhere in a batch, every run keeps the caps of a symbol whose order still passes on an empty account exactly when there was room to spare |
| TradeCaps.WithoutLockCapIsBroken | core/mt5_broker.py:142-146 | on the path without the lock two loops exceed the cap from any account one below it |
| TradeCaps.PassesIff | core/blue_guardian.py:205-217 | a signal passes exactly where its other gates do and every cap that applies has room for one more |
| TradeCaps.BatchFillsTheRoom | core/mt5_broker.py:177-310 | an undisturbed batch of orders on one symbol places exactly as many as there is room for under every cap |
| TradeCaps.EverySignalIsDecided | core/mt5_broker.py:198-297 | in every run, with the lock or without, what a loop's batches brought is what it decided and has left |
| Exposure.ExposureFromPositions | core/exposure.py:92-114 | the dictionary holds each symbol's notional and its values sum to the total |
| Exposure.SpreadIsTotal | core/exposure.py:112-114 | summing by symbol equals summing by position |
| Exposure.CapSizeToExposureLimits | core/exposure.py:269-322 | the granted size or refusal |
| Exposure.MaxSizeIsLargest | core/exposure.py:124-148 | a size fits the remaining exposure exactly up to the returned one |
| Exposure.GrantIsTight | core/exposure.py:308-322 | refusal exactly when the best size is below the minimum; a grant is within one lot step below the best size |
| Exposure.GrantIff | core/exposure.py:286-322 | a signal is refused exactly where its request or what both limits leave is below the minimum; a grant fits, and one lot step more does not |
| Exposure.BestSizeIs | core/exposure.py:289-309 | a positive size is allowed exactly where it is requested and keeps both limits (the symbol's alone where symbols are independent) |
| Exposure.UnlimitedGrant | core/exposure.py:286-287 | without limits the larger of request and minimum is granted to four decimals, whatever is open |
| Exposure.GrantFits | core/exposure.py:292-322 | a grant keeps both limits |
| Exposure.FillFitsIffNotAboveEntry | core/paper_broker.py:122-149 | a capped admission keeps the limits in every case exactly when the fill is not above the entry price it was sized for |
| Exposure.StepKeepsLimits | core/exposure.py:286-322 | no admission, partial or close lifts an exposure above its limit |
| Exposure.RunKeepsLimits | core/exposure.py:286-322 | over any run with fills at or below the sized entry no exposure exceeds its limit, or its start where that was already above |
| ConfigProposal.ApplyPatchToConfig | core/config_proposal.py:247-260 | the ops are written one after another into a fresh object; the configuration given is not written |
| ConfigProposal.SafeMeansEveryOp | core/config_proposal.py:79-97 | a patch is safe exactly when every op is |
| ProposalLaws.SafeIff | core/config_proposal.py:79-97 | an op is safe exactly where its path is not forbidden, it disables no guard, does not raise the spread limit, and raises the hourly cap only on thirty reviews |
| ProposalLaws.UnsafeBecause | core/config_proposal.py:79-97 | the reason names the rule that is broken; judging raises exactly where a limit to compare is not a number |
| ProposalLaws.FirstUnsafeDecides | core/config_proposal.py:79-97 | a patch is judged by its first unsafe op |
| ProposalLaws.ChangeIsBounded | core/config_proposal.py:49-76 | a change is cut to its setting's range; other settings are not changed, and the payoff ratchet is never lowered by a proposal |
| ConfigProposal.RatchetMayGoDown | core/config_proposal.py:64-97 | lowering the payoff ratchet is judged safe |
| ConfigProposal.GroupBySymbol | core/config_proposal.py:153-156 | reviews grouped by symbol in first-seen order |
| ConfigProposal.ProposeFromReviews | core/config_proposal.py:146-244 | the loops append each symbol's proposals, and raise where the average of no reviews is taken |
| ProposalLaws.MistakesMoveSettings | core/config_proposal.py:159-242 | which mistake, seen how often, moves which setting from which value by how much, and when a capped stop skips the rest |
| ProposalLaws.SymbolsAre | core/config_proposal.py:153-156 | every symbol but the empty one is mined once, in the order of first review |
| ProposalLaws.MiningIs | core/config_proposal.py:146-244 | mining lists each symbol's moves, symbol after symbol, and raises exactly where the average of no reviews is taken |
| ConfigProposal.WidenedStopIsHarmless | core/config_proposal.py:182-203 | a proposed stop is never wider than the cap |
| ConfigProposal.ProposalsAreHarmless | core/config_proposal.py:146-244 | no proposal from any reviews and configuration is rejected as dangerous |
| ConfigProposal.MiningReturns | core/config_proposal.py:162-172 | with a minimum sample of at least 1 mining never raises |
| ConfigProposal.LotIncreaseIsNeverReported | core/config_proposal.py:93-96 | no patch is ever rejected for increasing a lot size: that branch is unreachable |
| LearningOverrides.OverrideFile.RollbackPatch | core/learning_overrides.py:60-71 | every entry with the id goes and a marker is recorded; without an id nothing happens |
| LearningOverrides.EnforceCap | core/learning_overrides.py:52-55 | the cap is written in place into the merged object, or reading it raises |
| LearningOverrides.OverrideFile.ReadEntry | core/learning_overrides.py:43-56 | one entry is skipped and rolled back, applied to a copy and capped there, or raises |
| LearningOverrides.OverrideFile.ApplyLearningOverrides | core/learning_overrides.py:28-57 | the read-back folds the stored patches, drops the unsafe ids, and leaves the input object unmutated: it returns that object when nothing applies, a fresh one otherwise |
| LearningOverrides.LeavesAloneIffIncomparable | core/config_proposal.py:247-260 | a write leaves a path alone in every configuration exactly when it is empty or neither is a prefix of the other |
| LearningOverrides.OpsLeaveAloneIffAllSpare | core/config_proposal.py:247-260 | a list of writes leaves a path alone, for every configuration and all values, exactly when each of its paths is empty or incomparable with it |
| LearningOverrides.SafePatchesLeaveAloneIff | core/config_proposal.py:79-97 | every patch over given paths that is judged safe leaves a forbidden path alone exactly when one of them is itself forbidden, or each is empty or incomparable with it |
| LearningOverrides.ParentWriteReplacesForbidden | core/config_proposal.py:82-84 | in every configuration object a write at the parent of a forbidden path is judged safe and replaces it |
| LearningOverrides.ForbiddenPathsSurvive | core/learning_overrides.py:28-57 | for patches that keep clear of the protected paths the merged configuration agrees with the input on all of them |
| LearningOverrides.StopIsCapped | core/learning_overrides.py:52-55 | once any patch applies, sl_atr_mult is at most the hard cap |
| LearningOverrides.FoldIsFoldOfSafe | core/learning_overrides.py:43-57 | dangerous entries leave no trace in the result |
| LearningLaws.AppliedAreSafe | core/learning_overrides.py:43-57 | exactly the safe patches are reported as applied, in order |
| LearningLaws.ReadBackIsSafeOps | core/learning_overrides.py:43-57 | the result is the safe patches' writes in stored order, but for the number that the cap holds the stop multiple to |
| LearningLaws.LastSafeWriteIsRead | core/learning_overrides.py:51 | the last safe write that is not incomparable with a path is what is read there, where it is at that path and only objects stand on the way |
| LearningLaws.UnwrittenIsKept | core/learning_overrides.py:51 | a path that no safe write comes near keeps its value |
| LearningLaws.LastStopIsRead | core/learning_overrides.py:51-55 | the last safe write of the stop multiple is read back held to the cap |
| LearningLaws.CapLeavesAlone | core/learning_overrides.py:52-55 | a stop multiple within the cap is left as it is |
| LearningOverrides.SecondReadBackIsTheSame | core/learning_overrides.py:28-71 | a second read-back gives the same result exactly when no safe patch shares an id with a rolled-back one |
| LearningOverrides.UniqueIdsReadBackTwice | core/learning_overrides.py:28-71 | with unique ids a second read-back gives the same configuration and ids |
| Drawdown.MaxDrawdown | core/equity_tracker.py:326-331 | the loop computes the largest fall from the running peak |
| Drawdown.OnePassIsExactIff | core/equity_tracker.py:326-331 | on any curve it is the maximum over all pairs exactly when no fall to a negative equity exceeds what is reported |
| Drawdown.ExactIffNonnegative | core/equity_tracker.py:326-331 | it is exact on every curve bounded below by b exactly when b is not negative |
| Drawdown.OnePassIsMaxDrawdown | core/equity_tracker.py:326-331 | for non-negative equities that is the maximum over all pairs |
| Drawdown.DrawdownIsBelowHundred | core/equity_tracker.py:326-331 | positive equities draw down by less than 100 percent |
| Drawdown.NegativeEquityIsUnderstated | core/equity_tracker.py:326-331 | from 1 and 2 to any negative equity the loop reports less than the fall from 1 |

## Left out

- StopLifecycle.NoLossLock: for a SELL it assumes that stored stops stay positive, because a stop stored at 0 or less is read as no stop; `SellTickKeepsLockExactly` and `SellPartialLocksExactly` show that this is exactly what is needed.
- BocpdProofs.PosteriorIsNormalisedForward: assumes a strictly positive density, lambda of at least 1, room for one run length and a positive prior variance, as a Gaussian without underflow has.
- PaperLossProofs.WorstCaseLoss: assumes targets on the profitable side, a non-negative size and ATR, and a post-partial lock that does not point into a loss (a share of a positive initial risk, or a non-negative ATR multiple).
- Exposure.RunKeepsLimits: assumes fills at or below the entry the size was capped for; `FillFitsIffNotAboveEntry` shows that a market fill above it can overrun the limits.
- Floating-point error, `exp` and ISO timestamp parsing; standard deviations are compared through their squares.
- MetaTrader calls, network, files, logging, dashboards, narratives and audit rows.
- Configuration and profile merging; values are taken as resolved for one symbol.
- The live MT5 counterparts of the management and partial loops, and minimum stop distances.
- PaperLedger.Broker.FillOrders: the verdict of the entry gates and the capped size of each signal are inputs, because the gates are other components; the capping itself is the exposure model.
- PaperLedger.Broker.ProcessApprovedSignals: as for FillOrders; the partial changes a raising call leaves in position records held by its caller are not kept.
- TradeCaps.Terminal.ProcessApprovedSignalsUnsafe: gates that do not count positions are one verdict per signal, and regime-flip replacement is left out.
- Exposure.ExposureFromPositions: notional mode only; the risk-USD metric needs broker symbol specifications.
- Exposure.CapSizeToExposureLimits: notional mode only, for the same reason.
- Signal-reversal detection (its verdict is an input) and the archive of management rows.
- Entry gates other than position caps (sessions, duplicates, dynamic entries): their verdict is an input.
- Pending limit orders in the cap protocol.
- Sharing inside one configuration or position record: a configuration is one object holding a value, a position record is a value.
- Kelly sizing and executable volumes.
- Blue Guardian's daily and floating-loss state, the payoff paradox meter, signal generation and scoring tables.
