# Verified model of prop-firm-scalp

A Dafny model of the trading logic of the bot: the market-structure trackers, the scalping strategy,
the risk manager and executor, the two replay simulators with their ledgers, and the tick-to-candle
aggregator. Prices and money are `real`, timestamps and dates `int`, trade ids counters. Every class of
the source that updates its fields in place is a Dafny class whose methods are proved against functions of
the whole history (of bars, operations, steps, rows or ticks) in which only the sizes of its buffers appear,
as "the last 30 ever detected"; what the system promises is then proved of those functions, for every bar
history, every operation sequence or every interleaving.

| file | what it models |
|---|---|
| Foundations.dfy | options, bounded deques, arithmetic |
| Candles.dfy | bars, rejection candles, ATR, the rolling candle buffer |
| StructureSpec.dfy | market structure as a function of the whole bar history |
| MarketStructure.dfy | the execution-timeframe tracker on bounded deques, refining StructureSpec |
| StructureTheorems.dfy | zone separation, swing soundness and completeness, the break language |
| PriceLaws.dfy | what the tracker reports and stores, in the prices of the bars |
| HtfStructure.dfy | the higher-timeframe tracker and its bisimulation with the other |
| Trading.dfy | instruments, signals, trades |
| Strategy.dfy | scoring, gate, signal construction, and exactly when a signal fires |
| Risk.dfy | the risk manager's calls and position sizing |
| RiskHistory.dfy | the risk state as a function of the operation history |
| Executor.dfy | the executor's steps between suspension points |
| ExecutorRuns.dfy | capital bound and trade cap over every interleaving |
| Containment.dfy | the planned loss of a trade, and capital preservation from it |
| Drawdown.dfy | running-peak loops and the pairwise definition |
| Runner.dfy | the bar-by-bar simulation with trailed stop and cooldown |
| RunnerPrices.dfy | the simulation in the prices of its bars |
| Stats.dfy | the statistics ledger |
| Replay.dfy | the replay engine and the agreement of its ledgers |
| ReplayPrices.dfy | the replay in the prices of its rows |
| ReplayRisk.dfy | what a whole replay can lose |
| Ticks.dfy | tick-to-candle aggregation |

Main results:

- The trackers' bounded deques hold exactly what the unbounded history determines, after every run
  (`MarketStructures.MarketStructure.Update`, `HtfStructures.HTFStructure.Update`).
- Every active demand zone lies below every active supply zone, and no active order block ever contains
  the newest close; hence the order-block factor never scores and the exact condition
  of what a bar is answered follows, the side tried first and the exceptions included
  (`DemandBelowSupply`, `NoActiveBlockAtClose`, `LongFiresExactlyWhen`, `ShortFiresExactlyWhen`,
  `AnswersExactlyWhen`).
- The two trackers are bisimilar; the buffers of 40 and 50 swings give the same reference if and only if
  nothing was forgotten (`Bisimulation`, `SearchesAgree`).
- Capital is preserved over every interleaving of signals, fills, failures, closes and rollovers
  (`CapitalIsPreserved`); the daily trade cap is exceeded by at most `c - 1` under `c` concurrent signals,
  that bound is attained, and the cap is hard if and only if `c` is 1. The executor object carries its steps,
  so all of this is proved of the object. When fills are within half a spread and no trade leaves beyond its
  stop, the worst loss is the planned share of the high-water mark; a replay of the strategy's signals is such a
  run (`DisciplinePreservesCapital`, `ReplayPreservesCapital`).
- Whether the risk manager accepts a signal, and which operation halts it, is stated on the operation history
  alone (`AcceptsExactlyWhen`, `HaltedExactlyWhen`).
- A simulated trade risks at most its initial stop and gains at most 0.1%; the bars determine every trade
  and every bar shown to the strategy (`TradeIsBounded`, `RunBacktest`, `RunIsDetermined`), and every
  entry meets the strategy's exact condition on the bars heard (`EveryEntryIsJustified`).
- A replay is one sequential run of the executor, a function of the rows. Its ledgers coincide with the account
  at every bar; its epilogue books exactly the trades left open twice, so report and account agree if and only
  if those made nothing together (`AccountIsLedger`, `RunReplay`).

Every answer is also fixed in the source's own terms, the prices of the bars, the settings and literal numbers,
without naming the functions the model computes with: `PriceLaws`, `RunnerPrices` and `ReplayPrices`, and
`TargetIs`, `SizeIsMaximal`, `RefusedForTheFirst`, `StepsInPrices` and `BreakdownsCount` beside what they fix.

Where code and documentation differ the model follows the code:

- README.md and the strategy's table give 10 points for order-block proximity; mitigation runs on the bar
  being scored, so these points are never awarded (`PossibleScores`).
- README.md asks for a score of 75; the default in the code is 60 (`GateMeans` covers both).
- README.md's target omits the clamp at 1.5 times `target_profit_pct_max` (`ClampKeepsRatio`).
- `calculate_confluence_score` documents 0.80 as exceptional; at the newest close 0.75 is the most possible.
- The `history` parameter of `MarketStructure` is unused: 50 swings are kept whatever it says.
- The candle validator claims `high >= low`, but never sees `low` (`ValidationIsWeakerThanWellFormed`).
- README.md's "hard stop at 5 trades/day" holds only when signals are handled one at a time
  (`CapIsHardIffSequential`).
- The replay's epilogue books each force-closed trade twice in the report, once on the account.
- `max_drawdown_pct` of the statistics exceeds 100% exactly when the balance goes negative, and may then be less
  than the largest proportional drop (`AtMostAllExactlyWhen`, `PairwiseExactlyWhen`).

## Model

| member | source | states |
|---|---|---|
| Candles.ValidationIsWeakerThanWellFormed | app/models/candle.py:26-46 | the validators accept a bar whose low exceeds its high; a validated bar is well formed exactly when three further comparisons hold |
| Candles.AtrIsBetweenTrueRanges | app/strategy/candles.py:36-49 | the ATR lies between the smallest and largest true range of its sample and is never negative |
| Candles.RejectionExactlyWhen | app/strategy/candles.py:8-26 | a strong rejection closes its own way with a wick of at least 55% behind it and a body of at most half the range |
| Candles.RejectionInShares | app/strategy/candles.py:8-26 | the same of any bar with a range, well formed or not |
| Candles.TrueRangeIsTight | app/strategy/candles.py:43-47 | a true range is the least that covers the bar and its distances from the previous close |
| Candles.AtrIsMean | app/strategy/market_structure.py:888-901 | the ATR times the number of adjacent pairs among the newest 15 bars is the sum of their true ranges |
| Candles.AtrOfNewest | app/strategy/market_structure.py:888-901 | the ATR depends only on the newest 15 bars |
| Candles.ComputeAtr | app/strategy/market_structure.py:888-901 | the accumulating loop computes the mean true range of those bars |
| Candles.BufferStep | app/models/candle.py:97-107 | replacing the last bar on an equal timestamp, or appending, keeps the newest bars of the collapsed stream |
| Candles.CandleSeries.Append | app/models/candle.py:97-107 | the buffer stays the newest bars of everything appended, live updates collapsed; a foreign bar changes nothing |
| Candles.CandleSeries.Tail | app/models/candle.py:117-123 | the newest n bars, none for a non-positive n |
| MarketStructures.PivotInDeque | app/strategy/market_structure.py:635-685 | the swing verdict read off the bounded deque is the one of the whole history |
| MarketStructures.BlockInDeque | app/strategy/market_structure.py:707-739 | so is the search for the last opposing bar |
| MarketStructures.GapInDeque | app/strategy/market_structure.py:756-786 | and the three-bar imbalance test |
| MarketStructures.TouchUpdatesMarks | app/strategy/market_structure.py:792-823 | marking what the newest bar touches makes every flag mean: some bar since creation touched it |
| MarketStructures.FillUpdatesMarks | app/strategy/market_structure.py:825-850 | the same for filled gaps |
| MarketStructures.SwingStep | app/strategy/market_structure.py:635-676 | one bounded swing update yields the last 50 of all swings of the longer history |
| MarketStructures.BlockStep | app/strategy/market_structure.py:434-463 | detect, keep 30, mitigate: yields the last 30 blocks ever detected with their history flags |
| MarketStructures.GapStep | app/strategy/market_structure.py:458-463 | the same for fair value gaps |
| MarketStructures.BreakStep | app/strategy/market_structure.py:412-456 | trend and events of the longer history in terms of the stored swings |
| MarketStructures.MarketStructure.Update | app/strategy/market_structure.py:397-465 | after every update all five fields are what the whole history determines, and the events returned are the history's |
| MarketStructures.MarketStructure.DetectEvents | app/strategy/market_structure.py:415-456 | sweeps in order, then at most one break, the trend it leaves and the block it may add |
| MarketStructures.MarketStructure.DetectSwings | app/strategy/market_structure.py:635-676 | adds exactly the confirmed high, then the confirmed low, repeats dropped |
| MarketStructures.MarketStructure.AddIfProminent | app/strategy/market_structure.py:678-685 | a swing is stored when it passes the ATR filter and does not repeat the newest one |
| MarketStructures.MarketStructure.DetectOrderBlock | app/strategy/market_structure.py:691-739 | stores the block behind a displacement break, or nothing |
| MarketStructures.MarketStructure.DetectFvg | app/strategy/market_structure.py:745-786 | stores the imbalances the newest three bars complete |
| MarketStructures.MarketStructure.MitigateObs | app/strategy/market_structure.py:792-823 | marks exactly the unmitigated blocks the bar touches, order and content otherwise unchanged |
| MarketStructures.MarketStructure.FillFvgs | app/strategy/market_structure.py:825-850 | the same for gaps |
| MarketStructures.MarketStructure.FindOrderBlocks | app/strategy/market_structure.py:494-516 | the selected blocks, newest first |
| MarketStructures.MarketStructure.FindFvg | app/strategy/market_structure.py:522-544 | the selected gaps, newest first |
| MarketStructures.MarketStructure.CalculateConfluenceScore | app/strategy/market_structure.py:550-613 | the five weights, each awarded on a fact about the whole history |
| StructureTheorems.ActiveBlockClearsEveryBar | app/strategy/market_structure.py:792-823 | an active block lies strictly beyond every bar since its creation, the creating bar included |
| StructureTheorems.DemandBelowSupply | app/strategy/market_structure.py:434-463 | every active demand zone lies below every active supply zone, whatever came before a newest bar whose low is not above its high |
| StructureTheorems.NoActiveBlockAtClose | app/strategy/market_structure.py:461-463 | no active block contains the newest close |
| StructureTheorems.CloseScoresAtMostThreeQuarters | app/strategy/market_structure.py:550-613 | the confluence score of the newest close is at most 0.75 |
| StructureTheorems.ActiveGapClearsEveryBar | app/strategy/market_structure.py:825-850 | an unfilled gap was never traded through since it opened |
| StructureTheorems.QuerySelects | app/strategy/market_structure.py:494-516 | a query returns exactly the stored blocks that match |
| StructureTheorems.BlocksNewestFirst | app/strategy/market_structure.py:494-516 | a block query lists every matching stored block once, in the reverse of the order they were stored in |
| StructureTheorems.GapsNewestFirst | app/strategy/market_structure.py:522-544 | so does a gap query |
| StructureTheorems.GapQuerySelects | app/strategy/market_structure.py:522-544 | a query returns exactly the stored gaps that match |
| StructureTheorems.BlockOrigin | app/strategy/market_structure.py:691-739 | every block is the body of the last opposing bar among the 10 before a displacement that broke structure that way |
| StructureTheorems.GapsAreImbalances | app/strategy/market_structure.py:745-786 | a gap is recorded for a bar if and only if the bar completes an imbalance of the required size |
| StructureTheorems.ReportedSwingIsPivot | app/strategy/market_structure.py:653-685 | a reported swing is the extremum of its full window, with non-negative prominence, and leads every other bar by the ATR multiple |
| StructureTheorems.EverySwingIsPivot | app/strategy/market_structure.py:635-676 | so is every swing ever stored, over every run |
| StructureTheorems.OnlineEqualsBatch | app/strategy/market_structure.py:635-676 | with distinct timestamps the online detector reports exactly the batch pivots, in order |
| StructureTheorems.NewestSwingIsOlder | app/strategy/market_structure.py:856-864 | then the duplicate filter never drops a report |
| StructureTheorems.WideLookbackSeesNothing | app/strategy/market_structure.py:648-651 | a window wider than the candle deque never reports anything |
| StructureTheorems.BreakLanguage | app/strategy/market_structure.py:434-456 | over every run a break is a CHOCH exactly when its direction differs from the previous one, and the trend is the last break |
| StructureTheorems.EventsOfOneBar | app/strategy/market_structure.py:872-886 | no low sweep with a down-break, no high sweep with an up-break; both sweeps only if the body leaves room for two wicks, never above ratio 0.5 |
| PriceLaws.BlockIsActiveExactlyWhile | app/strategy/market_structure.py:792-823 | a stored block is active if and only if every bar from its creating one on stayed strictly beyond it on its far side |
| PriceLaws.GapIsOpenExactlyWhile | app/strategy/market_structure.py:825-850 | the same if and only if for gaps |
| PriceLaws.StoredZones | app/strategy/market_structure.py:377-382 | the last 30 zones of each kind ever detected are stored, unchanged but for their flags |
| PriceLaws.EveryBlockIsABody | app/strategy/market_structure.py:691-739 | every block has the body, time and displacement of the last bar closing the other way among the 10 before a displacement break |
| PriceLaws.EveryDisplacementLeavesABlock | app/strategy/market_structure.py:691-739 | and every displacement break with such a bar leaves a block |
| PriceLaws.EveryGapLiesBetween | app/strategy/market_structure.py:756-786 | a gap has the bounds of the outer two bars and the time of the middle one |
| PriceLaws.ProminenceOf | app/strategy/market_structure.py:657-676 | a prominence is the smallest lead over the bars with another timestamp, zero if there is none |
| PriceLaws.SwingConfirmedExactlyWhen | app/strategy/market_structure.py:648-685 | exactly when a bar confirms a swing, and every field of it |
| PriceLaws.ReportIsStored | app/strategy/market_structure.py:856-864 | a report repeating time and kind of the newest swing is dropped, any other becomes the newest |
| PriceLaws.ReferenceIsNewest | app/strategy/market_structure.py:866-870 | the reference is the newest swing of its kind among the last 50 |
| PriceLaws.EventsExactlyWhen | app/strategy/market_structure.py:415-456 | which of the six events a bar reports, in its prices and the levels of the references |
| PriceLaws.EventsRefer | app/strategy/market_structure.py:415-456 | each event is of the bar itself and refers to the swing it concerns; sweeps come before the break |
| PriceLaws.PriceHitsExactlyWhen | app/strategy/market_structure.py:494-544 | a price hits a zone exactly when an active stored one on its side contains it |
| PriceLaws.HitIsFirst | app/strategy/scalp_smc.py:583-591 | the block returned for a price is the first listed one that holds it |
| PriceLaws.QueryKeeps | app/strategy/market_structure.py:494-544 | which zones a query keeps |
| PriceLaws.ConfluenceWeights | app/strategy/market_structure.py:550-613 | what each of the five facts adds to the score, whatever the others are |
| PriceLaws.NearExactlyWhen | app/strategy/market_structure.py:598-610 | the last weight: the newest stored low (or high) within two ATRs of the price |
| HtfStructures.SwingConfirmedExactlyWhen | app/strategy/market_structure.py:278-298 | exactly when a bar confirms a swing, and every field of it |
| HtfStructures.ReferenceIsNewest | app/strategy/market_structure.py:300-304 | the reference is the newest swing of its kind among the last 40 |
| HtfStructures.SwingStep | app/strategy/market_structure.py:278-298 | one bounded update of the 40-swing deque follows the history |
| HtfStructures.HTFStructure.Update | app/strategy/market_structure.py:211-257 | after every update all fields are what the whole history determines, and the events returned are the history's |
| HtfStructures.HTFStructure.DetectEvents | app/strategy/market_structure.py:221-257 | sweeps, then at most one break, and the trend it leaves |
| HtfStructures.HTFStructure.DetectSwingsSimple | app/strategy/market_structure.py:278-291 | adds exactly the confirmed extremes of the window |
| HtfStructures.HTFStructure.Bias | app/strategy/market_structure.py:259-266 | the bias is the direction of the last break in the history |
| HtfStructures.SwingsAlike | app/strategy/market_structure.py:278-298 | without the prominence filter both trackers report the same swings |
| HtfStructures.SearchesAgree | app/strategy/market_structure.py:300-304 | the searches over 40 and 50 swings agree if and only if the shorter deque forgot nothing the longer holds |
| HtfStructures.Bisimulation | app/strategy/market_structure.py:202-257 | while nothing is forgotten both trackers report the same events and trend after every bar |
| HtfStructures.BisimulationOverShortRuns | app/strategy/market_structure.py:202-257 | in particular on every run without 40 consecutive swings of one type |
| Trading.AcceptedExactlyWhen | app/models/signal.py:31-38 | the constructors accept exactly the signals whose levels stand in order above zero and whose confidence is a share |
| Trading.RatioMeans | app/models/signal.py:107-115 | the ratio is what turns the risk into the reward, and 0 where there is no risk |
| Strategies.SmcScalpStrategy.OnCandle | app/strategy/scalp_smc.py:135-177 | a blocked bar changes nothing; any other is ingested once and answered by the decision the history determines, long before short |
| Strategies.SmcScalpStrategy.EvaluateLong | app/strategy/scalp_smc.py:183-316 | scoring, gate and construction follow the decision function; the bar is remembered only when a signal fires |
| Strategies.SmcScalpStrategy.EvaluateShort | app/strategy/scalp_smc.py:322-454 | the mirror |
| Strategies.SmcScalpStrategy.PriceInOrderBlock | app/strategy/scalp_smc.py:583-591 | the first active block containing the price, if any |
| Strategies.SweepEvents | app/strategy/scalp_smc.py:209-214 | a sweep event is present exactly when the newest bar swept the reference swing, and refers to it |
| Strategies.AlignedIsTrend | app/strategy/scalp_smc.py:231-243 | the three-way alignment test is just the direction of the last break |
| Strategies.PossibleScores | app/strategy/scalp_smc.py:216-261 | the score is 45, plus 25 for a rejection, plus 20 or 10 for a trend on its side with or without the bias; no order-block points, so it lies in {45, 55, 65, 70, 80, 90} |
| Strategies.ScoresInFull | app/strategy/scalp_smc.py:216-261 | on any bar, well formed or not, the score is that and 10 more if an active block on the side contains the close |
| Strategies.GateMeans | app/strategy/scalp_smc.py:264-282 | at 60: rejection, or break aligned with the bias; at 75: rejection and aligned break |
| Strategies.ClampKeepsRatio | app/strategy/scalp_smc.py:476-479 | the clamped target keeps the minimum ratio exactly when the cap admits it |
| Strategies.TargetIs | app/strategy/scalp_smc.py:476-478 | the reward is the minimum profit or the minimum ratio of the risk, whichever is larger, unless the cap is less than both |
| Strategies.LongBuild | app/strategy/scalp_smc.py:460-502 | after a sweep the zero-risk exit is dead; the risk exceeds one pip; construction raises iff a level is impossible, and otherwise the signal survives iff the cap admits the ratio; stop, risk and order of levels |
| Strategies.ShortBuild | app/strategy/scalp_smc.py:504-545 | the mirror |
| Strategies.FinishExactlyWhen | app/models/signal.py:31-92 | building raises exactly when the target distance or the lower level is not positive; else the ratio decides |
| Strategies.CapBelowEntry | app/strategy/scalp_smc.py:518-523 | with a cap below the entry a short's target is always a price |
| Strategies.LongFiresExactlyWhen | app/strategy/scalp_smc.py:183-316 | exactly when the long side fires and when it raises, over every history, and the geometry of what fires |
| Strategies.ShortFiresExactlyWhen | app/strategy/scalp_smc.py:322-454 | the same for the short side |
| Strategies.AnswersExactlyWhen | app/strategy/scalp_smc.py:164-177 | what a bar is answered: a long iff the long side fires, a short iff the long side neither fires nor raises and the short side fires, an exception in exactly the remaining ready cases |
| Strategies.SidesNeverCompete | app/strategy/scalp_smc.py:168-177 | above a wick ratio of one half no bar is ready both ways |
| Strategies.FiredNeverAgainstOwnBreak | app/strategy/market_structure.py:415-456 | a fired signal never goes against a break of its own bar |
| Strategies.VerdictIsJustified | app/strategy/scalp_smc.py:135-177 | a signal fired on a bar was heard, its side was ready, its levels exist, the reward pays, and it has that side's geometry |
| Strategies.FiredSignal | app/models/signal.py:31-38 | a fired signal passed the constructors' checks, is of the strategy's instrument, enters at the close and is as confident as its gate |
| Risk.RiskManager.MaybeRollover | app/risk/manager.py:96-114 | one rollover exactly when the clock shows another date |
| Risk.RiskManager.Evaluate | app/risk/manager.py:117-169 | guards in order, which of them halt the day, and the sized decision |
| Risk.RiskManager.RegisterTradeOpen | app/risk/manager.py:185-189 | counts the trade on the right day |
| Risk.RiskManager.RegisterTradeClose | app/risk/manager.py:191-201 | books the result on balance, day, best day, high-water mark and loss run |
| Risk.RiskManager.Snapshot | app/risk/manager.py:219-239 | reading the dashboard rolls the day over and changes nothing else |
| Risk.SizeIsMaximal | app/risk/manager.py:242-257 | an accepted decision risks exactly the configured share of the balance, and its size is the largest in hundredths of a lot whose loss between entry and stop fits that amount; a rejected one carries neither |
| Risk.RefusedForTheFirst | app/risk/manager.py:117-169 | a signal is refused for the first check it fails in a table of ten written in settings and figures, and accepted if it fails none |
| Risk.SizePositiveExactlyWhen | app/risk/manager.py:242-257 | a size is tradable exactly when the budget pays for one hundredth of a lot |
| Risk.StopLossIsBounded | app/execution/executor.py:206-209 | filled half a spread away and closed at its stop, a trade of either direction loses at most the risked amount times one plus half spread over risk distance |
| RiskHistory.FiguresOfHistory | app/risk/manager.py:96-114 | balance, day profit, day trades, losses since the day's last win and completed trading days as functions of the operations |
| RiskHistory.HighWaterMarkOfHistory | app/risk/manager.py:191-198 | the high-water mark is the largest balance any close left, the initial mark included |
| RiskHistory.BestDayOfHistory | app/risk/manager.py:106-108 | the best day is the largest running profit any day reached, never below zero |
| RiskHistory.HaltedExactlyWhen | app/risk/manager.py:121-151 | trading is halted exactly when, in the current day, a kill switch was thrown or a signal arrived while trades were left but the loss run, the day's loss, the fall from the peak or the day's share of the profit had reached its limit |
| RiskHistory.HaltedUntilRollover | app/risk/manager.py:121-123 | a halted manager accepts nothing until another date is processed |
| RiskHistory.AcceptsExactlyWhen | app/risk/manager.py:117-169 | exactly when a signal is accepted, stated on the operation history alone: halts, opens, losses since the last win, profit and peak, and the signal itself |
| RiskHistory.NeverCrashes | app/risk/manager.py:139-143 | an account with a positive mark never divides by a zero one |
| RiskHistory.HighWaterMarkIsUnique | app/risk/manager.py:191-198 | the description of the high-water mark fixes it |
| RiskHistory.NewAccountQualifies | app/risk/manager.py:80-86 | an account starts fresh, at the balance and mark it is given or else at its start |
| Executors.Executor.constructor | app/execution/executor.py:53-72 | a new executor has nothing in flight or open, on the account as it finds it |
| Executors.Executor.HandleSignal | app/execution/executor.py:75-92 | evaluates, and puts an accepted order in flight under a new id |
| Executors.Executor.BrokerFailed | app/execution/executor.py:149-159 | a failed order leaves no trace |
| Executors.Executor.BrokerFilled | app/execution/executor.py:161-200 | registers the open and stores the trade at its fill |
| Executors.Executor.CloseTrade | app/execution/executor.py:202-227 | removes the trade and books its result once; an unknown id changes nothing |
| Executors.Executor.ForceDisable | app/api/routes/risk.py:20-27 | the dashboard's kill switch is one step of the run |
| Executors.Executor.Snapshot | app/api/routes/risk.py:11-17 | so is the dashboard's reading |
| Executors.StepsInPrices | app/execution/executor.py:161-227 | a fill opens the trade at the broker's price if there is one, else at the signal's entry, with its levels and the accepted size; a close books the move in its favour in pips times pip value and size |
| ExecutorRuns.RiskFollowsOps | app/execution/executor.py:75-227 | however steps interleave, the risk state is the one its operation history determines |
| ExecutorRuns.IdsStayDistinct | app/execution/executor.py:139-187 | an order is never both in flight and open, and new ids are new |
| ExecutorRuns.ClosesOnce | app/execution/executor.py:202-205 | once closed, an id is never open or in flight again |
| ExecutorRuns.LimitsOfStep | app/risk/manager.py:134-143 | the inductive capital invariant is kept by every step |
| ExecutorRuns.CapitalIsPreserved | app/risk/manager.py:134-143 | in every reachable state the day's loss and the fall from the high-water mark stay within the limit plus the worst loss of the exposures |
| ExecutorRuns.TradeCapUnderConcurrency | app/risk/manager.py:125-127 | trades of the day plus orders in flight never exceed the cap by more than the concurrency less one |
| ExecutorRuns.CapIsOverrun | app/execution/executor.py:75-92 | that bound is attained by some run, for every account that can trade |
| ExecutorRuns.CapIsHardIffSequential | app/risk/manager.py:125-127 | the cap is hard on every run if and only if signals are handled one at a time |
| Containment.AcceptedFits | app/risk/manager.py:242-257 | an accepted order risks at most its share of the high-water mark at its stop |
| Containment.FilledFits | app/execution/executor.py:161-187 | filled at most half a spread worse, it loses at its stop at most that share enlarged by half the spread |
| Containment.ExitFits | app/execution/executor.py:202-214 | leaving anywhere on the good side of the stop loses no more |
| Containment.RunIsContained | app/execution/executor.py:75-227 | in every state of every disciplined interleaving all orders in flight and all open trades are so bounded |
| Containment.DisciplinePreservesCapital | app/risk/manager.py:134-143 | the capital bounds with the planned loss in place of an assumed one |
| Drawdown.MaxDrop | app/backtesting/runner.py:290-301 | the running-peak loop returns the largest drop from any point to a later one |
| Drawdown.MaxShareOfPeak | app/analytics/stats.py:61-69 | the loop returns the largest share by which any point lies below the peak before it |
| Drawdown.DepthMeans | app/analytics/stats.py:61-69 | a point's depth is the missing part of the highest value up to it |
| Drawdown.PeakFigureIsPairwise | app/analytics/stats.py:61-69 | on a non-negative curve from a positive start that is the largest pairwise proportional drop, and lies in [0, 1] |
| Drawdown.AtMostAllExactlyWhen | app/analytics/stats.py:61-69 | the figure is at most 1 exactly when no balance is negative |
| Drawdown.PairwiseExactlyWhen | app/analytics/stats.py:61-69 | on every curve: it is the largest proportional drop from a positive balance if and only if every negative point, measured from the smallest positive balance before it, is matched by one measured from its running peak |
| Drawdown.PairwiseUntilRuin | app/analytics/stats.py:61-69 | up to the first negative balance: if and only if that balance is not reached or every balance before it was the start or zero |
| Drawdown.NegativeEquityUnderstates | app/analytics/stats.py:61-69 | on any curve: a negative deepest point with an earlier positive point below the peak makes it smaller than the largest drop |
| Drawdown.NegativeEquityBreaksPairwise | app/analytics/stats.py:61-69 | a concrete curve: 1.5 is reported for a drop of 2 |
| Runner.Manage | app/backtesting/runner.py:187-231 | the exit checks of one bar leave the trade correctly open or end it as the bars say |
| Runner.StopOnlyImproves | app/backtesting/runner.py:202-223 | the trailed stop moves only toward profit and never past the entry |
| Runner.TradeIsBounded | app/backtesting/runner.py:192-231 | every trade that ends on a well-formed bar loses at most its initial stop distance and gains at most 0.1% of its entry, whatever ends it |
| Runner.Summarise | app/backtesting/runner.py:271-301 | wins and losses add up to the trades, gross profit less gross loss to the net, and the drawdown is the equity curve's largest drop |
| Runner.RunBacktest | app/backtesting/runner.py:161-323 | for every bar list: ordered non-overlapping trades three bars apart, each the outcome the bars determine, entered exactly on the signals of the bars shown to the strategy, which are exactly the idle ones |
| Runner.RunIsDetermined | app/backtesting/runner.py:184-269 | the bars and the setup determine the trades and the shown bars uniquely |
| Runner.EveryEntryIsJustified | app/backtesting/runner.py:233-256 | every simulated trade enters on a swept bar with the score, levels and reward the strategy asks for, its stop one pip beyond the wick |
| Runner.OutcomeIsDetermined | app/backtesting/runner.py:187-269 | two outcomes of the same entry are the same trade |
| RunnerPrices.OutcomeInPrices | app/backtesting/runner.py:187-269 | on which bar a trade ends and why, and what it books: 0.1% of the entry at the target, nothing at a stop after half of that was seen, the initial risk before, the last close otherwise |
| RunnerPrices.RunInPrices | app/backtesting/runner.py:184-269 | entries three bars apart and after the previous exit; the bars shown are those with nothing open and no entry in the three before; every signal answered to a shown bar is entered |
| Runner.TradesAreSpaced | app/backtesting/runner.py:184-233 | at most one trade in every three bars |
| Stats.TradeStatsAggregator.Record | app/analytics/stats.py:35-47 | curve and both breakdowns stay the recount of the ledger; an open trade is ignored |
| Stats.TradeStatsAggregator.GetTotalPnl | app/analytics/stats.py:50-52 | the sum of the recorded results |
| Stats.TradeStatsAggregator.Winrate | app/analytics/stats.py:54-59 | the share of recorded trades with a positive result |
| Stats.TradeStatsAggregator.MaxDrawdown | app/analytics/stats.py:61-69 | the largest share below the running peak |
| Stats.BreakdownsCount | app/analytics/stats.py:35-47 | each session's and each symbol's bucket counts its trades, winners and losers and sums their results |
| Stats.BreakdownsAgree | app/analytics/stats.py:41-47 | sessions and symbols add up to the same totals, those of the ledger |
| Replay.AccountIsLedger | app/execution/executor.py:202-227 | in every state of every interleaving the balance is the start plus all closed results, and each trade was closed once, for good |
| Replay.ClosingsAreTheExits | app/analytics/backtest.py:229-241 | closing a set of trades one by one in id order closes each once at its level and nothing else |
| Replay.ClosingsInOrder | app/analytics/backtest.py:229-241 | trades that leave together are booked in the order they were opened in |
| Replay.BarClosesWhatItHits | app/analytics/backtest.py:225-241 | the trades a bar closes are exactly the open ones of its symbol it touches, as many as leave, at the stop or else the target; all others stay as they were |
| ReplayPrices.QuoteIsOfLastRow | app/analytics/backtest.py:176-181 | a symbol's quote is half the spread either side of the close of its last row |
| ReplayPrices.BarEndsInPrices | app/analytics/backtest.py:225-241 | a trade survives a bar if and only if the bar reaches neither level; one whose stop is reached leaves there whatever else the bar does, any other at its target |
| ReplayPrices.OpenTradesHaveAStart | app/execution/executor.py:161-187 | every open trade of a replay has its signal's levels, the largest size the configured share of the balance pays for, and the entry half the spread from its symbol's last close |
| ReplayPrices.ForcedInPrices | app/analytics/backtest.py:197-206 | what is left open is forced out half the spread on the wrong side of its symbol's last close |
| Replay.AnswerOutcome | app/broker/paper.py:54-69 | a signal is rejected, filled at the quote's right side, or lost for want of a quote; the ledger does not change and nothing stays in flight |
| Replay.ReplayIsSequential | app/analytics/backtest.py:163-195 | a replay handles signals one at a time |
| Replay.ReplayKeepsTheCap | app/risk/manager.py:125-127 | hence the daily cap is hard in every state a replay passes through |
| Replay.RowBooks | app/analytics/backtest.py:163-195 | one more row adds to the ledger exactly what its bar closes; the account keeps agreeing with it |
| Replay.OpenTradesAreQuoted | app/analytics/backtest.py:197-200 | every open trade has a last quote to leave at |
| Replay.EpilogueClosesTheRest | app/analytics/backtest.py:197-206 | the epilogue closes exactly the trades the bars left open, each at its last quote; afterwards nothing is open and the account is its start plus every result, each once |
| Replay.BacktestEngine.Persist | app/analytics/backtest.py:127-131 | only closed trades are booked, on both the list and the statistics |
| Replay.BacktestEngine.CheckSlTp | app/analytics/backtest.py:225-241 | takes exactly the closing steps of the trades the bar hits, and the list stays the ledger of the run |
| Replay.BacktestEngine.HandleSignal | app/broker/paper.py:54-69 | takes exactly the steps the paper broker's answer means |
| Replay.BacktestEngine.ProcessRow | app/analytics/backtest.py:163-195 | the run advances by exactly the row's steps, exits before the new signal; list, statistics and account agree, and what was added is what the bar hit |
| Replay.BacktestEngine.ForceClose | app/analytics/backtest.py:197-206 | every remaining trade leaves at the last quote and is booked once on the account and twice in the report |
| Replay.PnlDoubles | app/analytics/backtest.py:202-206 | booking twice doubles the booked sum |
| Replay.DoubledInPairs | app/analytics/backtest.py:202-206 | each force-closed trade is followed at once by its repetition |
| Replay.ReplayStartsFresh | app/analytics/backtest.py:120-123 | a replay starts on a fresh account at its own mark |
| Replay.RunReplay | app/analytics/backtest.py:113-223 | the report holds the trades the bars closed and, twice, exactly the trades they left open; it exceeds the account by the profit of the latter, and agrees with it iff that is zero |
| ReplayRisk.StrategySignalsFit | app/strategy/scalp_smc.py:460-545 | a signal the strategy fires on a well-formed bar enters at the close and risks more than a pip |
| ReplayRisk.ReplayIsDisciplined | app/analytics/backtest.py:163-241 | a replay of such signals fills within half a spread and closes no trade beyond its stop |
| ReplayRisk.BarExitIsPlanned | app/analytics/backtest.py:225-241 | every trade a bar closes books at least minus the planned loss |
| ReplayRisk.ReplayPreservesCapital | app/risk/manager.py:134-143 | the capital bounds of a replay, with the planned loss for each trade open at once |
| Ticks.SpansTile | app/market/rest_poller.py:206-225 | the candles' segments tile the ticks, each ending at the first tick that completes it |
| Ticks.BarIsWellFormed | app/market/rest_poller.py:200-204 | open and close are the segment's first and last price, high and low prices in it that bound it, volume its ticks less one |
| Ticks.Timeframes | app/market/rest_poller.py:22-25 | the seven timeframes, a minute for anything else |
| Ticks.CandlesOfTicks | app/market/rest_poller.py:188-227 | every candle is well formed (so poller-fed bars meet what the tracker theorems ask), long enough, opens at the previous close, and no tick's volume is lost |
| Ticks.RestPricePoller.ProduceCandle | app/market/rest_poller.py:188-227 | per symbol, the buffer is the running segment of all ticks seen and a candle is returned exactly when one completes |

## Left out

- Semi-auto staging and confirmation (app/execution/executor.py:94-135): the expiry compares a naive with an aware time, and confirming does not evaluate again, so the cap and capital bounds speak of paper and full-auto mode only.
- Runtime changes of the risk settings: settings are constant over a run.
- Floating-point rounding, and the rounding of report figures.
- Broker and market-data clients, the journal, the dashboard, notifications, retries and back-off: a broker is a step that fills or fails.
- Session hours: the strategy is given an arbitrary predicate on timestamps and an arbitrary session name.
- Instrument lookup by symbol: signals and rows carry their instrument; an unknown symbol's error is not modelled. Pip sizes are positive, as in the registry.
- Log lines, tags, reasons and the `SignalConfluence` record beyond its score; FVG tags do not affect a signal.
- `is_displacement` (app/strategy/candles.py:29-33) is not used by the modelled code.
- `is_min_trading_days_met`, slippage, latency, profit percentage and exit time of a trade: plain reads and records.
- An exception that leaves a call part-way is an outcome: `Raised` for a signal the constructors refuse, `Crashed` for a zero high-water mark, which no account that starts with a positive mark reaches (`NeverCrashes`); the replay does not model the run ending on one.
- Executors.Executor.BrokerFilled: the suspension points after the trade is stored (persistence and notification) carry no risk state and are not separate steps.
- Replay.RunReplay: the strategy is pluggable, so its answers are part of the input, whatever they are.
- Runner.RunBacktest: win rate, profit factor and averages are quotients of the modelled totals.
- ExecutorRuns.CapitalIsPreserved: the number of exposures and the worst single loss are parameters, because the source bounds neither across days nor against gaps through a stop; `DisciplinePreservesCapital` computes the loss where there are no such gaps.
- ReplayRisk.ReplayPreservesCapital: speaks of the bars; the epilogue may close a trade at a quote past its stop by up to a spread.
