# NexTrade AI: verified model

A Dafny model of the parts of the trading platform whose correctness spans several components, with
proofs about every input, every reachable state or every run. `dafny verify dfyconfig.toml` checks all of it.

## What is modelled

**The paper-trading session.** A session couples three objects: an engine (cash, holdings, fees, truncation
of buys the cash cannot cover), a tracker (positions and realised profit) and a risk manager (peak, circuit
breaker, daily drawdown, cooldown, correlation cap, sizing). Nothing in the program compares the engine's
ledger with the tracker's. `TradingSession` is the session as a state machine whose steps are what the trader
does without suspending: a signal, a price tick, a market status, one guardian close, one balance observation.
Prices and clock readings are arbitrary reals. The main results are:

* Sizing at a tenth of the equity, the ten-percent circuit breaker and the pair cap together imply that a BUY is
  never truncated or rejected **if and only if** the cap is at most nine pairs, or the user's limit per position is so
  small that the most positions the session can hold, plus one fee, fit into 9000 of the 10000 it starts with
  (`SessionThreshold.FilledInFullIff`). Basic is always safe; pro is up to a limit of about 899.91, enterprise up to
  about 179.99. The default limit of 500 (db/models.py:131) is thus safe on pro and not on enterprise, and the 5000
  that pro allows is not safe. Otherwise a week of ordinary signals, handled one after the other and with nothing
  else happening, cuts a BUY short; the tracker then records the quantity asked for, and the two ledgers disagree.
* As long as BUYs are filled in full, the ledgers agree and money is conserved. This holds for every cap, and from
  an agreeing state a BUY keeps agreement exactly when the cash covers its cost and fee before the call.
* For every cap and every run the engine's own books are off by exactly what it was paid, when positions were closed,
  for units it did not hold (`SessionOversold.EngineBooks`). At positive prices that is nothing if and only if every
  BUY that a signal or the guardian closed had been filled in full (`SessionOversold.OverpaidIff`).
* Against the tracker's own figures the cash is off by exactly what the truncated BUYs asked for and did not get,
  less what price ticks left unsold (`SessionShortfall.BooksAreOffBy`). Rejected BUYs count nothing there: they are
  tracked at the price zero, and what their closes are paid is booked as realised (`SessionOversold.RejectedSaleIsUnseen`).
* In every reachable state a BUY signal buys if and only if a list of conditions on the history of the run holds, and
  then asks for a stated size (`SessionEntry.BuyIff`, `SessionEntry.BuyAsksFor`).
* The gates in front of a BUY hold over whole runs and for every cap: number of positions, positions per correlation
  group, time between two buys of a symbol, no buying under ORANGE or RED. The cap is tested before the action, so
  a session with every pair in use cannot sell by signals either (`SessionGates.FullSessionIsStuck`).
* However the BUYs were filled, a RED pass of the monitor empties both ledgers and raises cash by exactly the net
  proceeds. Interrupted by anything but a GREEN or YELLOW status, it still ends with both ledgers empty. Each status is traced from the
  name it arrives under to what the monitor and the next BUY do (`UserSessions.RedStatusFlattens` and its neighbours).
* The fields the risk manager keeps, and every verdict read off them, equal what the whole history of calls says.

**The wallet's Base58 encoder**, with its carry arithmetic in place, specified through the number the bytes stand
for and inverted by a reference decoder.

**Signals and weights**: the three aggregation modes and the laws of the vote, and the strategy scorer as a state
machine of votes, price checks, backtest rounds, publications and expiries. After every history the published weights
are a distribution up to rounding (`Scoring.EveryHistoryIsSane`), which follows from the configuration alone.

**Supporting algorithms**: reconciliation of live positions, paged candle fetching, the two rate limiters, and the
backtest loop over the same engine and tracker.

## How it is organised

| file | content |
|---|---|
| `Collections.dfy`, `Arithmetic.dfy` | totals over dictionaries; single facts about products and quotients |
| `Plans.dfy`, `Signals.dfy` | plan limits; the three signal actions |
| `PaperBook.dfy`, `PaperEngine.dfy`, `EngineSolvency.dfy` | the engine as functions on a value, as an object, and its own laws |
| `PositionTracker.dfy` | the tracker as functions on a value and as an object with shared mutable records |
| `RiskManager.dfy`, `RiskHistory.dfy` | the risk rules, the risk manager object, and its refinement of the call history |
| `TradingSession.dfy`, `UserSession.dfy` | the session as a state machine and as an object whose methods are runs of it |
| `SessionLaws.dfy`, `SessionSafety.dfy`, `SessionThreshold.dfy`, `SessionGates.dfy`, `SessionGuardian.dfy` | what runs keep |
| `SessionEntry.dfy` | when a BUY buys and how much it asks for, from the calls made to the risk manager |
| `SessionShortfall.dfy`, `SessionOversold.dfy` | how far the books are off once a BUY was cut short, against the tracker and against the engine |
| `Base58.dfy` | encoder, decoder, round trip, length |
| `SignalAggregator.dfy`, `ScoreWeights.dfy` | the vote and its laws; blending scores into weights, and what rounding can change |
| `StrategyBacktest.dfy`, `StrategyScorer.dfy` | the scorer's backtest; the scorer's histories and the scorer as an object |
| `BacktestFigures.dfy` | trade size, win rate and drawdown, shared by both backtests |
| `Reconciliation.dfy`, `DataFetcher.dfy`, `RateLimiters.dfy`, `Backtester.dfy` | the supporting algorithms |

Code that changes state is a class whose methods are proved against functions on values; the laws are lemmas
about those functions. Money is `real`, times are seconds, dates are day numbers. A Python exception that the
code can raise is an explicit outcome (`Error`, `DivisionError`, `None`), and the state it leaves behind is modelled.

## Where code and documentation disagree

The model follows the code.

* README.md:97 says ORANGE closes losing positions. The monitor tests `realized_pnl`, which is zero while a position
  is open, so an ORANGE pass closes nothing in any session (`SessionGuardian.OrangePassClosesNothing`).
* README.md:137 says 60 requests a minute. The counter is per clock minute, so up to 120 pass in sixty seconds; 60 is
  guaranteed for exactly the minutes that start with a window (`FixedWindow.SixtyPerMinuteIff`).
* `_on_price_update` (trader/trader_bot.py:291-308) is registered nowhere in the repository. The model lets price
  ticks arrive at any point, which includes never; no counterexample rests on one.
* An all-zero byte string gains a byte in a Base58 round trip (`Base58.RoundTrip`); the encoder is injective all the
  same (`Base58.EncodingIsInjective`).
* A published weight of at most 0.00005 is rounded to zero, and the aggregator's fallback then uses the configured
  weight instead (`Blending.RoundingRestoresFixedWeight`).

## Model

| member | source | states |
|---|---|---|
| SessionThreshold.FilledInFullIff | trader/trader_bot.py:406-535 | for every pair cap and limit per position: no run has a BUY truncated or rejected if and only if the cap is at most nine, or (min(cap, 50) + 0.001) x limit is at most 9000; otherwise signals alone, at positive prices and with times in order within a week, handled one after the other, cut one short |
| SessionThreshold.NineIsTheThreshold | trader/trader_bot.py:415-419 | nine is the largest pair cap that is safe whatever limit the user sets |
| SessionThreshold.PlanFillsInFullIff | shared/plan_limits.py:1-36 | the same condition for each plan: basic and unknown plans always, pro if 10.001 x limit <= 9000, enterprise if 50.001 x limit <= 9000, and not otherwise |
| SessionThreshold.LossDays | trader/risk_manager.py:102-132 | the witness's first part: a BUY signal and, when the cooldown is over, a SELL signal at a loss each day are never blocked, and bring the balance down to any start the witness needs |
| SessionThreshold.NextBuy | trader/trader_bot.py:474-535 | the witness's second part: each further BUY passes every gate and is either cut short or paid in full and not the last |
| SessionEntry.BuyIff | trader/trader_bot.py:406-535 | in every reachable state a BUY signal buys if and only if the user is not barred, fewer pairs are open than the plan allows and fewer than 50, the symbol is not open, its price is positive, the last status was GREEN or YELLOW, the balance found is above nine tenths of the highest ever and at least 95% of a positive first balance of the day, 300 seconds have passed since the last trade of the symbol, fewer than two symbols of its group are open, and the size is at least 5 |
| SessionEntry.BuyAsksFor | trader/trader_bot.py:474-535 | it then asks for the smaller of the limit and a tenth of that balance, halved after a YELLOW status, and engine and tracker get the stop 1.5% below and the target 5% above the price |
| SessionEntry.EveryBuyFoundItsDay | trader/risk_manager.py:126-132 | every BUY of a run found an equity of at least 0.95 times a positive first balance of its day |
| SessionEntry.RiskIsReplayed | trader/trader_bot.py:406-445 | the risk state of a session is what the calls of its run make of a new risk manager, so every law of call histories holds of sessions |
| SessionEntry.VerdictOfSignal | trader/trader_bot.py:420-430 | the verdict on a signal is the one read off all those calls and the balance just found |
| TradingSession.PlanSessionIs | shared/plan_limits.py:1-36 | three pairs and no futures on basic and unknown plans, ten pairs on pro, 999 on enterprise |
| SessionSafety.EveryRunIsSafe | trader/trader_bot.py:406-609 | under that condition, after every run every BUY was filled in full, engine and tracker hold the same long positions, money is conserved, and each holding cost at most a tenth of the peak and at most the limit |
| SessionSafety.BuyIsCovered | trader/risk_manager.py:102-113 | a BUY that passes the gates then costs, fee included, no more than the cash: equity is above nine tenths of the peak, and the holdings cost at most eight tenths of it or one limit each |
| SessionSafety.EquityIdentity | trader/paper_engine.py:160-168 | at any prices covering the holdings the engine's equity is the start balance plus what the tracker realised and would gain, less the fees the engine charged |
| SessionSafety.EquityAtLastPrices | trader/position_tracker.py:100-104 | at the tracker's last prices the engine's equity is start balance plus the tracker's realised and unrealised totals less fees |
| SessionLaws.BuyKeepsAgreementIff | trader/trader_bot.py:501-535 | from an agreeing state a BUY leaves the ledgers agreeing, and is filled in full, if and only if its cost and fee are at most the cash before the call |
| SessionLaws.SoundWhileFilled | trader/trader_bot.py:553-591 | for every cap and every run in which each BUY was filled in full: same symbols, quantities, entries and levels in both ledgers, all long, last price strictly between stop and target, and cash + entry cost + fees = start balance + realised |
| SessionLaws.TickKeepsSound | trader/trader_bot.py:291-308 | a price tick closes a position in both ledgers or in neither, and afterwards every open position's price is strictly inside its stop and target |
| SessionLaws.TickClosesIff | trader/paper_engine.py:121-152 | a tick closes a position, in both ledgers, if and only if its price is at least 1.5% below the entry or at least 5% above it |
| SessionLaws.RealisedAddsUp | trader/position_tracker.py:57-86 | in every run the realised total is the sum over the closed positions of quantity x (exit price - entry), and none of them keeps anything unrealised |
| SessionLaws.UncoveredBuyFallsShort | trader/paper_engine.py:78-87 | a BUY the cash does not cover fills strictly less than asked, or is rejected with the holdings unchanged |
| SessionShortfall.BooksAreOffBy | trader/trader_bot.py:494-535 | for every cap and every run: cash + tracked cost + fees = start + realised as the tracker has it + the sum over truncated BUYs of (asked - filled) x price - what ticks closed in the tracker and did not sell in the engine; a rejected BUY is tracked at the price zero and counts nothing in the sum; every BUY is filled in full, in part, or rejected outright |
| SessionShortfall.BalancedIff | trader/trader_bot.py:501-535 | without ticks that excess is never negative, and the cash agrees with the tracker's open and realised figures if and only if no BUY so far was truncated, whatever was closed since; rejected BUYs do not show in those figures |
| SessionOversold.EngineBooks | trader/trader_bot.py:494-591 | for every cap and every run: cash + what the holdings cost the engine + fees = start + what the engine's own holdings gained when sold + the sum over the closes by signals and guardian of (tracked quantity - held quantity) x price, a holding that is not there counting as zero |
| SessionOversold.OverpaidIff | trader/trader_bot.py:553-591 | at positive prices that last sum is never negative, and it is zero, and the engine's books balance, if and only if every position that a signal or the guardian closed so far had a BUY that was filled in full |
| SessionOversold.RejectedSaleIsUnseen | trader/paper_engine.py:83-87 | a rejected BUY of q, closed at any price, leaves the holdings as they were and pays the engine q x price less the fee, and the tracker's account stays off by what it was off before |
| SessionGates.EveryRunIsGated | trader/risk_manager.py:134-144 | in every run of every session: open positions never exceed the plan's cap or 50, no correlation group has more than two, and two buys of a symbol are at least 300 seconds apart |
| SessionGates.AtMostTwoOfAGroup | trader/risk_manager.py:14-22 | in every run at most two symbols of each of the five groups, written out, are open |
| SessionGates.HaltHolds | trader/risk_manager.py:59-80 | from ORANGE or RED, a run without a GREEN or YELLOW status buys nothing, and a flat session keeps its ledgers exactly |
| SessionGates.FullSessionIsStuck | trader/trader_bot.py:415-419 | with every pair of the plan in use, no run without a price tick or a guardian close changes engine, tracker or purchases, so SELL signals do nothing |
| SessionGates.SellClosesIff | trader/trader_bot.py:406-445 | a SELL signal closes its position if and only if there is one, the plan does not bar the user, a pair is free, and the risk verdict that a BUY needs too allows it; otherwise the engine is left alone |
| SessionGuardian.RedPassFlattens | trader/trader_bot.py:638-651 | whenever every holding is tracked, a RED pass empties engine and tracker and raises cash by the sum over the open positions of tracked quantity x guardian's price less fee, whatever the order of closing |
| SessionGuardian.AnyRedPassFlattens | trader/trader_bot.py:638-651 | every state of every session is such a one, whatever its cap and however its BUYs were filled |
| SessionGuardian.RedPassKeepsSound | trader/trader_bot.py:641-646 | between agreeing ledgers the guardian's price is the tracker's last one, and agreement and money are kept |
| SessionGuardian.HaltedRunFlattens | trader/trader_bot.py:638-651 | in every session of every cap: from ORANGE or RED on, a run that closes each open position at some time, with any steps in between but a GREEN or YELLOW status, ends with both ledgers empty; and with cash = start + realised - fees if every BUY was filled in full |
| SessionGuardian.RedPassStaysFlat | trader/trader_bot.py:278-283 | after a RED pass, however the BUYs were filled, the session stays flat with the same cash through any run without a GREEN or YELLOW status |
| SessionGuardian.OrangePassClosesNothing | trader/trader_bot.py:647-648 | an ORANGE pass changes nothing, in every state any session reaches, whatever its cap and however its BUYs were filled |
| UserSessions.RedStatusFlattens | trader/risk_manager.py:59-63 | in every reachable state, once a status named "RED" arrives, the next pass of the monitor empties engine and tracker and raises cash by the net proceeds |
| UserSessions.ProceedsAre | trader/trader_bot.py:641-646 | the net proceeds of a position are tracked quantity x 0.999 x its last price, or its entry when that is zero |
| UserSessions.OtherStatusesCloseNothing | trader/trader_bot.py:638-651 | after a status named "ORANGE", "YELLOW" or "GREEN" the pass closes nothing, in every reachable state |
| UserSessions.HaltingStatusStopsBuys | trader/risk_manager.py:7-12 | after a status named "ORANGE" or "RED" no signal buys |
| UserSessions.LiftingStatusLetsBuy | trader/risk_manager.py:7-12 | after a status named "GREEN" or "YELLOW" a BUY passes exactly when everything else it depends on allows it, whatever the level was before |
| UserSessions.YellowAsksForHalf | trader/risk_manager.py:148-151 | after a status named "YELLOW" the same BUY asks for half of what it asks for after one named "GREEN" |
| UserSessions.MonitorObserves | trader/trader_bot.py:652-666 | a pass that leaves something held ends with the balance observed at the entry prices, and changes nothing else |
| UserSessions.CloseObserves | trader/trader_bot.py:553-591 | so does a close, of what is held after it |
| UserSessions.UserSession.ExecuteForUser | trader/trader_bot.py:406-445 | in place: plan gates, balance observation, risk verdict, then close, open or nothing; the balance is observed again after a close |
| UserSessions.UserSession.OpenPosition | trader/trader_bot.py:474-535 | in place: sizes from the equity at entry prices, validates, orders, and tracks the quantity asked for at the order's average price |
| UserSessions.UserSession.ValidateOrder | trader/trader_bot.py:447-457 | accepts exactly a notional of at least 5 with fewer than 50 positions open |
| UserSessions.UserSession.ClosePosition | trader/trader_bot.py:553-591 | in place: the engine sells what the tracker holds, the tracker closes at the same price, the balance at entry prices is observed |
| UserSessions.UserSession.OnPriceUpdate | trader/trader_bot.py:291-308 | in place: marks the position, and closes it in the tracker exactly when the engine sold it |
| UserSessions.UserSession.HandleMarketStatus | trader/trader_bot.py:278-288 | in place: one status step; what each name brings about is stated by the rows on statuses above, and an unknown one changes nothing |
| UserSessions.UserSession.MonitorPass | trader/trader_bot.py:638-666 | in place: the guardian pass over the positions open at its start, each once in the reported order, then the balance if anything is still held |
| TradingSession.SignalIsARun | trader/trader_bot.py:406-591 | handling a signal is a run of the state machine, so every law of runs applies to the object |
| TradingSession.HandlingIsARun | trader/trader_bot.py:400-404 | so is handling any signals one after the other |
| UserSessions.MonitorIsARun | trader/trader_bot.py:638-666 | so is a pass of the monitor, in any order |
| UserSessions.ReachableIsSafe | trader/trader_bot.py:34-54 | whatever a paper session with such a plan and limit goes through, every BUY was filled in full, the ledgers agree and money is conserved |
| PaperEngines.PaperEngine.FillMarket | trader/paper_engine.py:73-119 | in place: fills, truncates, rejects or raises as `PaperBook.FillMarket` does, changing only the engine and the order |
| PaperEngines.PaperEngine.CreateOrder | trader/paper_engine.py:45-71 | in place: a market order is filled and recorded, another is recorded as open, and one that raises changes nothing |
| PaperEngines.PaperEngine.UpdatePrice | trader/paper_engine.py:121-152 | in place: sells the whole holding exactly when the price is at or beyond a set stop or target |
| PaperEngines.PaperEngine.GetTotalEquity | trader/paper_engine.py:160-168 | the loop returns cash plus the worth of every holding with a nonzero price, in whatever order holdings come |
| EngineSolvency.ShortBuyGetsAllItCan | trader/paper_engine.py:78-87 | a buy the cash does not cover gets the greatest multiple of 0.00001 affordable with its fee, and is rejected without effect if and only if one such step is not affordable |
| EngineSolvency.AlwaysSolvent | trader/paper_engine.py:65-152 | cash is never negative after any sequence of orders and ticks with positive prices and nonnegative quantities |
| EngineSolvency.OrdersAreLogged | trader/paper_engine.py:45-119 | every order that does not raise is logged last, one that is not a market order as open and without any other effect, and a sale of a held symbol joins the closed ones |
| EngineSolvency.TickSellsIff | trader/paper_engine.py:121-152 | a tick sells if and only if the price is at or below a stop, or at or above a target, that is set and not zero; then the whole holding at that price, without a log entry |
| PositionTrackers.PositionTracker.OpenPosition | trader/position_tracker.py:15-44 | in place: a fresh record replaces whatever was tracked under the symbol; nothing else changes |
| PositionTrackers.PositionTracker.UpdatePrice | trader/position_tracker.py:46-55 | in place: marks the one shared record of the symbol and no other |
| PositionTrackers.PositionTracker.ClosePosition | trader/position_tracker.py:57-86 | in place: the record handed out before is the one closed, carries the realised gain, and adds it to the total |
| PositionTrackers.PositionTracker.GetTotalUnrealizedPnl | trader/position_tracker.py:100-101 | the loop returns the total over all open positions |
| RiskManagers.RiskManager.UpdateBalance | trader/risk_manager.py:88-113 | in place: date reset, first and highest balance of the day, peak, breaker at or under the line |
| RiskManagers.RiskManager.CanTrade | trader/risk_manager.py:115-146 | in place: the verdicts in the program's order, a zero daily start raising, and the date reset that comes with asking; what each verdict means is stated over the whole history by the rows on `RiskHistory` |
| RiskManagers.RiskManager.CalculatePositionSize | trader/risk_manager.py:148-159 | no answer exactly at price zero; else the order is worth the smaller of the limit and a tenth of the balance under GREEN, half of that under YELLOW, and nothing under ORANGE and RED |
| RiskManagers.RiskManager.SetMarketStatus | trader/risk_manager.py:59-71 | in place: a known level and its recommendation are taken over, an unknown one ignored |
| RiskHistory.HistoryIsKept | trader/risk_manager.py:88-113 | after any calls with non-decreasing dates: the peak is at least the initial balance and every balance observed, and is one of them; the last balance, level and trade times are the latest recorded; the breaker is on iff the last balance is at or under the line; start and peak of the day are the first and the highest balance observed on it |
| RiskHistory.VerdictRefinesHistory | trader/risk_manager.py:115-146 | the verdict read off the fields is the one a reader of the whole history gives: by the name of the last known status, the highest balance less the percentage, the first balance of the day less the percentage, the last trade of the symbol, and the open symbols named together with it |
| RiskHistory.DrawdownGateIff | trader/risk_manager.py:126-132 | with an open level, the breaker off and a positive first balance of the day, asking is refused for the daily drawdown if and only if the last balance is below the first less the percentage |
| RiskHistory.DayIs | trader/risk_manager.py:82-86 | a reading of the clock belongs to the day whose 86400 seconds contain it |
| Base58.Base58Encode | frontend/src/context/WalletContext.tsx:46-68 | the nested carry loops return a '1' per leading zero byte and then the base 58 digits of the number the bytes stand for |
| Base58.MultiplyDigits | frontend/src/context/WalletContext.tsx:51-55 | the inner loop: every digit times 256 with the carry of the one before, below 58 again, and the carry always below 256 |
| Base58.TimesAndAdd | frontend/src/context/WalletContext.tsx:51-60 | one byte: the digits become 256 times their number plus the byte, stay below 58, and have no zero on top |
| Base58.RoundTrip | frontend/src/context/WalletContext.tsx:46-68 | decoding the encoding returns the bytes if and only if they are empty or not all zero |
| Base58.EncodingIsInjective | frontend/src/context/WalletContext.tsx:46-68 | two byte strings, empty and all-zero ones included, have the same text if and only if they are equal |
| Base58.DigitsAreBounded | frontend/src/context/WalletContext.tsx:49-61 | n bytes give at most 7 digits for every 5 bytes begun |
| Voting.AggregatePermuted | analyst/signal_aggregator.py:37-178 | the action never depends on the order of the votes in any mode |
| Voting.OrderIrrelevantIff | analyst/signal_aggregator.py:74-94 | the whole decision is independent of the order if and only if the mode is not strict, or there are too few votes, or all SELL votes at or above the threshold are equally confident |
| Voting.WeightedConfidence | analyst/signal_aggregator.py:142-161 | with nonnegative weights the normalised score is in [-1, 1], the confidence is its size, and a BUY or SELL is more confident than the action threshold |
| Voting.WeightedIff | analyst/signal_aggregator.py:142-159 | with positive total weight the action is BUY if and only if the score is above threshold x weight, and for a nonnegative threshold SELL if and only if it is below minus that |
| Voting.UnanimousDecides | analyst/signal_aggregator.py:136-161 | votes that all say BUY, or all SELL, with positive weights and confidences are followed with confidence 1 for every threshold in [0, 1) |
| Voting.TwoVotes | analyst/signal_aggregator.py:136-159 | a BUY against a SELL is decided by weight x confidence of the one against that of the other |
| Voting.HoldDilutes | analyst/signal_aggregator.py:136-141 | a HOLD vote adds weight x confidence to the total weight and nothing to the score |
| Voting.WeightUsed | analyst/signal_aggregator.py:137 | a nonzero dynamic weight is used, else the configured one, else 0.15 |
| Voting.MajorityIff | analyst/signal_aggregator.py:96-127 | the majority buys if and only if more votes at or above the threshold say BUY than SELL, sells if and only if fewer, with the mean of all confidences |
| Voting.ModesAre | analyst/signal_aggregator.py:37-64 | too few votes hold; "majority" and "strict" name their rules, every other mode the weighted vote; strict sells exactly when some SELL vote reaches the threshold, else it votes by weight |
| Voting.SidesAlikeIff | analyst/signal_aggregator.py:154-159 | swapping BUY and SELL votes always swaps the weighted action if and only if the action threshold is not negative |
| Voting.WeightedMirrored | analyst/signal_aggregator.py:129-161 | for a nonnegative threshold, swapping BUY and SELL votes swaps the action and keeps the confidence |
| Voting.MajorityMirrored | analyst/signal_aggregator.py:96-127 | so it does in majority mode for every threshold |
| Voting.BuyVoteHelps | analyst/signal_aggregator.py:136-155 | one more BUY vote never lowers the normalised score, so a BUY stays a BUY |
| Voting.ScalingChangesNothing | analyst/signal_aggregator.py:136-161 | scaling all dynamic weights, present and nonzero for every vote, by a nonzero factor changes no decision |
| Voting.NearlySameWeights | analyst/signal_aggregator.py:136-161 | weights that each move by at most e keep the action when the normalised score is farther from both thresholds than 2e x confidences / new total weight |
| SignalAggregators.SignalAggregator.Aggregate | analyst/signal_aggregator.py:37-64 | too few votes hold with confidence zero, else the configured mode decides with the paper or live thresholds |
| SignalAggregators.SignalAggregator.StrictAggregate | analyst/signal_aggregator.py:74-94 | the loop sells at the first SELL vote at or above the threshold; any such vote forces a SELL at least that confident |
| SignalAggregators.SignalAggregator.MajorityAggregate | analyst/signal_aggregator.py:96-127 | the loop compares strong BUY with strong SELL votes and averages all confidences |
| SignalAggregators.SignalAggregator.WeightedAggregate | analyst/signal_aggregator.py:129-178 | the loop decides by the weighted score over the total weight |
| Scoring.EveryHistoryIsSane | analyst/strategy_scorer.py:35-308 | for positive configured weights and mix, after every history of votes, price checks, backtest rounds with their publications, and expiries: no counter has more correct votes than votes, every stored score is in [0, 1], and the weights published last are in [0, 1] with a sum off by at most 0.00005 per strategy |
| Scoring.PublicationAfterAnyHistory | analyst/strategy_scorer.py:248-307 | after any history the total to divide by is positive and what is published is such a distribution over the enabled strategies; if the parts of the mix add up to one, every blended factor is in [0, 1] |
| Scoring.SignalSurvivesPublication | analyst/strategy_scorer.py:302-305 | after any history, normalising and rounding change no weighted action when every voting strategy has a share above 0.00005 and the normalised score is farther from both thresholds than 0.0001 x confidences / published weight |
| Scoring.VotesAreLatest | analyst/strategy_scorer.py:38-41 | remembered are exactly the strategies with a vote other than HOLD, each with the last of them |
| Scoring.VotesAreScored | analyst/strategy_scorer.py:48-99 | votes recorded at a price and checked later: BUY was right if the price rose by more than 0.1%, SELL if it fell by more, and otherwise nothing is counted; both counters of the strategy go up by one, once |
| Scoring.HoldsAreNotRecorded | analyst/strategy_scorer.py:35-61 | results that all say HOLD are not recorded, and where no votes or no price are recorded a check does nothing |
| Scoring.OthersAreNotScored | analyst/strategy_scorer.py:70-99 | a check moves no counter of a strategy that did not vote, and none of another pair |
| Scoring.RoundStoresMeans | analyst/strategy_scorer.py:131-159 | a round stores the mean of the composites of each strategy that has any, and keeps every other |
| Scoring.LoadedIs | analyst/strategy_scorer.py:256-275 | what is blended are the stored averages and correct / total of the enabled strategies with anything counted |
| Scoring.AveragedInUnit | analyst/strategy_scorer.py:146-155 | the averages stored by a backtest round are in [0, 1] |
| StrategyScorers.StrategyScorer.RecordVotes | analyst/strategy_scorer.py:35-46 | in place: the votes other than HOLD are remembered with the price, and nothing changes when there is none |
| StrategyScorers.StrategyScorer.CheckAccuracy | analyst/strategy_scorer.py:48-99 | in place: both counters of each strategy that voted go up by one, correct only if it called the direction; the votes are then forgotten |
| StrategyScorers.StrategyScorer.RunBacktestScores | analyst/strategy_scorer.py:131-159 | in place: backtests every trial, stores the average composite of each strategy with a scored trial, and publishes |
| StrategyScorers.StrategyScorer.BlendAndPublish | analyst/strategy_scorer.py:248-307 | in place: loads averages and correct over total of the enabled strategies, blends, divides, rounds and stores; nothing without enabled strategies |
| Blending.RoundingRestoresFixedWeight | analyst/signal_aggregator.py:137 | a share is replaced by the configured weight if and only if it is at most 0.00005 |
| Blending.RawIs | analyst/strategy_scorer.py:283-300 | a configured weight is multiplied by mix.backtest x its share of the best backtest score + mix.accuracy x its share of the best accuracy; by the one share there is; or by 1; a share is one half when no score is positive |
| Blending.ExtremesKeepTheirPart | analyst/strategy_scorer.py:292 | the best backtested strategy with accuracy 0 keeps the part mix.backtest of its weight, the most accurate one with backtest score 0 the part mix.accuracy |
| Blending.BetterScoresWeighMore | analyst/strategy_scorer.py:283-300 | with equal configured weights, no lower score in either gives no lower weight, and a higher one in either a higher weight |
| Blending.MirroredFollowTheMix | analyst/strategy_scorer.py:292 | of two strategies with equal configured weights and mirrored shares, the better backtested one weighs more if and only if mix.backtest > mix.accuracy |
| Blending.PublishedIsShare | analyst/strategy_scorer.py:302-305 | what is published is the share of the total weight, off by at most 0.00005 |
| Arithmetic.NearestIs | analyst/strategy_scorer.py:239-246 | roundings take the nearest value, and of two that are as near the even one |
| StrategyBacktest.BacktestStrategy | analyst/strategy_scorer.py:188-246 | the loop reports, with the program's roundings, what the trades gained, a win or a loss for each, a win rate in [0, 100], a composite in [0, 1] and, with nonnegative prices, a drawdown in [0, 100] |
| StrategyBacktest.ReportIsTrue | analyst/strategy_scorer.py:197-237 | for every history and every signal the final balance is 10000 plus the gains of the trades, the profit reported is those gains in percent to two decimals, and composite, win rate and drawdown are in range |
| StrategyBacktest.CandleTrades | analyst/strategy_scorer.py:188-212 | a BUY takes the smaller of a tenth of the balance and 1000 out of it; a SELL brings quantity x price and gains quantity x the difference to the entry |
| StrategyBacktest.ScoreIs | analyst/strategy_scorer.py:232-236 | the composite is half the Sharpe ratio between -2 and 2, three tenths the win rate, two tenths the profit between -20% and 20% |
| StrategyBacktest.SharpeIs | analyst/strategy_scorer.py:227-230 | Sharpe ratio x deviation x root of 252 is 2.52 x the profit in percent, and zero without a deviation |
| StrategyBacktest.ExtremesOfBalance | analyst/strategy_scorer.py:213-217 | the drawdown is measured between the highest and the lowest balance after any candle |
| StrategyBacktest.WinnersAreGainful | analyst/strategy_scorer.py:201-205 | the wins are the trades that gained something |
| BacktestFigures.FiguresAre | backtest/backtester.py:122-123 | win rate x trades is 100 x wins, and drawdown x peak is 100 x the fall from it |
| ReconcileRules.ReconcileTwice | trader/trader_bot.py:123-157 | a second reconciliation with the same snapshot changes nothing, even when a record makes a conversion raise |
| ReconcileRules.ReconcileResult | trader/trader_bot.py:94-157 | for every readable snapshot: tracked afterwards are exactly the old symbols that are live and those of the qualifying records before the first one at which recovery raises, each with what its first qualifying record says; survivors are unchanged; the realised total grows by the gains of the vanished |
| ReconcileRules.AllQualifyingOpen | trader/trader_bot.py:94-114 | when all records convert, those records open exactly the symbols with a record of positive contracts and entry |
| ReconcileRules.TrackedIsLive | trader/trader_bot.py:129-155 | afterwards every tracked symbol is live, whatever else the records contain |
| ReconcileRules.CloseAllRealises | trader/trader_bot.py:137-142 | each vanished position adds its gain to the realised total exactly once |
| ReconcileRules.ExitGainIs | trader/trader_bot.py:137-142 | a vanished long position gains quantity x what the last nonzero price is above the entry, a short one what it is below |
| ReconcileRules.RestartRestores | trader/trader_bot.py:94-121 | recovering into an empty tracker from records that describe the open positions, under either name of each field, brings back every position as it was opened: side, quantity, entry, stop and target |
| ReconcileRules.AmountIs | trader/trader_bot.py:102-103 | a conversion raises exactly when the first field is no nonzero number and the second is null, and a missing second field counts as zero |
| ReconcileRules.LiveIs | trader/trader_bot.py:129-134 | live are exactly the symbols, other than the empty one, with a record of contracts above zero |
| ReconcileRules.NoPositionIsIgnored | trader/trader_bot.py:104-105 | a record without a symbol, contracts or an entry price above zero opens nothing |
| LiveSessions.SavedTradeIs | trader/trader_bot.py:141-151 | the trade saved for a vanished position has its last nonzero price, its quantity and its gain |
| LiveSessions.LiveSession.RecoverPositions | trader/trader_bot.py:94-121 | in place: the recovery loop, stopping where a conversion raises and keeping what it opened |
| LiveSessions.LiveSession.ReconcilePositions | trader/trader_bot.py:123-157 | in place: closes the vanished, saves for each a trade with the realised gain read from the shared record, and recovers the rest; nothing when a contracts field raises |
| CandleFetching.DataFetcher.FetchOhlcvSince | analyst/data_fetcher.py:51-68 | the result is a beginning of the one scan from `since`, in order and without repetition; when no page fails for good it is all of it if and only if the venue's page cap is at least the limit asked for or the scan fits one page, and otherwise it is that first page |
| CandleFetching.DataFetcher.Fetch | analyst/data_fetcher.py:22-39 | one to three attempts; a page returned is the venue's, and a page that is not empty is returned if and only if one of three attempts in a row succeeds |
| CandleFetching.ScanIsExact | analyst/data_fetcher.py:51-68 | the scan is exactly the candles of the history that are not before `since`, one by one and in order |
| CandleFetching.KeepLastIs | analyst/data_fetcher.py:66-69 | whatever was collected, exactly the last candle of each time is kept |
| SlidingWindow.RateLimiter.Acquire | shared/rate_limiter.py:11-19 | in place: admits at once when fewer than the limit were admitted in the last second, else exactly when the one that many places back is a second old; the queue stays the end of the admission history, at most one longer than the limit, and any limit + 1 admissions in a row span at least a second |
| SlidingWindow.AtMostMaxInASecond | shared/rate_limiter.py:11-19 | two admissions that are the limit or more apart in the history are at least a second apart in time |
| SlidingWindow.EarlierIsTooEarly | shared/rate_limiter.py:11-19 | nobody waits without need: admitting any earlier would put more than the limit into less than a second |
| FixedWindow.AtMostSixtyPerWindow | web/main.py:44-51 | for every sequence of requests at most 60 pass in a clock minute |
| FixedWindow.AtMostTwiceInAMinute | web/main.py:44-51 | and at most 120 in any sixty seconds |
| FixedWindow.SixtyPerMinuteIff | web/main.py:44-51 | at most 60 in the sixty seconds from a is guaranteed if and only if a starts a clock minute |
| FixedWindow.PassesIff | web/main.py:44-51 | a request passes if and only if fewer than sixty passed before it in its minute of the clock |
| FixedWindow.CounterIsKept | web/main.py:47-51 | a counter is kept for two minutes from its last request and then forgotten |
| FixedWindow.ServeCounts | web/main.py:47-51 | the two-minute lifetime outlives the window, so the stored count is the number of admissions in it |
| FixedWindow.RequestLimiter.Dispatch | web/main.py:44-51 | in place: refuses at sixty, else stores the count plus one for two minutes |
| BacktestRules.BacktestSound | backtest/backtester.py:60-117 | after any candles and signals at most the one position is open, in both ledgers alike; buys and sells alternate; every order is filled with exactly the quantity it asked for; wins + losses = trades = sells; cash + entry cost + fees = start + realised |
| BacktestRules.EquityOfSound | backtest/backtester.py:116-120 | the equity at any price is start + realised + unrealised - fees |
| BacktestRules.CashInRange | backtest/backtester.py:111-114 | with nonnegative prices cash and its recorded low never go below zero and the peak stays positive |
| BacktestRules.CurveIsShort | backtest/backtester.py:141 | the down-sampled equity curve has at most 199 points |
| BacktestRules.CurveIsKept | backtest/backtester.py:141 | a curve of fewer than 200 points is reported whole, and one of 100 or more with at least 100 points |
| BacktestRules.CandlePlots | backtest/backtester.py:67-117 | every candle adds the equity it leaves, to two decimals, except a BUY of nothing |
| BacktestRules.BuyCosts | backtest/backtester.py:93-101 | a BUY costs the smaller of a tenth of the cash and 1000, and a thousandth of that as fee |
| BacktestRules.ExtremesOfCash | backtest/backtester.py:111-114 | the drawdown is measured between the highest and the lowest cash after any candle |
| BacktestRules.WinsAreGains | backtest/backtester.py:80-86 | the trades are the positions closed, and the wins those that gained something |
| BacktestRules.RatioIs | backtest/backtester.py:124 | the Sharpe ratio is the profit in percent over deviation x root of 252, to two decimals, and zero for a deviation of zero |
| Backtests.Run | backtest/backtester.py:41-145 | the summary: no report exactly for a start balance of zero; else final balance, profit and profit in percent from what was realised and would be gained less fees, wins and losses of every trade, win rate, drawdown in [0, 100], Sharpe ratio, the last fifty trades and a curve of at most 199 points, with the program's roundings |
| BacktestRules.NothingFromNothing | backtest/backtester.py:79-92 | with a start balance of zero nothing is ever bought, so no sale divides by it |

## Left out

- Exchange clients, the Redis transport, SQL persistence, notifications, authentication, payments and the user interface: I/O and libraries that are not part of this model.
- Indicators and strategies: a strategy is an arbitrary source of votes; signals arrive as arbitrary inputs.
- The guardian's crash detectors: their result is an arbitrary sequence of market statuses.
- Live order execution: its results come from the exchange between suspensions; of the live side only recovery and reconciliation are modelled.
- Interleaving inside a paper step: engine calls never yield, so a step is atomic; the balance observation after a close and each close of a guardian pass come after a suspension, so in runs they are steps of their own at any time and any price. The methods of `UserSession` perform them back to back.
- Several sessions at once: sessions share no state, so one is modelled; the loops over sessions are not.
- Clock: a step reads the clock once, where the code reads it more than once within microseconds.
- IEEE rounding: money is exact; only the roundings the program writes out are modelled, halves to even.
- Order identifiers, timestamps and crash-trigger texts: they are stored and echoed but never decide anything.
- StrategyBacktest.BacktestStrategy: the standard deviation of the price changes comes from an unseen library, so it and the root of 252 are arbitrary inputs.
- Backtests.Run: the same two are arbitrary inputs, and too few price changes for a deviation give no Sharpe ratio where the program has not-a-number; of the trade records only the action is kept, and of the curve's points only the equity.
- `reset_circuit_breaker`: modelled on the object, not a step of a run, since nothing in the repository calls it.
- Expiry times of the scorer's stored values, and the pause between its rounds: values may expire and rounds may come at any time.
- Overlapping callers of either rate limiter: both read and then write across a suspension, so the bounds are for one caller after another.
- Iteration order of dictionaries and sets: loops take keys in arbitrary order, and results are proved independent of it.
