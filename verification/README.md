# A verified model of the paper-trading pipeline

The system trades a watchlist with simulated money. Strategies turn daily bars into signals, the risk manager turns
signals into sized orders, the paper broker fills them against an in-memory portfolio, the engine chains these steps and
writes them to a database, and scheduled jobs rebuild each strategy's account from that database. A backtester drives
the very same objects over recorded bars. This project models that pipeline, its analytics and its price cache, and
proves what they keep over every run. `dafny verify dfyconfig.toml` checks all of it.

Two layers describe the trading core. On values, `Ledgers`, `Risk`, `Trading`, `Stores`, `Runs` and `Backtests` say what
one step does to an account and to the tables; the theorems are inductions over logs of such steps. On the heap,
`Portfolios`, `RiskManagers`, `Brokers`, `Repositories`, `Engines`, `Contexts` and `Backtesters` are the classes of the
source with their fields, updates in place and loops: position objects are shared between the ledger and whoever listed
them, a raised exception is a result, and each method's postcondition says its effect is the step of the value layer. So
what is proved of steps and runs holds of the objects.

How the outside world enters: a call asks the market in batches, never one symbol twice in a batch. At batch `k` the
provider quotes a map of prices (a missing symbol is a provider that raises), the clock has a reading, and a new
identifier is drawn. Nothing ties one batch to the next, so prices may move in the middle of a call.

## What is proved

* **Accounting.** Cash plus cost basis changes only by realized profit, buy commissions and the dust that the tolerance
  of 1e-9 lets a closing sell drop; the dust is bounded, and is zero in whole shares, which is all the risk rules trade.
* **Discipline.** Whatever the signals and prices, an engine call makes only legal moves: a buy opens a position, in
  whole shares and under the position limit; a sell closes one completely. A run is any sequence of such calls and of
  restarts, which every scheduled job begins with. What becomes of its properties is settled for every run from an
  account in sync with its database, restarts, forced exits and exceptions included. The position limit holds throughout
  if and only if at each restart the symbols held and those sold by force since the restart before are together within
  it. A symbol trades in round trips if and only if it has not traded since a restart before which it had been sold by
  force. The cash floor is kept by every schedule of jobs in which no job leaves a forced exit to the next, whatever
  cash flows exceptions leave unsaved, and without commissions by every run at all. The books are off by exactly what the
  restarts restate: the unsaved cash flows they lose, and the cost of the shares they bring back. Concrete runs show the
  limit, the round trips and the floor broken.
* **Restarts.** The repository's own documentation promises that an account is restored when the process restarts
  (its `README.md:66-68`), and `app/database/orm_models.py:37` that the position table is kept in sync on every fill.
  After any run, restarts and exceptions included, a restart loses nothing if and only if two things hold. No exit was
  forced since the last restart: forced exits carry a risk tag, rows are kept under the order's tag, so the row of the
  buy stays and a restart brings the sold shares back. And no cash flow is unsaved: an exception between saving a fill
  and saving the snapshot after it leaves one, which the next stored snapshot heals. What a restart brings back is
  quantified symbol by symbol, and for exit checks and signals the condition is also given on their inputs. The same
  forced exits are missing from a strategy's profit report, which is right if and only if there were none.
* **Independence.** Any interleaving of strategies over one database, restarts included, leaves each with the account,
  rows, snapshots and trades of its own calls run alone.
* **Jobs.** Every job performs the steps of the source in their order, each where the one before it ended, until one
  raises. `app/execution/engine.py:43` records the day's starting equity so that the daily loss limit can be enforced.
  It is enforced from a morning until the next restart and no longer: the baseline is not stored, so hourly jobs do
  exactly what they would do without a limit.
* **Backtests.** A backtest is a run of the live engine's own calls, in markets that quote the closes of each date. No
  lookahead, as a property of two runs; no failure on any date; equity that telescopes into overnight moves and
  commissions; an exit band at the end of every day; a daily loss gate that cannot fire without commissions.
* **Analytics.** Profit recovered from a log is the live profit; drawdown by running maximum is the worst pair; each
  indicator is given in closed form, and that of a prefix is the prefix of the indicator; signals are told by indicator
  values alone, are edges, alternate, and are symmetric in price.
* **Price cache.** Freshness, spacing and number of fetches over any sequence of requests.

## Model

| member | source | states |
|---|---|---|
| LedgerLaws.MoneyIsConserved | app/portfolio/portfolio.py:81-118 | for every accepted sequence of fills, averaging buys and partial sells included, cash plus cost basis moves by the realized profit, minus the commissions of the buys, minus the cost basis dropped when a remainder within the tolerance is deleted, and by nothing else |
| LedgerLaws.EquityIsAccountedFor | app/portfolio/portfolio.py:43-58 | the same law for equity at any prices: what was put in, plus realized and unrealized profit, minus buy commissions and dust |
| LedgerLaws.DustIsBounded | app/portfolio/portfolio.py:115-117 | the error of the tolerance is at most 1e-9 times the sum of the average entry prices of the positions that were closed, in either direction |
| LedgerLaws.WholeSharesLeaveNoDust | app/portfolio/portfolio.py:98-117 | with whole-share fills every holding stays whole and the error is exactly zero |
| LedgerLaws.FillAcceptedIff | app/portfolio/portfolio.py:81-109 | a buy is taken if and only if cash plus the tolerance covers price and commission and it does not average a position to no shares, a sell if and only if no more is sold than held plus the tolerance; which exception each other fill raises, and what it leaves |
| LedgerLaws.FillMovesCash | app/portfolio/portfolio.py:81-118 | a buy pays price and commission; a sell earns price less commission and realizes, and returns, that less the average cost of what it sold |
| LedgerLaws.FillMovesHolding | app/portfolio/portfolio.py:89-117 | a buy adds exactly its shares and its cost and keeps the opening time of an open position; a sell takes exactly its shares off at an unchanged average price, and closes the position when no more than the tolerance is left; no other position changes |
| LedgerLaws.SharesAreConserved | app/portfolio/portfolio.py:81-118 | over every accepted log a symbol's shares are those at the start, plus those bought, minus those sold, within the tolerance for each time the position was closed, and exactly so in whole shares |
| Safety.RunsBalance | app/scheduler/context.py:68-73 | in every lawful run, whatever its restarts, cash plus cost basis is what the account started with, plus what the calls realized, minus the commissions on buys, plus what its restarts restated, without any error term |
| Restarts.RestatementAt | app/scheduler/context.py:68-73 | what a restart restates: minus the cash flow that was unsaved, plus the cost of what it brings back, which is nothing where no exit had been forced since the restart before |
| Restarts.RestatedIsLost | app/scheduler/context.py:68-73 | over a whole run that restarts only where no exit had been forced, the books are off by exactly the cash flows its restarts lost |
| Safety.RunsBalanceExactly | app/execution/engine.py:46-92 | where restarts are seamless, cash plus cost basis is what the account started with, plus what each sell realized, minus the commissions on buys, exactly |
| Portfolios.Portfolio.ApplyBuy | app/portfolio/portfolio.py:81-102 | the object ends as the ledger says, exceptions included: cash is untouched when refused for funds, already debited when averaging divides by zero; surviving positions are the same objects |
| Portfolios.Portfolio.ApplySell | app/portfolio/portfolio.py:104-118 | the object ends as the ledger says, and the realized profit is returned; no new position object appears |
| Portfolios.Portfolio.ApplyFill | app/portfolio/portfolio.py:63-79 | return value or exception, and the new ledger, of either side |
| Portfolios.Portfolio.PositionsValue | app/portfolio/portfolio.py:43-48 | the loop sums quantity times price over the positions that have a price |
| Portfolios.Portfolio.Adopt | app/scheduler/context.py:73 | positions become exactly the listed ones, keyed by symbol, and the listed objects are shared, not copied |
| Risk.BuyApprovedIff | app/risk/risk_manager.py:74-117 | a buy is approved if and only if the symbol is not held, the position count is below the limit, equity has not fallen to the day's positive baseline less the limit (for a negative one the comparison turns round, for zero or none the gate is open), equity and price are positive, and one share costs no more than the cash, than the position percentage of equity, and than what the positions leave of the allocation percentage |
| Risk.SignalApprovedIff | app/risk/risk_manager.py:52-72 | HOLD never passes; a SELL passes if and only if the symbol is held in more than the tolerance, whatever the other gates say, and orders all of it out under the strategy's name; a BUY passes as above |
| Risk.DailyLossIsAnAmount | app/risk/risk_manager.py:88-93 | the percentage test as amounts of equity, for every baseline: positive, negative, zero and none |
| Risk.SizingIsMaximal | app/risk/risk_manager.py:95-117 | an approved buy is a whole number of shares, at least one, within cash, position percentage and remaining allocation, and every whole number of shares that is within all three is at most that |
| Risk.CheckExitsIsExact | app/risk/risk_manager.py:119-151 | a held position with a quote and a positive entry price is stopped out if and only if the quote is at most entry price times one minus the stop; otherwise it is taken off with its profit if and only if the quote is at least entry price times one plus the target; each once, in full, in the order of the positions |
| RiskManagers.RiskManager.EvaluateSignal | app/risk/risk_manager.py:38-59 | the decision over the list of shared position objects is the decision over the book they show |
| RiskManagers.RiskManager.EvaluateSell | app/risk/risk_manager.py:61-72 | the scan for the first matching position decides as the book does, and sells all of it |
| RiskManagers.RiskManager.EvaluateBuy | app/risk/risk_manager.py:74-117 | the gates, in the order of the source, decide as the book does |
| RiskManagers.RiskManager.CheckExits | app/risk/risk_manager.py:126-151 | the loop over shared position objects lists these exits, in the order of the positions |
| Brokers.PaperBroker.SubmitOrder | app/execution/paper_broker.py:40-70 | fill at the current price or failure; the ledger moves as one fill; the order ends filled, rejected for funds or shares, or pending where the provider or the averaging raised |
| Brokers.PaperBroker.GetAccount | app/execution/paper_broker.py:75-79 | cash and marked positions, or an exception when any held symbol has no price |
| Brokers.PaperBroker.GetPositions | app/execution/paper_broker.py:72-73 | the ledger's own position objects, in insertion order |
| Brokers.MarketData.GetLatestPrice | app/reporting/backtest.py:51-66 | a replay answers with the close of the last bar not later than its date, raises when every bar is later, and answers with the last close of all before it is given a date |
| Brokers.MarketData.GetHistory | app/reporting/backtest.py:51-60 | a replay shows the bars up to the last one not later than its date, none when every bar is later, and all before it is given a date |
| Backtests.QuoteOfBar | app/reporting/backtest.py:51-66 | in ascending bars: the quote of a date is the close of the bar that is not later than it and whose next one is |
| Backtests.NoQuoteBefore | app/reporting/backtest.py:62-65 | a symbol whose bars are all later than the date has no quote |
| Backtests.ReplayQuotesCloses | app/reporting/backtest.py:51-66 | what a replay quotes on a date is the one map of last closes, no symbol missing and none added |
| Brokers.MarketData.AdvanceTo | app/reporting/backtest.py:48-49 | only the current date moves |
| Repositories.SqlTradeRepository.SaveFill | app/database/repository.py:36-80 | the trade is appended and the row under the order's own tag is inserted, averaged, reduced or deleted; on an exception nothing is committed; a table of positive rows cannot make it fail |
| Repositories.SqlTradeRepository.SaveAccountSnapshot | app/database/repository.py:82-93 | one snapshot is appended under the given name and nothing else changes |
| Repositories.SqlTradeRepository.LatestCashBalance | app/database/repository.py:120-134 | the cash of a snapshot that no other one of that name is later than; nothing exactly when there is no snapshot of that name |
| Repositories.SqlTradeRepository.ListOpenPositions | app/database/repository.py:108-118 | a new object for each row of that name, in an order the query does not promise |
| Repositories.SqlTradeRepository.ListTrades | app/database/repository.py:95-106 | exactly the trades of that symbol, not before that time, under that name, as far as these are given, each as often as it was stored, in the order of their times; nothing is promised among equal times |
| Engines.ExecutionEngine.StartNewTradingDay | app/execution/engine.py:42-44 | the baseline becomes the current equity, or the call raises and changes nothing |
| Engines.ExecutionEngine.Decide | app/execution/engine.py:53-62 | price, account and positions are read in this order, each from its own batch, and the decision is the risk manager's on them |
| Engines.ExecutionEngine.ProcessSignal | app/execution/engine.py:46-69 | account, database and number of questions asked end as the step function says; exceptions of price and account leave the call, broker failures do not |
| Engines.ExecutionEngine.ExitOrders | app/execution/engine.py:73-75 | one price for each held symbol, and the forced exits at these prices |
| Engines.ExecutionEngine.SubmitOrders | app/execution/engine.py:76-77 | orders are submitted one after another until one raises; the fills are those of the successful ones |
| Engines.ExecutionEngine.RunExitChecks | app/execution/engine.py:71-77 | the whole exit check, as the step function says |
| Engines.ExecutionEngine.Submit | app/execution/engine.py:79-92 | a failure of the broker is swallowed; after a fill, trade and position are stored, then a snapshot, and an exception in between leaves the first stored without the second |
| Engines.ExecutionEngine.Record | app/execution/engine.py:88-90 | the two writes after a fill, in this order |
| Discipline.ProcessSignalIsOrderly | app/execution/engine.py:46-69 | for any signal, prices and clock: at most one fill, and it is a legal move priced by the market of the call; a snapshot with the cash right after the fill is stored unless the call raised |
| Discipline.RunExitChecksIsOrderly | app/execution/engine.py:71-92 | the same for all fills of an exit check: each closes a whole position under a risk tag, and earlier exits leave later ones possible |
| Runs.RunIsDisciplined | app/execution/engine.py:42-92 | any sequence of calls, exceptions and seamless restarts included, is one log of legal moves from its start, and the replay of that log has the cash and positions of the account |
| Restarts.PositionLimitIff | app/risk/risk_manager.py:85-86 | from an account in sync and within the limit, restarts, forced exits and exceptions included: the limit holds at every point of a run if and only if at each restart the symbols held and those sold by force since the restart before are together no more than the limit |
| Safety.PositionLimitOverRuns | app/risk/risk_manager.py:85-86 | in every lawful run whose restarts are seamless, with or without a database in sync, there are no more positions than the limit, or than there were to begin with |
| Restarts.RestartsKeepSafe | app/risk/risk_manager.py:82-103 | cash floor and position limit are kept by every run that restarts after each exception, and restarts only where no exit had been forced since the restart before, cash flows left unsaved included |
| Jobs.ScheduleKeepsSafe | app/scheduler/jobs.py:64-123 | the same for whole schedules of jobs, each beginning with a restart and cut off at its first exception |
| Jobs.ScheduleIsLawful | app/scheduler/jobs.py:64-123 | every schedule of jobs, each rebuilt from what those before it stored, is a lawful run in which a call that raises is the last before a restart |
| Safety.CashFloorOverRuns | app/risk/risk_manager.py:82-103 | in every lawful run whose restarts are seamless, from non-negative cash, at non-negative prices that may change in mid-call, cash never falls below minus 1e-9 minus one commission for each position that may still be opened, and the position limit is kept |
| Safety.FreeTradingStaysSolvent | app/portfolio/portfolio.py:82-112 | without commissions, in every lawful run, whatever its restarts, forced exits and exceptions, cash never falls below minus 1e-9, and neither does any stored cash that a restart may resume with |
| Restarts.RoundTripsIff | app/risk/risk_manager.py:61-117 | from an empty account in sync, restarts, forced exits and exceptions included: the fills of a symbol are BUY, SELL, BUY, and so on, in whole shares, each SELL disposing of exactly the BUY before it, if and only if the symbol has not traded since any restart before which it had been sold by force |
| Safety.RoundTripsIffUntouched | app/risk/risk_manager.py:61-117 | the same in terms of holdings, with or without a database in sync, for restarts that only add to a holding: round trips if and only if no trade of the symbol since a restart that changed its holding; without such a restart what is held is the last BUY at its own price and time |
| Safety.RunsTradeInRoundTrips | app/risk/risk_manager.py:61-117 | so every lawful run from an empty account whose restarts are seamless trades in round trips, and holds the last BUY |
| Divergence.DivergenceLaw | app/database/repository.py:51-80 | over every log of legal moves the stored quantity of each symbol equals the ledger quantity plus what risk-tagged exits sold, before the log and in it, and no row ever stands under a risk tag |
| Divergence.InSyncIffNoForcedExit | app/database/orm_models.py:37 | the table shows the live positions if and only if no exit was forced |
| Divergence.RestartResurrects | app/scheduler/context.py:68-73 | a rebuilt account holds, of each symbol, the live quantity plus exactly what the risk rules had sold |
| Divergence.RestartedPositions | app/scheduler/context.py:73 | a rebuilt account has one position for each symbol that is held or was sold by force, and no other; so it exceeds the position limit if and only if there are more of these than the limit |
| Mirrors.RowsMirrorLedger | app/database/repository.py:51-80 | whatever the log, the rows under a tag, quantity, average price and opening time, are what the ledger makes of the fills saved under that tag, as long as it would accept them |
| Restart.ResumesWithNewest | app/database/repository.py:120-134 | with increasing snapshot times the query has one answer, the cash written last under that name |
| Restart.CallLosesNothingIff | app/execution/engine.py:79-92 | one call of any kind from a synced state, in any market: every context rebuilt right after it has the live cash and positions if and only if the call forced no exit and, where it raised after a fill, that fill moved no cash |
| Losses.ExitChecksLoseNothingIff | app/execution/engine.py:71-86 | the same on the inputs of an exit check, in any market: a restart after it loses something if and only if its first quotes are complete and some position to be forced out at them still has a quote when its turn comes, each swallowed order taking one batch |
| Losses.QuotedExitChecksLoseNothingIff | app/risk/risk_manager.py:126-151 | so, while the market quotes the held symbols, if and only if some held position breaches its stop or target at the first quotes |
| Losses.SignalLosesNothingIff | app/execution/engine.py:46-92 | the same on the inputs of a signal, in any market: a restart after it loses something if and only if the signal passes every gate up to its fill, the fill moves cash, and a symbol held afterwards has no quote in the batch that marks the account |
| Losses.CallRaisesIff | app/execution/engine.py:42-92 | which exceptions leave a call: it raises, having done nothing, where its own quote or one of a symbol held is missing; whatever goes wrong with an order is swallowed; and after a recorded fill it raises if and only if the account cannot be marked |
| Restart.RestartIsTransparent | app/scheduler/context.py:68-78 | after every run, restarts and exceptions included, with own-name fills and increasing snapshot times, and no cash flow unsaved if anything raised, the rebuilt cash and positions are the live ones |
| Restart.RestartsAreSeamlessIff | app/scheduler/jobs.py:66-73 | in every lawful run from a synced account, all restarts are seamless if and only if at each of them no exit had been forced since the one before and no cash flow was unsaved |
| Restart.OwnNameRunsAreSeamless | app/scheduler/jobs.py:66-73 | in particular where nothing raised and every fill carries the strategy's own name |
| Restart.RunDiverges | app/database/repository.py:54-80 | the divergence law for every lawful run, restarts and exceptions included, counted since the last restart, and what any restart after it resurrects: each quantity, and the number of positions |
| Restart.RunLosesNothingIff | app/database/orm_models.py:37 | after every lawful run, restarts and exceptions included, a restart loses nothing if and only if no exit was forced since the last one and no cash flow is unsaved |
| Counterexamples.ForcedExitIsResurrected | app/risk/risk_manager.py:132-141 | a concrete run, a buy of ten shares, a stop-loss exit and a buy of another symbol, after which every restart holds the ten shares again and one position more than the limit |
| Counterexamples.RestartBreaksLimitAndRoundTrips | app/scheduler/context.py:72-73 | that run continued: after the restart the account is over the position limit, and the strategy's next SELL has no BUY before it |
| Counterexamples.RestartBreaksCashFloor | app/scheduler/context.py:68-73 | a concrete run with a commission and a crash, whose restart brings back sold shares that are sold again, below the cash floor |
| Counterexamples.ReportMissesForcedExit | app/email/report_data.py:220-221 | a concrete run whose profit report does not give the sells the values they had |
| Counterexamples.FailedSnapshotLosesCash | app/execution/engine.py:88-90 | a concrete call, a buy after which the provider raises, after which a restart does not resume the live account |
| Contexts.BuildTradingContext | app/scheduler/context.py:49-90 | context, engine, broker, portfolio and positions are new objects; the account resumes with a latest stored cash of that strategy, or the initial capital, and with its stored positions; the baseline and the realized total start afresh |
| Contexts.Rehydrate | app/scheduler/context.py:68-73 | the portfolio part of the above: a new portfolio over new position objects |
| Contexts.TradingContext.ScanSymbol | app/scheduler/jobs.py:43-55 | a symbol whose history raises or is empty is skipped; for any other one the strategy's signal on that history is processed in the provider's market |
| Contexts.TradingContext.RunTradingScan | app/scheduler/jobs.py:31-57 | the calls are the exit check, then one signal for each watchlist symbol with a history, in order, each asked for where the one before ended, cut off at the first exception; the returned signals are those processed |
| Contexts.TradingContext.SaveSnapshot | app/scheduler/jobs.py:60-61 | one snapshot of the account marked in the provider's market, or an exception and no write |
| Contexts.TradingContext.ScanRound | app/scheduler/jobs.py:70-74 | the calls are new day (mornings only), scan and snapshot, all in the provider's market, cut off at the first exception; account, batch counter and database are where they lead |
| Contexts.TradingContext.EveningRound | app/scheduler/jobs.py:93-95 | the calls are exit check and snapshot, in the same way |
| Contexts.TradingContext.Perform | app/scheduler/jobs.py:70-122 | any of the three rounds, and each keeps the cash floor and the position limit |
| Contexts.RunJob | app/scheduler/jobs.py:66-74 | a whole job for one strategy: the database ends as the round leaves it when started from an account rebuilt from it |
| Jobs.JobRuns | app/scheduler/jobs.py:64-123 | every job is a run of engine calls, without restart, all in the market it is given and under the strategy's own name, and only its last call can have raised |
| Jobs.JobIsItsStages | app/scheduler/jobs.py:31-123 | every job performs all its steps in the order of the source, each from the account and batch where the one before it ended, until one raises: baseline (mornings), forced exits, each watchlist symbol (not evenings) by a signal on its history or by nothing where that raises or is empty, snapshot |
| Jobs.JobShape | app/scheduler/jobs.py:31-123 | so the calls of a job are a prefix of new day (mornings), exit check, one signal for each watchlist symbol with a history, in order (not evenings), and snapshot; and all of that unless it raised |
| Jobs.ScanIsInTurn | app/scheduler/jobs.py:31-57 | the same for a scan alone: the forced exits, then the watchlist |
| Jobs.EverySignalIsReturned | app/scheduler/jobs.py:34-57 | the signals a scan returns are those of its calls, HOLDs included |
| DailyLoss.BaselineIsMorningEquity | app/execution/engine.py:42-44 | at any point of any run the baseline is what the account was worth, at the quotes of that batch, when the last new day began, and there is none since the last restart |
| DailyLoss.LossLimitStopsBuying | app/risk/risk_manager.py:88-93 | from a morning of positive worth until the next restart a BUY buys nothing once equity is at most that worth times one minus the limit, and until then it is processed as if there were no limit |
| DailyLoss.OnlyMorningsAreLimited | app/execution/engine.py:42-44 | the limit is not enforced through the day: an hourly or evening job begins with a restart and sets no baseline, so it does exactly what it would do without a limit |
| Jobs.JobExtendsRun | app/scheduler/jobs.py:66 | a job extends any lawful run that led to its database by a restart and its own calls, lawfully, so what is proved of lawful runs holds of every schedule |
| Jobs.JobKeepsSafe | app/scheduler/jobs.py:70-74 | a job keeps the cash floor and the position limit |
| Jobs.RunAppend | app/scheduler/jobs.py:69-74 | a run may be cut anywhere: the second part continues from the account and database of the first |
| Independence.StrategiesAreIndependent | app/scheduler/jobs.py:69-74 | in every lawful interleaving of engines with distinct names over one database, restarts and shared risk tags included, each strategy's account, rows, snapshots and trades are those of its own calls run alone |
| Independence.EntryFrame | app/database/repository.py:36-93 | storing a trade of one strategy changes nothing another one owns |
| Independence.EntryLocal | app/database/repository.py:36-93 | what storing a trade does to its own strategy's share depends on that share alone |
| Independence.RebuildIsLocal | app/database/repository.py:108-134 | a restart reads nothing but the strategy's own share of the tables |
| Profits.SortIsStable | app/reporting/metrics.py:39 | the sort by time permutes the fills, orders them, and keeps the order of equal times |
| Profits.ReplayedProfitIsLiveProfit | app/reporting/metrics.py:22-48 | for every chronological log with distinct identifiers that a portfolio starting empty accepted, the scratch ledger refuses nothing, ends with the same positions, gives each SELL, in order, the value it had live, and these values sum to the live total |
| StrategyReports.ReportIsLiveIff | app/email/report_data.py:220-221 | the report over the trades stored under one strategy's name gives every SELL of a chronological log with distinct identifiers the value it had live if and only if no exit was forced |
| StrategyReports.RunReportIsLiveIff | app/email/report_data.py:220-221 | after every lawful run from an empty account in sync, restarts and exceptions included, the report gives every SELL the value the account then gave it if and only if no exit was forced |
| ProfitReports.ComputeRealizedPnlByFill | app/reporting/metrics.py:37-43 | the loop over a scratch portfolio object computes that replay, exceptions included |
| Metrics.MaxDrawdownIsTheWorstDecline | app/reporting/metrics.py:88-94 | for every curve whose running maximum is never zero: no point divided by the peak before it, minus one, is below the result, some point attains it, and the result is never positive |
| Metrics.RunningMaxBounds | app/reporting/metrics.py:92 | the running maximum is a point of the curve so far, and none is above it |
| Metrics.MaxDrawdownIsTheWorstPair | app/reporting/metrics.py:88-94 | where equity never falls below zero: no later point divided by an earlier positive one, minus one, is below the result, some pair attains it, it is at least -1, and above -1 exactly where equity stays positive |
| Metrics.DebtIsNotTheWorstPair | app/reporting/metrics.py:92-94 | a curve that falls below zero for which it is not the worst pair |
| Metrics.MaxDrawdownIgnoresScale | app/reporting/metrics.py:88-94 | for every such curve drawdown does not change when it is scaled by a positive factor |
| Metrics.ReturnsCompound | app/reporting/metrics.py:51-59 | wherever all period returns are numbers, the total return is what they compound to, minus one, short curves included |
| Metrics.ReturnsAreSteps | app/reporting/metrics.py:51-53 | one return fewer than points, and each takes its point to the next |
| Metrics.TotalReturnIsGrowth | app/reporting/metrics.py:56-59 | the total return takes the first point to the last, and is zero from zero |
| Indicators.SmaIsPrefixStable | app/indicators/moving_average.py:14-18 | the moving average of a prefix is the prefix of the moving average |
| Indicators.EwmIsPrefixStable | app/indicators/moving_average.py:21-25 | the same for exponentially weighted means, leading gaps included |
| Indicators.MacdIsPrefixStable | app/indicators/macd.py:15-16 | the same for the MACD line and for its signal line |
| Indicators.RsiIsPrefixStable | app/indicators/rsi.py:21-32 | the same for RSI |
| Indicators.WarmUps | app/indicators/moving_average.py:14-25 | exactly from which bar on the moving average, the MACD line and its signal line have values |
| Indicators.SmaIsMean | app/indicators/moving_average.py:14-18 | shown from the w-th bar on, and then the sum of the last w values over w |
| Indicators.EmaIsDecayingMean | app/indicators/moving_average.py:21-25 | shown from the w-th value on, and then the mean of all values so far whose weights decay by 1 - 2 / (w + 1) a bar, the first value standing for the whole past |
| Indicators.MacdIsDifference | app/indicators/macd.py:15-16 | where each is shown: the line is the fast such mean minus the slow one, and the signal line the mean of the line |
| Indicators.RsiIsShareOfMovement | app/indicators/rsi.py:21-32 | from the w-th bar on RSI is the share, in percent, of the decaying mean of the rises in that of all movement, with weights that decay by 1 - 1 / w a bar; and 50 without movement |
| Indicators.RsiWarmUp | app/indicators/rsi.py:25-26 | RSI has a value at a bar if and only if it is at or after the window length |
| Indicators.SmaIsAffine | app/indicators/moving_average.py:14-18 | the moving average commutes with every change of unit and mirroring of prices |
| Indicators.EwmIsAffine | app/indicators/moving_average.py:21-25 | so do exponentially weighted means |
| Indicators.MacdIsScaled | app/indicators/macd.py:15-16 | under such a change MACD and signal line scale, and the shift cancels |
| Indicators.StrengthIsShare | app/indicators/rsi.py:28-30 | wherever prices moved, the formula, infinite ratio included, is the gains' share of the movement in percent |
| Indicators.StrengthMirrors | app/indicators/rsi.py:28-32 | exchanging gains and losses mirrors RSI around 50, in every case because the flat case is 50 |
| Indicators.RsiIsSymmetric | app/indicators/rsi.py:9-32 | RSI lies in [0, 100], ignores positive changes of unit and is mirrored by negative ones |
| Strategies.CrossoverReadsTheWholeSeries | app/strategies/moving_average_crossover.py:34-70 | bar by bar, the signal of the window that ends there is the cross of the averages of the whole series: the length guard hides nothing that is defined |
| Strategies.CrossoverSignalIff | app/strategies/moving_average_crossover.py:34-70 | BUY if and only if both averages are defined a bar ago and the fast one was at or below the slow one then and is above it now; SELL the other way round |
| Strategies.RsiReadsTheWholeSeries | app/strategies/rsi_strategy.py:32-57 | the same for RSI, whose guard is exact too |
| Strategies.RsiSignalIff | app/strategies/rsi_strategy.py:32-57 | BUY if and only if RSI is defined a bar ago and was at most the oversold threshold then and is above it now; SELL if and only if it was at least the overbought threshold and is below it now |
| Strategies.MacdReadsTheWholeSeries | app/strategies/macd_strategy.py:29-54 | the same for MACD, except for exactly one bar that its guard withholds although both lines are defined |
| Strategies.MacdSignalIff | app/strategies/macd_strategy.py:29-54 | BUY if and only if enough bars have passed and the line was at or below its signal line a bar ago and is above it now; SELL the other way round |
| Strategies.CrossIsAnEdge | app/strategies/moving_average_crossover.py:62-70 | a signal fires if and only if the lines are strictly ordered now and were level or ordered the other way a bar ago |
| Strategies.SignalsAlternate | app/strategies/macd_strategy.py:48-54 | where two defined lines never tie, between two equal signals lies an opposite one |
| Strategies.CrossoverSignalsAlternate | app/strategies/moving_average_crossover.py:50-70 | over growing windows two BUYs, or two SELLs, are never on consecutive bars, at some bar between them the fast average is off their side of the slow one, and without ties the opposite signal fires between them |
| Strategies.MacdSignalsAlternate | app/strategies/macd_strategy.py:29-54 | the same for MACD; the withheld bar never matters |
| Strategies.BouncesAreSeparated | app/strategies/rsi_strategy.py:49-57 | no RSI signal is repeated on the next bar |
| Strategies.CrossoverIsSymmetric | app/strategies/moving_average_crossover.py:50-70 | prices k * p + b give the same signal for k > 0, and BUY and SELL exchanged for k < 0 |
| Strategies.MacdIsSymmetric | app/strategies/macd_strategy.py:29-54 | the same for MACD |
| Strategies.RsiSignalIsSymmetric | app/strategies/rsi_strategy.py:32-57 | the same for RSI when, for k < 0, the thresholds mirror each other |
| PriceCache.CachedPrices.GetLatestPrice | app/data/cache.py:60-68 | the answer and the new cache of one request; a provider that raises leaves the cache as it was |
| PriceCache.CachedPrices.Serve | app/data/cache.py:60-68 | any sequence of requests gives the replies and the cache that the theorems are about |
| PriceCache.CacheIsLastFetch | app/data/cache.py:61-67 | the cache holds the last fetch of each symbol with its time, and nothing for a symbol never fetched |
| PriceCache.RepliesAreExact | app/data/cache.py:61-68 | each answer: the price of the symbol's last fetch if that is less than the time to live ago, without asking the vendor, and what the vendor says now in every other case, stored if it is a price |
| PriceCache.PricesAreFresh | app/data/cache.py:61-68 | every price returned was fetched for that symbol, just now or less than the time to live ago |
| PriceCache.FetchesAreApart | app/data/cache.py:61-67 | with a monotone clock two fetches of one symbol are at least the time to live apart |
| PriceCache.FetchesAreBounded | app/data/cache.py:61-67 | the fetches of one symbol within a span T number at most floor(T / time to live) + 1 |
| PriceCache.SymbolsAreIndependent | app/data/cache.py:61-68 | the replies to one symbol are those its requests would get alone |
| Lookahead.NothingSeesTheFuture | app/reporting/backtest.py:34-66 | for any strategy, limits and commission, histories that agree on all bars up to a date give the same trades and equity on every day up to it, whatever calendars and symbols they have later |
| Timeless.RunIsTimeless | app/execution/paper_broker.py:42-50 | a backtest with all clock readings and identifiers erased is the backtest, erased: they are written down and never read |
| Timeless.NothingSeesTheFutureOrTheClock | app/reporting/backtest.py:118-133 | no lookahead between backtests made at different times, up to identifiers and wall-clock times |
| BacktestLaws.SignalAtQuote | app/execution/engine.py:79-86 | an approved order of a backtest is swallowed if and only if it is a buy whose quantity times price plus commission exceeds cash by more than 1e-9 |
| BacktestLaws.FreeOrdersAlwaysFill | app/execution/engine.py:79-86 | without a commission a signal trades if and only if it is approved |
| BacktestLaws.BoughtWithinLimits | app/risk/risk_manager.py:99-101 | after a buy at unchanged prices, with or without a database, the position, and all positions together, are within their percentages of equity plus the commission paid |
| BacktestLaws.ExitsFill | app/execution/engine.py:71-77 | every forced exit of a backtest fills, and none of the ordered symbols stays held |
| BacktestLaws.EquityPaysCommissions | app/portfolio/portfolio.py:81-118 | at the day's quotes trading changes equity by the commissions and nothing else |
| BacktestTheorems.BacktestNeverFails | app/reporting/backtest.py:118-133 | every backtest over the union calendar completes, with one record for each of its dates |
| BacktestTheorems.WindowsGrowBarByBar | app/reporting/backtest.py:124-128 | a strategy is shown a symbol's bars from the first to the one of the date, so never an empty window |
| BacktestRuns.BacktestIsARun | app/reporting/backtest.py:106-133 | a backtest is a run of the live engine from the capital: on each date of the calendar, in a market that quotes the closes of the date, a new day, an exit check, then one signal for each requested symbol with a bar on that date and for no other, in the order of first requests, each the strategy's on that symbol's bars up to that one; account and trades are those of the run |
| BacktestRuns.DayIsARun | app/reporting/backtest.py:118-133 | one date of it, with the batches: each call begins where the one before it ended, and the account is marked once more at the end |
| BacktestTheorems.DaysEndInBand | app/reporting/backtest.py:118-133 | at the end of every day each open position, bought that day or not, traded that day or not, has its last close strictly above entry price times one minus the stop and strictly below entry price times one plus the target |
| BacktestTheorems.TradesAreAtCloses | app/reporting/backtest.py:118-131 | every trade of a day is at its symbol's last close on that day, and every buy at a positive one |
| BacktestTheorems.EquityTelescopes | app/reporting/backtest.py:118-133 | a day opens at the last close's equity plus the overnight moves, each quantity times the change of its last close, ends at that minus its commissions, and so equity is the capital plus all nights minus all commissions |
| BacktestTheorems.BacktestIsDisciplined | app/reporting/backtest.py:118-133 | a whole backtest is one log of legal moves from its capital |
| BacktestTheorems.BacktestTradesInRoundTrips | app/reporting/backtest.py:118-133 | the fills of each symbol in a backtest are round trips |
| BacktestTheorems.BacktestKeepsLimit | app/risk/risk_manager.py:85-86 | at the end of every day of every backtest there are no more positions than the limit |
| BacktestTheorems.GateNeverFires | app/risk/risk_manager.py:88-93 | without commissions and with a positive limit, the backtest is the one without the daily loss gate |
| Backtesters.Backtester.Run | app/reporting/backtest.py:95-147 | the loop over the heap objects never raises, reports the missing data exactly when no symbol has a bar, and otherwise reports for each date the equity after the day's trading, all trades in order, and the final positions of the backtest above |
| Backtesters.Backtester.DayLoop | app/reporting/backtest.py:115-133 | after each date the curve and the trades collected so far are those of the backtest up to it |
| Backtesters.RunDay | app/reporting/backtest.py:118-133 | one date: provider moved, baseline, exits, signals, equity point |
| Backtesters.ProcessSignals | app/reporting/backtest.py:124-131 | the loop over the symbols with a bar on the date |
| Backtesters.UnionCalendar | app/reporting/backtest.py:104 | strictly increasing, and exactly the dates on which some symbol has a bar |
| Backtesters.FetchHistory | app/reporting/backtest.py:149-159 | exactly the requested symbols with bars, each with its bars, in order of first request |

## Left out

- Floating-point rounding, NaN and time zones: numbers are exact reals, closes are finite, bars ascend strictly by date.
- The database engine: each commit is one atomic step, identifiers never collide, and rows come back in no particular
  order; `equity_curve` only reads.
- Exceptions inside a live strategy, and the sentiment filter, the strategy factory, the watchlist and the settings:
  a strategy is any total function of a symbol and its bars.
- News, market data vendors, the Parquet cache of histories, the dashboard, charts, email, logging and the scheduler
  library: foreign calls and presentation.
- `cagr`, `sharpe_ratio`, win rate and the other trade statistics, the benchmark curve: no exact theorem, or easy ones.
- The loop of a job over several contexts as one method: it is modelled on values, as any interleaving of calls
  (`Independence`); the method for one strategy is `RunJob`.
- Signal prices, timestamps and reasons, limit orders, and the identifiers of orders: nothing of the modelled code reads
  them.
- Windows below 1 and fast windows not below slow ones: the constructors and indicators reject them, so they are the
  type `Period` and preconditions here.
- Where the order's status lives: the broker's `Ticket` carries it, created by the engine; the risk manager makes a
  plain order.
- Trading.Submit: takes `save_fill` to succeed; it can only fail on averaging a stored row to zero shares, which a table
  of positive rows excludes, and `Repositories.SqlTradeRepository.SaveFill` keeps the rows positive.
- Ledgers.Ledger: the scratch ledger's infinite cash is a flag, and its cash then only counts what passed through.
- Risk.EvaluateBuy: which closed gate a refusal names is only logged, so no theorem is about it.
- DailyLoss.LossLimitStopsBuying: mornings of no or negative worth are left to `Risk.DailyLossIsAnAmount`.
- Mirrors.RowsMirrorLedger: says nothing of a row after a fill that the ledger of its tag would refuse, such as a sell
  without a row, which the table ignores.
- Metrics.MaxDrawdownIsTheWorstDecline: a running maximum of zero makes an infinite or undefined decline, which exact
  reals do not have.
- Metrics.MaxDrawdownIgnoresScale: the same.
- Metrics.MaxDrawdownIsTheWorstPair: false below zero, as `DebtIsNotTheWorstPair` shows; what holds there is
  `MaxDrawdownIsTheWorstDecline`.
- Metrics.ReturnsCompound: a zero before the last point makes an infinite return, which exact reals do not have.
- StrategyReports.ReportIsLiveIff: the trades are taken as stored; among equal times the query promises no order.
- Indicators.RsiIsSymmetric: the leading gaps are the length of the warm-up, not values.
- Backtesters.Backtester.Run: the benchmark curve is not part of the report.
- Safety.CashFloorOverRuns: a negative commission, a payment for trading, is not covered; restarts are seamless here, and
  `Restarts.RestartsKeepSafe` covers those that lose an unsaved cash flow.
- Contexts.BuildTradingContext: settings and the strategy are given, not read from the environment.
