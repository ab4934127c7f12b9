# QuantumChildren simulated prop-firm challenge and collection server, in Dafny

This project models two parts of the QuantumChildren distribution:

- **The simulated prop-firm challenge** (`DISTRIBUTION/simulated_challenge.py`). It is a paper-trading account with a starting balance, a profit target and two drawdown limits:
  - the daily limit is measured from the balance at the start of the day;
  - the total limit is measured from the high-water mark.

  Trades are opened, re-marked at a current price and closed. Each close books its profit into the balance. After each close and each re-mark the engine checks the drawdown limits, and after each close it also checks the profit target. The state can be saved to a snapshot and reloaded from one. A passed challenge produces a certificate.
- **The pure logic of the signal collection server** (`DISTRIBUTION/SERVER/collection_server.py`):
  - the per-address sliding-window rate limiter;
  - the admin-key gate;
  - the win rate and equity curve of the performance report;
  - the losing-streak and win-rate-drop alerts;
  - the backtest period, summary and maximum drawdown;
  - the EA-name check of a compile request.

Modules:

- `Wrappers` holds `Option` and `Result` plus small helpers.
- `ChallengeRules` holds the challenge's value types and the pure rules:
  - the profit formula (`points × volume × 10`);
  - the drawdown and target tests;
  - how a reload rebuilds the open-trade index and the ticket counter;
  - the floating profit of the open trades.
- `Challenge` holds the class `SimulatedChallenge`. Its fields are updated in place, as the source does, and its methods are proved against the functions of `ChallengeRules`.
- `ChallengeScenarios` holds concrete runs of the engine, with the outcome of each proved.
- `ServerSecurity` holds the rate limiter (a class over its store) and the admin gate.
- `ServerReports` holds the report computations over the pnl column, where a missing pnl counts as 0.

How the model represents the source:

- **Open-trade dictionary.** The source keeps it as a second set of references to ledger records. The model stores it as a map from ticket to ledger position. An update through the dictionary is an update of `trades` at that position.
- **Clock.** The model has no clock. The current moment is a `now` parameter, a `Timestamp(date, secondOfDay)`.
- **Failure reason.** The source stores the formatted failure text. The model stores a `FailReason` holding the drawdown fraction and the limit that the text prints.

The model follows the code as written, including these behaviours:

- An open trade that loses 10 points at 1 lot loses 100 (`10 × 1 × 10`).
- `update_trade` and `close_trade` run their checks whatever the status. So a failed challenge can still be re-marked and closed, and a later close that reaches the target turns it into PASSED without clearing the failure reason (`ChallengeScenarios.FailureOverturnedByClose`).
- A close sets equity to the balance, so the floating profit of the other open trades disappears from equity until their next re-mark (`ChallengeScenarios.CloseDropsFloatingLoss`).
- The trade volume is not validated.
- `load` restores the ticket counter only from OPEN trades, so a closed trade's ticket can be issued again after a reload (`ChallengeScenarios.TicketReissuedAfterReload`).
- The current day is not saved, so a reloaded challenge's day is the day of the reload.
- No code path of the core sets FAILED_TIME, and `time_limit_days` is never read.

## Model

| member | source | states |
|---|---|---|
| ChallengeRules.TradeProfit | DISTRIBUTION/simulated_challenge.py:248-255 | The profit of a trade at a price is zero at the open price. With positive volume, a BUY profits exactly when the price rose, and any other direction profits exactly when it fell. |
| ChallengeRules.DrawdownBreach | DISTRIBUTION/simulated_challenge.py:161-179 | The daily breach fires exactly when the loss from the day's starting balance is at least the daily limit times the initial balance. Otherwise the total breach fires exactly when the loss from the high-water mark is at least the total limit times the initial balance. The reported drawdown is that loss as a fraction of the initial balance. |
| ChallengeRules.TargetReached | DISTRIBUTION/simulated_challenge.py:181-192 | The challenge passes exactly when the balance gain is at least the target fraction of the initial balance and the trading days reach the minimum. |
| ChallengeRules.OpenIndexExact | DISTRIBUTION/simulated_challenge.py:368-374 | The index that reload rebuilds is well formed, holds every OPEN trade's ticket, and maps each ticket to its last OPEN occurrence in the ledger. |
| ChallengeRules.ReloadRebuildsIndex | DISTRIBUTION/simulated_challenge.py:329-374 | Reloading a ledger whose index matches it (every OPEN trade indexed, only OPEN trades indexed) rebuilds exactly that index. |
| ChallengeRules.DistinctOpenIndexMatches | DISTRIBUTION/simulated_challenge.py:368-374 | When no two OPEN trades share a ticket, the rebuilt index holds every OPEN trade at its own ledger position. |
| ChallengeRules.ReloadedNextTicketBounds | DISTRIBUTION/simulated_challenge.py:368-374 | The reloaded counter is at least 1000 and above every OPEN ticket. It is either 1000 or one more than some OPEN ticket. |
| ChallengeRules.ReloadNeverAdvancesTicket | DISTRIBUTION/simulated_challenge.py:368-374 | A reload never sets the counter beyond the one the saved engine had. |
| ChallengeRules.ReloadCanReissueClosedTicket | DISTRIBUTION/simulated_challenge.py:372-374 | When every OPEN ticket is below a closed trade's ticket, the reloaded counter is at most that ticket, so the ticket can be issued again once enough trades are opened. |
| ChallengeRules.ReissueExample | DISTRIBUTION/simulated_challenge.py:368-374 | A ledger holding only the closed trade 1000 reloads with the counter at 1000. |
| ChallengeRules.FloatingProfitPointwise | DISTRIBUTION/simulated_challenge.py:258 | Changing one ledger position changes the floating profit (the sum of the indexed trades' profits) by that position's change in contribution. |
| ChallengeRules.RemarkFloatingProfit | DISTRIBUTION/simulated_challenge.py:246-258 | Re-marking an open trade changes the floating profit by the new profit minus the old. |
| ChallengeRules.AppendFloatingProfit | DISTRIBUTION/simulated_challenge.py:215-220 | Appending and indexing a new trade adds its profit to the floating profit. |
| ChallengeRules.CloseFloatingProfit | DISTRIBUTION/simulated_challenge.py:270-291 | Closing an indexed trade and removing it from the index removes its old profit from the floating profit. |
| Challenge.SimulatedChallenge.constructor | DISTRIBUTION/simulated_challenge.py:126-145 | A new challenge has balance, equity, high-water mark and day start equal to the initial balance, no trades, counter 1000 and status IN_PROGRESS. The index invariant holds and equity equals balance plus floating profit. |
| Challenge.SimulatedChallenge.Load | DISTRIBUTION/simulated_challenge.py:349-376 | A loaded challenge takes the snapshot's configuration, state and ledger, and today's day. Its index and counter are the ones rebuilt from the OPEN trades. When no two OPEN trades share a ticket, every OPEN trade is indexed at its own position. |
| Challenge.SimulatedChallenge.Save | DISTRIBUTION/simulated_challenge.py:329-344 | A snapshot holds the configuration, the whole ledger, and every state field the source saves: balance, equity, high-water mark, day start, start time, trading days, status and failure reason. It does not hold the current day or the ticket counter. |
| Challenge.SimulatedChallenge.SaveLoadRestoresIndex | DISTRIBUTION/simulated_challenge.py:329-376 | Save followed by load restores exactly the open-trade index. The reloaded counter is never beyond the saved engine's. The saved ledger has no two OPEN trades on one ticket, so the reloaded engine is consistent again. |
| Challenge.SimulatedChallenge.CheckNewDay | DISTRIBUTION/simulated_challenge.py:153-159 | On a new date the day changes and the day start becomes the balance. On the same date nothing changes. |
| Challenge.SimulatedChallenge.CheckDrawdown | DISTRIBUTION/simulated_challenge.py:161-179 | The method returns true and changes nothing exactly when no limit is breached. On a breach it sets the matching failed status and reason, checking the daily limit first. |
| Challenge.SimulatedChallenge.CheckProfitTarget | DISTRIBUTION/simulated_challenge.py:181-192 | The method returns true and sets PASSED exactly when the target is reached. Otherwise nothing changes, and the failure reason is never touched. |
| Challenge.SimulatedChallenge.OpenTrade | DISTRIBUTION/simulated_challenge.py:194-239 | Outside IN_PROGRESS the method returns -1 and changes nothing. Otherwise it records the trading day, issues the counter's ticket (at least 1000 and not among the open tickets), appends an OPEN trade with profit 0, indexes it, and leaves the floating profit unchanged. The invariants are preserved. |
| Challenge.SimulatedChallenge.Remark | DISTRIBUTION/simulated_challenge.py:246-259 | For an indexed ticket, only that trade's profit changes, to its profit at the current price. Equity becomes balance plus the floating profit. The floating profit moves by the change in the trade's profit. The index invariants are preserved. |
| Challenge.SimulatedChallenge.UpdateTrade | DISTRIBUTION/simulated_challenge.py:241-262 | An unknown ticket changes nothing. Otherwise only that trade's profit changes, equity becomes balance plus floating profit, and status and reason follow the drawdown check. |
| Challenge.SimulatedChallenge.BookClose | DISTRIBUTION/simulated_challenge.py:270-291 | For an indexed ticket, the trade is closed at the price and time with its final profit. The ticket leaves the index, and the balance grows by that profit. Equity becomes the balance, and the high-water mark becomes the larger of itself and the balance. Status, reason, day, trading days and counter are unchanged. The index invariant is preserved. |
| Challenge.SimulatedChallenge.CloseTrade | DISTRIBUTION/simulated_challenge.py:264-300 | An unknown ticket returns 0 and changes nothing. Otherwise the trade is closed at the price and leaves the index, and the balance grows by its profit. Equity becomes the balance and the high-water mark rises to the balance if that is higher. The drawdown check runs first and sets the status; the target check then overrides it with PASSED when the target is reached. The floating profit drops by the trade's last marked profit, and equity is consistent afterwards exactly when no floating profit remains. |
| Challenge.SimulatedChallenge.GetStats | DISTRIBUTION/simulated_challenge.py:302-327 | The report carries the challenge name, status, balance, equity, target and minimum trading days. Profit is balance minus initial balance, and the profit percentage times the initial balance is that profit. Progress never exceeds 100. Below 100, progress times the target is the profit percentage times 100, which is the uncapped ratio. With a positive target, progress is 100 exactly when the balance target is met. With a negative target, progress is 100 exactly when the profit is at or below the target times the initial balance. The daily and total drawdowns times the initial balance are the losses from the day start and from the high-water mark. Each reaches its limit exactly when the matching check would fail. The counts are those of the trading days, the ledger and the index. |
| Challenge.SimulatedChallenge.GenerateCertificate | DISTRIBUTION/simulated_challenge.py:378-400 | An unpassed challenge gives the fixed not-passed message. A passed one gives a certificate with the challenge name, starting and final balance, profit, trading days, trade count and start time. |
| Challenge.SaveAndLoad | DISTRIBUTION/simulated_challenge.py:329-376 | Loading the snapshot of a consistent challenge gives the same configuration, state, ledger and index, with today's day and a counter between 1000 and the saved one. The result is consistent again. |
| ChallengeScenarios.SmallLossStaysInProgress | DISTRIBUTION/simulated_challenge.py:194-300 | A 1-lot buy closed 10 points down leaves balance 99900 and the challenge in progress. |
| ChallengeScenarios.ThreeLossesFailDaily | DISTRIBUTION/simulated_challenge.py:161-198 | Three losses of 2% in one day fail the daily limit with a reason of 6% against 5%, after which opening a trade returns -1. |
| ChallengeScenarios.TargetWaitsForTradingDays | DISTRIBUTION/simulated_challenge.py:181-192 | A 10% gain on one trading day, when four days are required, stays in progress. |
| ChallengeScenarios.FailureOverturnedByClose | DISTRIBUTION/simulated_challenge.py:241-300 | A challenge failed by a floating loss becomes PASSED after a profitable close and keeps its failure reason. |
| ChallengeScenarios.CloseDropsFloatingLoss | DISTRIBUTION/simulated_challenge.py:255-285 | After one close, equity equals balance although another open trade has a floating loss of 1000. |
| ChallengeScenarios.TicketReissuedAfterReload | DISTRIBUTION/simulated_challenge.py:349-376 | A reloaded challenge whose only trade is closed issues that trade's ticket again. |
| ServerSecurity.Prune | DISTRIBUTION/SERVER/collection_server.py:51-54 | The pruned list keeps every time strictly inside the 60-second window and nothing else. It is never longer than the original list, and its entries are a sub-multiset of the original ones. |
| ServerSecurity.PruneCounts | DISTRIBUTION/SERVER/collection_server.py:51-55 | Pruning keeps every occurrence of each in-window time and drops all others. So the length the limiter compares is the number of in-window requests. |
| ServerSecurity.RateLimiter.constructor | DISTRIBUTION/SERVER/collection_server.py:34 | A new limiter has an empty store: no address has request times yet. |
| ServerSecurity.RateLimiter.Allow | DISTRIBUTION/SERVER/collection_server.py:44-60 | A request is admitted exactly when fewer than the maximum in-window times remain. The address's list becomes the pruned list, with `now` appended if the request is admitted. No list grows beyond any bound at or above the maximum. |
| ServerSecurity.AdminAllowed | DISTRIBUTION/SERVER/collection_server.py:63-73 | With no key configured every request passes. Otherwise a request passes exactly when it carries the configured key. |
| ServerReports.Wins | DISTRIBUTION/SERVER/collection_server.py:367-370 | The win count is at most the row count, and it is zero exactly when no row has a positive pnl. |
| ServerReports.WinRate | DISTRIBUTION/SERVER/collection_server.py:367-372 | The win rate is the fallback for no rows. Otherwise it lies between 0 and 100 and is 100 exactly when every row wins. |
| ServerReports.WinsAllPositive | DISTRIBUTION/SERVER/collection_server.py:367-372 | The win count equals the row count exactly when every row's pnl is positive. |
| ServerReports.CumulativeAppend | DISTRIBUTION/SERVER/collection_server.py:545-547 | The total pnl of two consecutive runs of rows is the sum of their totals. |
| ServerReports.EquityCurve | DISTRIBUTION/SERVER/collection_server.py:397-403 | The curve has one point per row. Each point is the total pnl up to and including its row, each step is that row's pnl, and the last point is the total pnl. |
| ServerReports.LosingStreak | DISTRIBUTION/SERVER/collection_server.py:448-453 | The streak counts the newest rows with a negative pnl, and the row after it, if any, is not a loss. |
| ServerReports.DrawdownAlert | DISTRIBUTION/SERVER/collection_server.py:442-460 | The alert is raised exactly when the newest three rows are losses, and it is high exactly when the newest five are. |
| ServerReports.WinRateDrop | DISTRIBUTION/SERVER/collection_server.py:475-493 | The alert fires exactly when the overall rate exceeds the newest twenty's rate by more than 10 points, so it never fires with twenty outcomes or fewer. When it fires, one of the newest twenty outcomes is not a win. |
| ServerReports.BacktestDays | DISTRIBUTION/SERVER/collection_server.py:525 | The period is 30 days when absent, the request when it is at most 90, and 90 when the request is above 90. |
| ServerReports.RunningPnlIsCumulative | DISTRIBUTION/SERVER/collection_server.py:549-552 | The running pnl the scan keeps after j rows is the cumulative pnl of the first j rows. |
| ServerReports.MaxDrawdown | DISTRIBUTION/SERVER/collection_server.py:548-557 | The peak is the largest cumulative pnl, counting the starting 0, and is reached. The maximum drawdown is the largest fall from an earlier cumulative value to a later one, is reached, and is never negative. |
| ServerReports.DeclineIsRunLoss | DISTRIBUTION/SERVER/collection_server.py:548-557 | A fall of the cumulative pnl between two points is the loss of the rows between them, so the maximum drawdown is the worst run of consecutive trades. |
| ServerReports.Backtest | DISTRIBUTION/SERVER/collection_server.py:525-573 | No rows gives the no-data error with the clamped period. Otherwise the summary holds the clamped period and the trade count. Wins and losses sum to the trade count. The win rate is the rows' win rate in percent: between 0 and 100, and 100 exactly when there are no losses. The summary also holds the total pnl and the maximum drawdown: the largest fall, reached, and never negative. |
| ServerReports.ValidEaName | DISTRIBUTION/SERVER/collection_server.py:595-597 | A name passes exactly when every character is a letter, a digit, an underscore or a hyphen. |
| ServerReports.CompileRequestName | DISTRIBUTION/SERVER/collection_server.py:590-597 | A missing name gives the name-required error. A present name is accepted, unchanged, exactly when all its characters are allowed, and is otherwise rejected as invalid. |

## Left out

- Telemetry: the `collect_signal` call in `open_trade` only sends data and swallows every error, so it has no effect on the engine's state and is not modelled.
- File I/O: `save` writes JSON to a file and `load` reads it. The model's `Save` returns the snapshot as a value, and `Load` takes one. The `save()` calls inside `open_trade` and `close_trade` only write that file and are not modelled.
- Logging and text formatting are not modelled: log lines, the percentage strings of `get_stats`, the failure text and the certificate's box layout. The model keeps the numbers these strings print.
- The wall clock becomes a `now` parameter. `days_elapsed` in `get_stats`, the certificate's passing time and the node id are environment values and are not modelled.
- Float arithmetic is modelled as exact reals, so rounding of binary floats (and `round` in the server) is not modelled.
- Challenge.SimulatedChallenge.GetStats requires a positive initial balance and a non-zero target. The source raises a division error when either is zero.
- Challenge.SimulatedChallenge.GenerateCertificate requires a non-zero target for a passed challenge. The source computes the statistics for the certificate and raises a division error when the target is zero.
- Challenge.SimulatedChallenge.CheckDrawdown and the other engine methods require a positive initial balance. With a zero balance the source would divide by zero. A negative initial balance divides without error in the source, but the model excludes it.
- Challenge.SimulatedChallenge.GetStats does not state that the open-trade count is at most the ledger size.
- The preset configurations, `main` and the other distribution files (entropy collector, trader, free-challenge runner) are not part of this model.
- Server plumbing is not modelled: Flask routing, SQLite queries, the `X-Forwarded-For` lookup, the large-loss alert (a filter in SQL), the regime alerts, the per-symbol breakdown, the profit factor and the average win and loss. The model takes the rows that the queries return, in the order they return them.
- Concurrent requests against the shared rate-limit store are not modelled; `Allow` runs as one atomic step.
- ServerReports.ValidEaName accepts ASCII letters and digits only, where Python's `isalnum` also accepts other Unicode letters and digits.
- ServerReports.CompileRequestName inherits that restriction through `IsEaNameChar`: a name with a non-ASCII letter or digit is rejected, where the source would accept it.
- ServerReports.CompileRequestName takes the name as an optional string. A present `ea_name` that is not a string (null or a number) is not modelled; the source fails on it while checking the characters and replies with a server error.
- ServerReports.BacktestDays takes an integer or nothing; a non-integer `days` value in the request is not modelled.
