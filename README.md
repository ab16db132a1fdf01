# Grid trading backend — a Dafny model

This project models the backend core of a BTC/USDT grid-trading bot. It has five parts.

- **Strategies and the routes that manage them.** Strategies are created, edited, started, paused, stopped and deleted through the `/strategies` HTTP routes, each of which guards a small lifecycle: CREATED/PAUSED → RUNNING → PAUSED, RUNNING/PAUSED → STOPPED, delete only from CREATED or STOPPED. Statistics are computed over a strategy's trade history.
- **The grid engine.** It lays out `grid_count + 1` evenly spaced, integer-rounded price levels between a strategy's lower and upper price. It places a BUY on every level below the reference price and a SELL on every level at or above it, skipping levels closer to that price than 0.3 of a grid step. The reference price is the live price, or the middle of the band when no fresh price is at hand. When an order fills, the engine records a trade with the profit of a paired SELL and places the opposite order one grid step away while that stays inside the band. When a strategy stops, it cancels every PENDING order of the strategy.
- **The fill detector.** It keeps a table of pending checks, one per order. On every price update it re-evaluates each check:
  - A BUY is satisfied at or below its price, anything else at or above.
  - The time the condition started to hold is recorded, and cleared when the condition lapses.
  - After `confirm_seconds` the order counts as filled: its callback is invoked once and its check is removed.
- **The price interceptor.** It accepts only BTC futures price frames from the exchange websocket. It stores the latest price with its arrival time and hands every accepted price to its listeners in registration order. A listener that raises does not stop the others.
- **The request schemas.** Their field constraints (side, order type, positive prices, `grid_count` in 2..100, `max_orders` in 1..200) are checked before any handler runs.

Files:

| file | module | what it holds |
|---|---|---|
| `common.dfy` | `Common` | `Option`, the handler outcome `Response` (a value or an HTTP status), status codes |
| `schemas.dfy` | `Schemas` | request bodies, their validity predicates and validation |
| `models.dfy` | `Models` | the `strategies`, `orders` and `trade_history` rows; the `Database` class (three maps and id counters) |
| `fill_checker.dfy` | `FillChecker` | the sweep functions and lemmas; the `OrderFillChecker` class |
| `price_interceptor.dfy` | `PriceInterceptor` | decoded JSON frames, `float()` on JSON values, the frame filter; the `PriceInterceptor` class |
| `grid_executor.dfy` | `GridExecutor` | levels, placement plan, fill rules, cancellation; the `GridStrategyExecutor` class |
| `strategy_routes.dfy` | `StrategyRoutes` | the route handlers over a `Database`, and the statistics |

Modelling conventions:

- Prices, quantities and times are `real`. `round(x, 0)` is rounding half to even, as Python does.
- The clock is a parameter `now`.
- Calling a callback or a listener is an effect outside the model. A sweep returns the list of invocations it makes; the interceptor returns the list of listener calls, and a set of positions tells which of them raise.
- A callback or listener that raises is caught where it is called, so the rest of the sweep or of the notifications goes on. The model records every call and nothing in the state depends on whether a call raised.
- A Python dictionary that is iterated is a map plus the sequence of its keys in insertion order.
- An `HTTPException` is `HttpError(status)`.
- Outside facts are inputs:
  - whether the bot is running;
  - which levels fail to place, with the error text;
  - whether a database commit succeeds, and how it fails.

## Model

| member | source | states |
|---|---|---|
| Schemas.ValidateOrder | backend/schemas.py:7-12 | an order body is accepted iff `side` is present and exactly BUY or SELL, `qty` is present, and `order_type` is absent or exactly LIMIT or MARKET; acceptance keeps the fields and defaults `order_type` to LIMIT; otherwise 422 |
| Schemas.ValidateStrategyCreate | backend/schemas.py:40-50 | a creation body is accepted iff name (1..100 chars), both prices and the investment (> 0) and `grid_count` (2..100) are present and in range, and `max_orders` is absent or in 1..200; defaults are BTCUSDT and 50; every field is carried over; otherwise 422 |
| Schemas.UpdateBoundsMatchCreate | backend/schemas.py:58-67 | an update sending every field of a creation body is valid exactly when that creation body is (same bounds, field by field) |
| Models.Database.InsertStrategy | backend/models.py:7-36 | a strategy row is stored under the next id, which was free; nothing else changes |
| Models.Database.InsertOrder | backend/models.py:43-63 | an order row is stored under the next id, which was free; nothing else changes |
| Models.Database.InsertTrade | backend/models.py:68-81 | a trade row is stored under the next id, which was free; nothing else changes |
| FillChecker.Upper | backend/services/fill_checker.py:42 | the upper-cased side has the same length, each ASCII letter raised |
| FillChecker.FillsIff | backend/services/fill_checker.py:65-110 | an evaluation fills iff the price condition holds and `now` minus the (possibly just started) timer is at least `confirm_seconds`; the timer is cleared when the condition fails, set to `now` when it first holds, kept otherwise |
| FillChecker.TimerMarksUnbrokenRun | backend/services/fill_checker.py:70-110 | over any series of price updates, a running timer equals the time of an update from which the condition held at every update since |
| FillChecker.FillNeedsSustainedCondition | backend/services/fill_checker.py:70-101 | an order fills only after its condition held at every update of a run that began at least `confirm_seconds` earlier |
| FillChecker.TimerStartsAtFirstTick | backend/services/fill_checker.py:72-73 | while the condition holds at every update, the timer stays at the first of them |
| FillChecker.SustainedConditionFills | backend/services/fill_checker.py:70-101 | with the condition held throughout, the order fills at an update iff it lies `confirm_seconds` or more after the first one |
| FillChecker.FilledKeysMembers | backend/services/fill_checker.py:80-101 | the collected `filled_orders` are exactly the swept keys whose evaluation fills |
| FillChecker.InvocationsSound | backend/services/fill_checker.py:80-99 | every callback invocation of a sweep is for a filled key with that callback, and hands over the order id, `filled`, the current and order prices, a duration of at least `confirm_seconds` and the fill time |
| FillChecker.InvocationsComplete | backend/services/fill_checker.py:95-97 | every filled key that has a callback gets an invocation |
| FillChecker.InvocationsOncePerKey | backend/services/fill_checker.py:60-101 | no callback is invoked twice for the same key in one sweep |
| FillChecker.Swept | backend/services/fill_checker.py:60-114 | after a sweep the table holds exactly the keys that did not fill |
| FillChecker.EvaluateEntry | backend/services/fill_checker.py:61-110 | one entry's evaluation: the entry advances by the timer rule, the fill flag is the fill rule, and the invocation is made iff it filled with a callback |
| FillChecker.SweepOne | backend/services/fill_checker.py:60-110 | one turn of the sweep loop: the sweep state for the first `i` keys becomes the state for `i + 1` |
| FillChecker.EvaluateAll | backend/services/fill_checker.py:58-110 | the sweep loop advances every entry and adds or removes none; the collected keys are exactly the filled ones; the invocations follow the key order |
| FillChecker.AdvancedMinusFilled | backend/services/fill_checker.py:112-114 | deleting the filled keys from the advanced table gives the swept table |
| FillChecker.RemoveOne | backend/services/fill_checker.py:114 | one deletion keeps table and key order in step, without repeated keys |
| FillChecker.RemoveFilled | backend/services/fill_checker.py:112-114 | the deletion loop removes exactly the filled keys, keeping the insertion order of the rest |
| FillChecker.OrderFillChecker.constructor | backend/services/fill_checker.py:11-15 | no price, no update time, an empty table |
| FillChecker.OrderFillChecker.UpdatePrice | backend/services/fill_checker.py:17-28 | the price and its time are stored, then the table is swept at that price |
| FillChecker.OrderFillChecker.StartMonitoring | backend/services/fill_checker.py:30-47 | inserts or overwrites exactly one entry (side upper-cased, timer unset); a new key goes last, an existing one keeps its place; nothing else changes |
| FillChecker.OrderFillChecker.CheckAllPendingOrders | backend/services/fill_checker.py:52-114 | without a price nothing changes and nothing is invoked; otherwise the table becomes the swept table, the filled keys leave the key order, and the invocations are those of the sweep in insertion order |
| FillChecker.OrderFillChecker.StopMonitoring | backend/services/fill_checker.py:116-120 | removes the key if monitored, otherwise changes nothing (so a repeated call changes nothing) |
| FillChecker.OrderFillChecker.GetMonitoringOrders | backend/services/fill_checker.py:122-124 | exactly the keys of the table, each once |
| PriceInterceptor.ParseUnsigned | backend/services/price_interceptor.py:47 | an unsigned decimal never converts to a negative number |
| PriceInterceptor.ParseFloatReadsIntegers | backend/services/price_interceptor.py:47 | a decimal integer, with or without a sign, converts to its value |
| PriceInterceptor.ParseUnsignedReadsDecimal | backend/services/price_interceptor.py:47 | digits, a point and digits convert to whole part plus fraction |
| PriceInterceptor.ParseFloatReadsDecimals | backend/services/price_interceptor.py:47 | a number written as `whole.frac` converts to `whole + frac / 10^digits` |
| PriceInterceptor.ParseFloatNeedsADigit | backend/services/price_interceptor.py:47 | text with no digit never converts |
| PriceInterceptor.ExtractPrice | backend/services/price_interceptor.py:37-47 | a frame yields a price iff it is a JSON object with `biz` "futures", `pairCode` "btc" and an object `data` holding `p`, and `p` converts; the price is that conversion |
| PriceInterceptor.OtherFramesRejected | backend/services/price_interceptor.py:41-42 | a malformed frame, or one for another market or pair, yields no price |
| PriceInterceptor.PriceFramesAccepted | backend/services/price_interceptor.py:41-47 | a BTC futures frame whose `p` is a JSON number or a decimal string yields that value |
| PriceInterceptor.PriceInterceptor.constructor | backend/services/price_interceptor.py:13-16 | no price, no time, no listeners |
| PriceInterceptor.PriceInterceptor.AddListener | backend/services/price_interceptor.py:19-21 | the listener is appended after all earlier ones; the price is untouched |
| PriceInterceptor.PriceInterceptor.NotifyListeners | backend/services/price_interceptor.py:23-29 | every listener is called once with the price, in registration order, whether or not earlier calls raised |
| PriceInterceptor.PriceInterceptor.HandleWebsocketMessage | backend/services/price_interceptor.py:31-57 | an accepted frame stores its price and the time and notifies every listener in order; any other frame changes nothing and notifies nobody |
| PriceInterceptor.PriceInterceptor.GetCurrentPrice | backend/services/price_interceptor.py:59-61 | the stored price, absent exactly while no update time is stored |
| PriceInterceptor.PriceInterceptor.GetAge | backend/services/price_interceptor.py:63-67 | `now` minus the update time when one is stored (and non-zero), otherwise none |
| GridExecutor.RoundHalfEven | backend/services/grid_strategy_executor.py:49 | `round(x, 0)`: within half a unit of `x`, and even on a tie |
| GridExecutor.RoundHalfEvenOfInteger | backend/services/grid_strategy_executor.py:49 | rounding leaves an integer price unchanged |
| GridExecutor.RoundHalfEvenMonotone | backend/services/grid_strategy_executor.py:49 | rounding preserves order |
| GridExecutor.LevelsUpToIndex | backend/services/grid_strategy_executor.py:46-49 | level `i` is `lower + i·(upper − lower)/grid_count`, rounded |
| GridExecutor.CalculateGridLevels | backend/services/grid_strategy_executor.py:26-51 | the loop builds exactly the grid: `grid_count + 1` rounded levels, level `i` from its exact price |
| GridExecutor.GridLevelsEnds | backend/services/grid_strategy_executor.py:43-49 | the grid has `grid_count + 1` levels, running from rounded lower to rounded upper price |
| GridExecutor.GridLevelsNearExact | backend/services/grid_strategy_executor.py:43-49 | every level lies within half a unit of its exact price |
| GridExecutor.ExactLevelMonotone | backend/services/grid_strategy_executor.py:47 | exact level prices grow with the index when upper ≥ lower |
| GridExecutor.GridLevelsSorted | backend/services/grid_strategy_executor.py:43-51 | the levels never decrease when upper ≥ lower |
| GridExecutor.QtyPerGrid | backend/services/grid_strategy_executor.py:53-69 | the quantity is the investment per grid, whatever the price |
| GridExecutor.ReferencePrice | backend/services/grid_strategy_executor.py:97-103 | the mid price when the live price is missing or 0, or older than 30 s; otherwise the live price |
| GridExecutor.PlanSound | backend/services/grid_strategy_executor.py:119-133 | every placement is on a level not within 0.3 steps of the reference, at the level's price, BUY iff below the reference |
| GridExecutor.PlanComplete | backend/services/grid_strategy_executor.py:119-133 | every level not too close to the reference gets its placement |
| GridExecutor.PlanIncreasing | backend/services/grid_strategy_executor.py:119 | placements follow level order, so no level is placed twice |
| GridExecutor.PlanBuysBeforeSells | backend/services/grid_strategy_executor.py:119-133 | on a non-decreasing grid, no BUY is placed after a SELL |
| GridExecutor.PlanAt | backend/services/grid_strategy_executor.py:119-133 | a placed level comes right after the placements of the levels before it |
| GridExecutor.RegisterFillMonitor | backend/services/grid_strategy_executor.py:225-238 | the order is monitored under (side, price, id) with its side kept upper-case and a callback naming the order and its strategy; the key goes last in the sweep order unless already monitored; nothing else in the table changes |
| GridExecutor.PlacedOrder | backend/services/grid_strategy_executor.py:136-168 | a generated order is an entry LIMIT order of the strategy at the level's price and side, with grid level `i` and the investment as quantity; PENDING, or FAILED with the error text when the running bot failed to place it |
| GridExecutor.RegisteredKeys | backend/services/grid_strategy_executor.py:170-172 | start-up adds monitors exactly for the generated orders still PENDING |
| GridExecutor.RegisteredChecks | backend/services/grid_strategy_executor.py:170-172 | each PENDING generated order is monitored with its own check |
| GridExecutor.RegisteredKeepsOthers | backend/services/grid_strategy_executor.py:170-172 | monitors of other orders are left as they were |
| GridExecutor.NewMonitorKeys | backend/services/grid_strategy_executor.py:170-172 | the new monitors belong to the new order ids and follow placement order |
| GridExecutor.RegisteredKeysAppended | backend/services/grid_strategy_executor.py:170-172 | when no existing monitor belongs to a new order, start-up appends the new monitors after the existing ones, in placement order, so later sweeps visit them last |
| GridExecutor.CreatedEvents | backend/services/grid_strategy_executor.py:185-195 | one `order_created` broadcast per generated order |
| GridExecutor.CreatedEventsAnnounce | backend/services/grid_strategy_executor.py:185-195 | broadcast `k` announces the `k`-th generated order: its id, side, price, quantity and status |
| GridExecutor.PlacedRowsExact | backend/services/grid_strategy_executor.py:136-148 | start-up adds consecutive fresh ids, each holding its generated order, and keeps every earlier row |
| GridExecutor.PlaceOrder | backend/services/grid_strategy_executor.py:136-172 | one placement writes the generated row under the next id and monitors it iff it stayed PENDING, its key going last; the other counters and the stored price are unchanged |
| GridExecutor.PlaceNext | backend/services/grid_strategy_executor.py:136-195 | one placement extends the written rows, the monitors, their key order and the broadcasts by that placement |
| GridExecutor.PlaceLevel | backend/services/grid_strategy_executor.py:119-195 | one turn of the start-up loop: a level too close is skipped, any other is placed; strategies, trades and their counters are untouched |
| GridExecutor.PlaceGridOrders | backend/services/grid_strategy_executor.py:117-195 | the start-up loop writes, monitors (in placement order) and announces exactly the planned placements under consecutive fresh ids; strategies, trades and the stored price are untouched |
| GridExecutor.ShiftLevelAsWrittenDropsLevelZero | backend/services/grid_strategy_executor.py:305 | as written, the replacement of an order on level 0 gets no level at all (the finding below) |
| GridExecutor.ShiftLevel | backend/services/grid_strategy_executor.py:305 | the shifted level is present iff the filled order had one, and differs from it by the shift |
| GridExecutor.ShiftLevelInverse | backend/services/grid_strategy_executor.py:336 | shifting up and then down gives the level back |
| GridExecutor.FillProfit | backend/services/grid_strategy_executor.py:273-279 | the profit is non-zero only for a SELL paired with an existing order, and for a SELL paired (by a non-zero id) with an existing order it is (sell − buy price) × quantity |
| GridExecutor.Replenishment | backend/services/grid_strategy_executor.py:292-337 | a BUY fill is followed by a PENDING SELL one step higher, paired with it, same quantity, not an entry, iff that stays ≤ upper; a SELL fill by an entry BUY one step lower with the investment as quantity iff that stays ≥ lower |
| GridExecutor.RoundTripProfit | backend/services/grid_strategy_executor.py:273-337 | a BUY that fills and whose SELL fills books step × quantity, and the SELL's replacement is a BUY back at the original price and level |
| GridExecutor.PendingOrderIdsExact | backend/services/grid_strategy_executor.py:385-388 | the query lists exactly the PENDING orders of the strategy, each once |
| GridExecutor.CancelPending | backend/services/grid_strategy_executor.py:391-398 | after stopping, no order of the strategy is PENDING, the same ids exist, and every order that was not a PENDING order of the strategy is unchanged |
| GridExecutor.CancelAllPending | backend/services/grid_strategy_executor.py:385-398 | cancelling the listed ids is cancelling every PENDING order of the strategy, stops exactly their monitors, and their count is the number of such orders |
| GridExecutor.CancelOrder | backend/services/grid_strategy_executor.py:393-397 | one order stops being monitored, its key leaving the sweep order, and becomes CANCELLED; nothing else changes |
| GridExecutor.CancelNext | backend/services/grid_strategy_executor.py:391-397 | one turn of the cancelling loop extends the cancelled orders, the stopped monitors and the shortened key order by the next listed order |
| GridExecutor.CancelListed | backend/services/grid_strategy_executor.py:391-398 | the cancelling loop cancels exactly the listed orders and stops exactly their monitors; the remaining keys keep their order |
| GridExecutor.CancelPendingOrders | backend/services/grid_strategy_executor.py:384-398 | every PENDING order of the strategy becomes CANCELLED and unmonitored, the rest stay and the remaining monitors keep their order; the count is their number |
| GridExecutor.RecordFill | backend/services/grid_strategy_executor.py:261-290 | the order becomes FILLED, a trade is recorded at the fill price with the fill profit, and the strategy's trade count grows by 1 and its profit by that profit |
| GridExecutor.Replenish | backend/services/grid_strategy_executor.py:292-350 | the replacement order, when there is one, is written under the next id and monitored with its key going last; otherwise nothing changes |
| GridExecutor.GridStrategyExecutor.constructor | backend/services/grid_strategy_executor.py:23-24 | no active grids |
| GridExecutor.GridStrategyExecutor.StartStrategy | backend/services/grid_strategy_executor.py:71-216 | a missing or non-RUNNING strategy is refused with nothing changed; otherwise the planned orders are written, monitored in placement order and announced, a `strategy_started` broadcast carries their count, and the grid is recorded as active with its levels and reference price |
| GridExecutor.GridStrategyExecutor.OnOrderFilled | backend/services/grid_strategy_executor.py:240-370 | with a missing order or strategy, or a strategy not RUNNING, nothing changes; otherwise the order is FILLED, one trade is added, the trade count grows by 1, the replacement order is written and monitored (its key last) when it stays in the band, and one `order_filled` broadcast is made |
| GridExecutor.GridStrategyExecutor.StopStrategy | backend/services/grid_strategy_executor.py:372-415 | every PENDING order of the strategy stops being monitored, the other monitors keep their order, and the grid stops being active; on commit its PENDING orders become CANCELLED and their count is returned; on a failed commit the orders are rolled back and failure is reported |
| GridExecutor.GridStrategyExecutor.GetStrategyStatus | backend/services/grid_strategy_executor.py:417-419 | the recorded state of the grid iff it is active |
| StrategyRoutes.InsertByCreated | backend/routes/strategies.py:33 | insertion adds exactly the row to the list (as a multiset) |
| StrategyRoutes.InsertKeepsOrder | backend/routes/strategies.py:33 | insertion keeps a newest-first list newest first |
| StrategyRoutes.SortNewestFirst | backend/routes/strategies.py:33 | the sort is a permutation of its input |
| StrategyRoutes.SortIsNewestFirst | backend/routes/strategies.py:33 | the sorted rows are newest first by creation time |
| StrategyRoutes.MatchingExact | backend/routes/strategies.py:30-32 | the filtered query holds every stored row passing the filter and nothing else, by ascending id |
| StrategyRoutes.GetStrategiesExact | backend/routes/strategies.py:22-34 | the listing holds each row passing the status filter exactly once and nothing else, newest first |
| StrategyRoutes.UnfilteredListsAll | backend/routes/strategies.py:31 | with no filter, or an empty one, every strategy is listed |
| StrategyRoutes.GetStrategy | backend/routes/strategies.py:84-92 | the stored row, or 404 iff there is none |
| StrategyRoutes.CreateStrategy | backend/routes/strategies.py:37-81 | 400 with nothing stored iff upper ≤ lower or the grid step is below 1; otherwise a new GRID strategy in status CREATED is stored under a fresh id with the request's fields, no profit, no trades and the creation time |
| StrategyRoutes.CreatedGridStep | backend/routes/strategies.py:53-54 | an accepted strategy's first two exact levels are at least 1 apart |
| StrategyRoutes.Patched | backend/routes/strategies.py:114-126 | an optional field keeps its value when not sent, is cleared by an explicit null, takes a sent value |
| StrategyRoutes.ApplyUpdate | backend/routes/strategies.py:114-126 | exactly the sent fields take their new values; every other field is unchanged |
| StrategyRoutes.EmptyUpdateKeepsRow | backend/routes/strategies.py:114-126 | an update that sends nothing leaves the row unchanged |
| StrategyRoutes.UpdateStrategy | backend/routes/strategies.py:95-131 | 404 for a missing strategy; 400 with nothing changed unless it is CREATED or PAUSED and the merged band has upper > lower; otherwise the row is updated with exactly the sent fields and nothing else changes |
| StrategyRoutes.DeleteStrategy | backend/routes/strategies.py:134-155 | 404 for a missing strategy; 400 with nothing changed unless it is CREATED or STOPPED; otherwise the strategy, all its orders and all its trades are gone and every other row is unchanged |
| StrategyRoutes.StartStrategy | backend/routes/strategies.py:158-194 | 404 for a missing strategy; 400 with nothing changed unless it is CREATED or PAUSED; otherwise it becomes RUNNING with its start time set, nothing else changing |
| StrategyRoutes.PauseStrategy | backend/routes/strategies.py:197-217 | 404 for a missing strategy; 400 with nothing changed unless it is RUNNING; otherwise it becomes PAUSED, nothing else changing |
| StrategyRoutes.CancelledCount | backend/routes/strategies.py:260 | the engine's cancelled count, or 0 when the engine reported failure |
| StrategyRoutes.StopStrategy | backend/routes/strategies.py:220-261 | 404 for a missing strategy; 400 with nothing changed unless it is RUNNING or PAUSED; otherwise the engine cancels the pending orders first (the other monitors keep their order, no id counter moves), then the strategy becomes STOPPED with its stop time; a locked database gives 503 and any other database error 500, with the strategy row unchanged |
| StrategyRoutes.StoppedIsFinal | backend/routes/strategies.py:108-229 | a STOPPED strategy fails the start, pause and stop guards and the edit guard, and passes the delete guard |
| StrategyRoutes.RunningIsLocked | backend/routes/strategies.py:108-143 | a RUNNING strategy can be neither edited nor deleted |
| StrategyRoutes.TradeProfitsExact | backend/routes/strategies.py:328-329 | the trade query yields one profit per trade of the strategy: as many profits as trades, each profit as often as trades booked it, and none exactly when the strategy has no trade |
| StrategyRoutes.TradeProfitsCount | backend/routes/strategies.py:328 | the query yields as many profits as the strategy has trades |
| StrategyRoutes.TradeProfitsMultiplicity | backend/routes/strategies.py:328 | a profit occurs in the query as often as trades of the strategy booked it |
| StrategyRoutes.NonZero | backend/routes/strategies.py:342 | the kept profits are the non-zero ones, each as often as it occurs |
| StrategyRoutes.Wins | backend/routes/strategies.py:343 | the winning profits are every positive profit, as often as it occurs, and nothing else |
| StrategyRoutes.Losses | backend/routes/strategies.py:344 | the losing profits are every negative profit, as often as it occurs, and nothing else |
| StrategyRoutes.WinsIgnoreZeros | backend/routes/strategies.py:342-343 | counting wins after dropping the zero profits gives the number of positive profits of all trades |
| StrategyRoutes.LossesIgnoreZeros | backend/routes/strategies.py:342-344 | counting losses after dropping the zero profits gives the number of negative profits of all trades |
| StrategyRoutes.Max | backend/routes/strategies.py:358 | the largest profit is one of them and bounds all from above |
| StrategyRoutes.Min | backend/routes/strategies.py:359 | the largest loss is one of the profits and bounds all from below |
| StrategyRoutes.GetStrategyStats | backend/routes/strategies.py:319-359 | 404 iff the strategy is missing; otherwise the statistics of the strategy row over the profits of exactly its trades |
| StrategyRoutes.ComputeStats | backend/routes/strategies.py:329-359 | with trades, the totals come from the strategy row; the win and lose counts are the numbers of positive and negative profits, repeats included; the max profit and max loss are profits that bound every non-zero profit; with no non-zero profit the rate, average and extremes are 0 |
| StrategyRoutes.NoTradesAllZero | backend/routes/strategies.py:329-340 | a strategy without trades has all-zero statistics |
| StrategyRoutes.WinsAndLossesCover | backend/routes/strategies.py:342-344 | among non-zero profits, wins and losses together count them all |
| StrategyRoutes.Percentage | backend/routes/strategies.py:356 | a share of a positive whole, as a percentage, lies in [0, 100] |
| StrategyRoutes.StatsBounds | backend/routes/strategies.py:342-359 | with trades, win + lose counts equal the number of non-zero profits, the win rate is in [0, 100], the max profit is at least the max loss, and the totals come from the strategy row |
| StrategyRoutes.ZeroProfitsIgnored | backend/routes/strategies.py:342 | a zero-profit trade changes none of the win/loss figures |

## Left out

- Floating point: prices, quantities, times and percentages are exact reals, so IEEE rounding, overflow and the float spelling of the monitor key are not modelled.
- Integer-rounded levels: `round(x, 0)` returns a float in the source; the model uses the integer it equals.
- Wall-clock time: it is the parameter `now`. `datetime.utcnow()` and `time.time()` are the same clock in the model.
- Concurrency:
  - `asyncio.create_task`, the background task that the start route schedules, and the race between a fill callback and a stop are not modelled.
  - The start route does not itself run the engine's start routine. Both are modelled and can be composed by a caller.
- Placing orders with the exchange (the browser bot) is outside the model. The bot's effect on start-up is an input: whether it runs, and which levels fail with which text. On replenishment a placement failure is only logged, so it has no effect on state.
- The exchange order id written after a successful placement is not modelled.
- Broadcasts to clients are returned as a list of events, not sent.
- Console logging is dropped. This includes the once-a-second progress line of the fill detector.
- Exceptions other than the modelled ones are not modelled: the catch-all rollbacks of the start and fill routines, and a database error in the stop routine other than the commit.
- Commits: the engine's stop commit is the input `commitOk`. The route's commit is the input `Commit`, and 503 versus 500 comes from whether the error says "database is locked".
- The background `execute_strategy` task's failure message is not modelled.
- Row metadata:
  - `updated_at` of strategies, and `updated_at` and `created_at` of orders and trades, are not modelled.
  - The trade's `filled_at` is not modelled.
  - Row ids are never reused.
- Query order:
  - The ORM queries are modelled as scans by ascending id.
  - The order among strategies with equal `created_at` is left open by the source; the model settles it by id.
- Callbacks and listeners are handles. The model does not capture a callback that changes the fill detector while a sweep is running.
- StrategyRoutes.UpdateStrategy: an explicit JSON null on a non-nullable field (name, prices, counts) is treated as "not sent". In the source it is assigned, and the band check or the commit then fails with a server error.
- The `GET /strategies/{id}/orders` and `GET /strategies/{id}/trades` routes are thin filtered queries with no rule of their own.
- FillChecker.Upper: upper-cases ASCII letters only, while `str.upper()` also maps other alphabets.
- PriceInterceptor.ParseFloat: reads only an optional sign and a plain decimal (`12`, `-3.5`, `.5`, `7.`). Python's `float()` also accepts:
  - surrounding whitespace;
  - exponents;
  - digit-group underscores;
  - `inf` and `nan`;
  - decimal digits of other scripts than ASCII.

  Those strings are rejected here.
- PriceInterceptor.ToFloat: a JSON number is the real it denotes; JSON decoding itself (`json.loads`) is not modelled, and a frame arrives decoded or as `Malformed`.
- GridExecutor.Replenishment: the replacement's grid level is the corrected `ShiftLevel` of the finding below, not the truthiness test at grid_strategy_executor.py:305 and 336. For a filled order on level 0 the model stores level 1 (BUY filled) or -1 (SELL filled) where the program stores no level.
- GridExecutor.Replenish: writes the replacement of `Replenishment`, so it carries the same corrected level.
- GridExecutor.RoundTripProfit: "back on the original level" holds of the corrected shift only; as written, a round trip from level 0 ends with no level.
- GridExecutor.RegisterFillMonitor: the callback captures the order id and the strategy id as values at registration. In the program the callback reads `order.id` and `strategy.id` from ORM instances only when the fill fires, after their session has committed and closed (grid_strategy_executor.py:182, 223, 352, 370). The instance expiry on commit and the detached-instance error that SQLAlchemy may raise then are not modelled. Such an error would be caught by the fill detector and would leave the order PENDING and unmonitored, with no trade and no replacement.
- GridExecutor.GridStrategyExecutor.OnOrderFilled: writes the replacement of `Replenishment`, so it carries the same corrected level. The fill result always carries the current price, so the trade price is the fill price, never the order-price fallback.

## Findings

| source | as written | input that shows it | evidently intended | confidence | as-written member | corrected member |
|---|---|---|---|---|---|---|
| backend/services/grid_strategy_executor.py:305 | the replacement order's level is `grid_level + 1 if grid_level else None` (and `- 1` at line 336), so a level of 0 counts as missing | a BUY placed on the lowest level (`grid_level` 0) fills; its SELL replacement gets no grid level instead of level 1 | shift any present level by one; only a missing level stays missing | high, not executed | GridExecutor.ShiftLevelAsWritten (ShiftLevelAsWrittenDropsLevelZero) | GridExecutor.ShiftLevel (ShiftLevelInverse, RoundTripProfit) |
