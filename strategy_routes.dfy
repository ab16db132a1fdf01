/**
 * The `/strategies` HTTP routes: creating, reading, editing and deleting
 * strategies, the lifecycle transitions (start, pause, stop) and the
 * statistics over a strategy's trade history. Each handler works on the
 * database directly; an `HTTPException` is a `HttpError` response.
 */
module StrategyRoutes {
  import opened Common
  import opened Schemas
  import opened Models
  import FillChecker
  import GridExecutor

  // ------------------------------------------------------------ listing

  /** The optional `status` filter: an empty or missing one keeps every row; otherwise it is upper-cased. */
  predicate MatchesFilter(s: Strategy, status: Option<string>) {
    status.None? || status.value == [] || StatusName(s.status) == FillChecker.Upper(status.value)
  }

  /** The rows with ids below `n` that pass the filter, by ascending id. */
  function Matching(strategies: map<int, Strategy>, status: Option<string>, n: int): (r: seq<Strategy>)
    decreases n
  {
    if n <= 1 then []
    else
      Matching(strategies, status, n - 1) +
      (if n - 1 in strategies && MatchesFilter(strategies[n - 1], status) then [strategies[n - 1]] else [])
  }

  /** Newest first. */
  ghost predicate NewestFirst(s: seq<Strategy>) {
    forall i, j :: 0 <= i < j < |s| ==> s[i].createdAt >= s[j].createdAt
  }

  /** Places a row into a newest-first list after every row at least as new. */
  function InsertByCreated(x: Strategy, sorted: seq<Strategy>): (r: seq<Strategy>)
    ensures multiset(r) == multiset(sorted) + multiset{x}
  {
    if sorted == [] then [x]
    else if sorted[0].createdAt >= x.createdAt then
      assert sorted == [sorted[0]] + sorted[1..];
      [sorted[0]] + InsertByCreated(x, sorted[1..])
    else
      [x] + sorted
  }

  /** Inserting a row no newer than a bound into rows no newer than it gives rows no newer than it. */
  lemma {:induction false} InsertBounded(x: Strategy, sorted: seq<Strategy>, bound: real)
    requires x.createdAt <= bound && forall i :: 0 <= i < |sorted| ==> sorted[i].createdAt <= bound
    ensures forall i :: 0 <= i < |InsertByCreated(x, sorted)| ==> InsertByCreated(x, sorted)[i].createdAt <= bound
  {
    if sorted != [] && sorted[0].createdAt >= x.createdAt {
      InsertBounded(x, sorted[1..], bound);
    }
  }

  /** Insertion keeps a newest-first list newest first. */
  lemma {:induction false} InsertKeepsOrder(x: Strategy, sorted: seq<Strategy>)
    requires NewestFirst(sorted)
    ensures NewestFirst(InsertByCreated(x, sorted))
  {
    if sorted != [] {
      var r := InsertByCreated(x, sorted);
      if sorted[0].createdAt >= x.createdAt {
        var rest := InsertByCreated(x, sorted[1..]);
        InsertKeepsOrder(x, sorted[1..]);
        InsertBounded(x, sorted[1..], sorted[0].createdAt);
        forall i, j | 0 <= i < j < |r| ensures r[i].createdAt >= r[j].createdAt {
          if i > 0 {
            assert r[i] == rest[i - 1] && r[j] == rest[j - 1];
          } else {
            assert r[j] == rest[j - 1];
          }
        }
      } else {
        forall i, j | 0 <= i < j < |r| ensures r[i].createdAt >= r[j].createdAt {
          if i > 0 {
            assert r[i] == sorted[i - 1] && r[j] == sorted[j - 1];
          } else {
            assert r[j] == sorted[j - 1];
          }
        }
      }
    }
  }

  /** `ORDER BY created_at DESC`. */
  function SortNewestFirst(s: seq<Strategy>): (r: seq<Strategy>)
    ensures multiset(r) == multiset(s)
  {
    if s == [] then []
    else
      assert s == [s[0]] + s[1..];
      InsertByCreated(s[0], SortNewestFirst(s[1..]))
  }

  /** The sort puts the newest rows first. */
  lemma {:induction false} SortIsNewestFirst(s: seq<Strategy>)
    ensures NewestFirst(SortNewestFirst(s))
  {
    if s != [] {
      SortIsNewestFirst(s[1..]);
      InsertKeepsOrder(s[0], SortNewestFirst(s[1..]));
    }
  }

  /** `GET /strategies`: the rows passing the filter, newest first. */
  function GetStrategies(strategies: map<int, Strategy>, nextId: int, status: Option<string>): seq<Strategy> {
    SortNewestFirst(Matching(strategies, status, nextId))
  }

  /** The filtered rows with ids below `n`: every matching row, nothing else, by strictly ascending id. */
  lemma {:induction false} MatchingExact(strategies: map<int, Strategy>, status: Option<string>, n: int)
    requires forall id :: id in strategies ==> strategies[id].id == id
    ensures forall id :: 1 <= id < n && id in strategies && MatchesFilter(strategies[id], status) ==>
      strategies[id] in Matching(strategies, status, n)
    ensures forall i :: 0 <= i < |Matching(strategies, status, n)| ==>
      var x := Matching(strategies, status, n)[i];
      1 <= x.id < n && x.id in strategies && strategies[x.id] == x && MatchesFilter(x, status)
    ensures forall i, j :: 0 <= i < j < |Matching(strategies, status, n)| ==>
      Matching(strategies, status, n)[i].id < Matching(strategies, status, n)[j].id
  {
    if n > 1 {
      MatchingExact(strategies, status, n - 1);
      var prev := Matching(strategies, status, n - 1);
      var m := Matching(strategies, status, n);
      forall i | 0 <= i < |prev| ensures m[i] == prev[i] {
      }
      forall id | 1 <= id < n && id in strategies && MatchesFilter(strategies[id], status)
        ensures strategies[id] in m
      {
        if id < n - 1 {
          var k :| 0 <= k < |prev| && prev[k] == strategies[id];
          assert m[k] == prev[k];
        } else {
          assert m[|m| - 1] == strategies[id];
        }
      }
    }
  }

  /** Elements of a sequence with strictly ascending ids occur once each. */
  lemma {:induction false} AscendingOnce(s: seq<Strategy>)
    requires forall i, j :: 0 <= i < j < |s| ==> s[i].id < s[j].id
    ensures forall x :: multiset(s)[x] <= 1
  {
    if s != [] {
      var init, last := s[..|s| - 1], s[|s| - 1];
      assert s == init + [last];
      AscendingOnce(init);
      assert last !in init by {
        forall k | 0 <= k < |init| ensures init[k] != last {
          assert init[k] == s[k];
        }
      }
    }
  }

  /**
   * The listing holds each row that passes the filter exactly once and
   * nothing else, newest first.
   */
  lemma GetStrategiesExact(strategies: map<int, Strategy>, nextId: int, status: Option<string>)
    requires forall id :: id in strategies ==> 1 <= id < nextId && strategies[id].id == id
    ensures forall id :: id in strategies && MatchesFilter(strategies[id], status) ==>
      strategies[id] in GetStrategies(strategies, nextId, status)
    ensures forall x :: x in GetStrategies(strategies, nextId, status) ==>
      x.id in strategies && strategies[x.id] == x && MatchesFilter(x, status)
    ensures forall x :: multiset(GetStrategies(strategies, nextId, status))[x] <= 1
    ensures NewestFirst(GetStrategies(strategies, nextId, status))
  {
    MatchingExact(strategies, status, nextId);
    var m := Matching(strategies, status, nextId);
    var r := GetStrategies(strategies, nextId, status);
    AscendingOnce(m);
    SortIsNewestFirst(m);
    assert multiset(r) == multiset(m);
    forall x | x in r ensures x.id in strategies && strategies[x.id] == x && MatchesFilter(x, status) {
      assert x in multiset(m);
      var k :| 0 <= k < |m| && m[k] == x;
    }
    forall id | id in strategies && MatchesFilter(strategies[id], status) ensures strategies[id] in r {
      assert strategies[id] in multiset(m);
    }
  }

  /** Without a filter the listing shows every strategy. */
  lemma UnfilteredListsAll(strategies: map<int, Strategy>, nextId: int, id: int)
    requires forall k :: k in strategies ==> 1 <= k < nextId && strategies[k].id == k
    requires id in strategies
    ensures strategies[id] in GetStrategies(strategies, nextId, None)
    ensures strategies[id] in GetStrategies(strategies, nextId, Some(""))
  {
    GetStrategiesExact(strategies, nextId, None);
    GetStrategiesExact(strategies, nextId, Some(""));
  }

  // --------------------------------------------------------- single rows

  /** `GET /strategies/{id}`. */
  function GetStrategy(strategies: map<int, Strategy>, strategyId: int): (r: Response<Strategy>)
    ensures r.Ok? <==> strategyId in strategies
    ensures r.Ok? ==> r.value == strategies[strategyId]
    ensures r.HttpError? ==> r.status == NotFound
  {
    if strategyId in strategies then Ok(strategies[strategyId]) else HttpError(NotFound)
  }

  /** The create-time checks: a band with upper above lower, and a grid step of at least 1. */
  predicate CreateAccepted(req: StrategyCreate)
    requires req.gridCount != 0
  {
    req.upperPrice > req.lowerPrice && (req.upperPrice - req.lowerPrice) / (req.gridCount as real) >= 1.0
  }

  /**
   * `POST /strategies`: refuses an inverted band or a grid step below 1
   * with 400; otherwise stores a new GRID strategy in status CREATED with no
   * profit and no trades yet.
   */
  method CreateStrategy(db: Database, req: StrategyCreate, now: real) returns (r: Response<Strategy>)
    requires db.Valid() && ValidStrategyCreate(req)
    modifies db
    ensures db.Valid()
    ensures r.HttpError? <==> !CreateAccepted(req)
    ensures r.HttpError? ==> r.status == BadRequest && unchanged(db)
    ensures r.Ok? ==>
      && r.value.id == old(db.nextStrategyId) && r.value.id !in old(db.strategies)
      && db.strategies == old(db.strategies)[r.value.id := r.value]
      && r.value.status == Created && r.value.kind == StrategyTypeGrid
      && r.value.name == req.name && r.value.symbol == req.symbol
      && r.value.upperPrice == req.upperPrice && r.value.lowerPrice == req.lowerPrice
      && r.value.gridCount == req.gridCount && r.value.investmentPerGrid == req.investmentPerGrid
      && r.value.stopLoss == req.stopLoss && r.value.takeProfit == req.takeProfit
      && r.value.maxOrders == req.maxOrders
      && r.value.totalProfit == 0.0 && r.value.totalTrades == 0
      && r.value.createdAt == now && r.value.startedAt.None? && r.value.stoppedAt.None?
    ensures r.Ok? ==> db.orders == old(db.orders) && db.trades == old(db.trades)
  {
    if req.upperPrice <= req.lowerPrice {
      return HttpError(BadRequest);
    }
    var gridStep := (req.upperPrice - req.lowerPrice) / (req.gridCount as real);
    if gridStep < 1.0 {
      return HttpError(BadRequest);
    }
    var row := Strategy(0, req.name, req.symbol, StrategyTypeGrid, Created, req.upperPrice, req.lowerPrice,
                        req.gridCount, req.investmentPerGrid, req.stopLoss, req.takeProfit, req.maxOrders,
                        0.0, 0, now, None, None);
    var id := db.InsertStrategy(row);
    r := Ok(db.strategies[id]);
  }

  /** A created strategy lays out a grid whose step is at least 1 wide before rounding. */
  lemma CreatedGridStep(req: StrategyCreate)
    requires ValidStrategyCreate(req) && CreateAccepted(req)
    ensures GridExecutor.ExactLevel(req.upperPrice, req.lowerPrice, req.gridCount, 1) -
            GridExecutor.ExactLevel(req.upperPrice, req.lowerPrice, req.gridCount, 0) >= 1.0
  {
  }

  // -------------------------------------------------------------- editing

  /** The value of an optional field after an update. */
  function Patched<T>(old_: Option<T>, p: Patch<T>): (r: Option<T>)
    ensures p.Keep? ==> r == old_
    ensures p.Clear? ==> r.None?
    ensures p.Put? ==> r == Some(p.value)
  {
    match p
    case Keep => old_
    case Clear => None
    case Put(v) => Some(v)
  }

  /** The row after assigning every field the update supplies. */
  function ApplyUpdate(s: Strategy, u: StrategyUpdate): (r: Strategy)
    ensures r.name == u.name.GetOr(s.name)
    ensures r.upperPrice == u.upperPrice.GetOr(s.upperPrice) && r.lowerPrice == u.lowerPrice.GetOr(s.lowerPrice)
    ensures r.gridCount == u.gridCount.GetOr(s.gridCount)
    ensures r.investmentPerGrid == u.investmentPerGrid.GetOr(s.investmentPerGrid)
    ensures r.maxOrders == u.maxOrders.GetOr(s.maxOrders)
    ensures r.stopLoss == Patched(s.stopLoss, u.stopLoss) && r.takeProfit == Patched(s.takeProfit, u.takeProfit)
    ensures r.(name := s.name, upperPrice := s.upperPrice, lowerPrice := s.lowerPrice, gridCount := s.gridCount,
               investmentPerGrid := s.investmentPerGrid, maxOrders := s.maxOrders, stopLoss := s.stopLoss,
               takeProfit := s.takeProfit) == s
  {
    s.(name := u.name.GetOr(s.name),
       upperPrice := u.upperPrice.GetOr(s.upperPrice),
       lowerPrice := u.lowerPrice.GetOr(s.lowerPrice),
       gridCount := u.gridCount.GetOr(s.gridCount),
       investmentPerGrid := u.investmentPerGrid.GetOr(s.investmentPerGrid),
       stopLoss := Patched(s.stopLoss, u.stopLoss),
       takeProfit := Patched(s.takeProfit, u.takeProfit),
       maxOrders := u.maxOrders.GetOr(s.maxOrders))
  }

  /** An update that sends nothing leaves the row as it is. */
  lemma EmptyUpdateKeepsRow(s: Strategy)
    ensures ApplyUpdate(s, StrategyUpdate(None, None, None, None, None, Keep, Keep, None)) == s
  {
  }

  /** Statuses in which a strategy may be edited. */
  predicate Editable(status: StrategyStatus) {
    status == Created || status == Paused
  }

  /**
   * `PUT /strategies/{id}`: 404 for a missing strategy, 400 unless it is
   * CREATED or PAUSED, 400 unless the band after the update (new bound if
   * sent, else the stored one) has upper above lower; otherwise exactly the
   * supplied fields change.
   */
  method UpdateStrategy(db: Database, strategyId: int, u: StrategyUpdate) returns (r: Response<Strategy>)
    requires db.Valid() && ValidStrategyUpdate(u)
    modifies db
    ensures db.Valid()
    ensures strategyId !in old(db.strategies) ==> r == HttpError(NotFound) && unchanged(db)
    ensures strategyId in old(db.strategies) ==>
      var s := old(db.strategies[strategyId]);
      && (!Editable(s.status) ==> r == HttpError(BadRequest) && unchanged(db))
      && (Editable(s.status) && u.upperPrice.GetOr(s.upperPrice) <= u.lowerPrice.GetOr(s.lowerPrice) ==>
            r == HttpError(BadRequest) && unchanged(db))
      && (Editable(s.status) && u.upperPrice.GetOr(s.upperPrice) > u.lowerPrice.GetOr(s.lowerPrice) ==>
            r == Ok(ApplyUpdate(s, u)) && db.strategies == old(db.strategies)[strategyId := ApplyUpdate(s, u)] &&
            db.orders == old(db.orders) && db.trades == old(db.trades) &&
            db.nextStrategyId == old(db.nextStrategyId))
  {
    if strategyId !in db.strategies {
      return HttpError(NotFound);
    }
    var s := db.strategies[strategyId];
    if !Editable(s.status) {
      return HttpError(BadRequest);
    }
    var upper := u.upperPrice.GetOr(s.upperPrice);
    var lower := u.lowerPrice.GetOr(s.lowerPrice);
    if upper <= lower {
      return HttpError(BadRequest);
    }
    var updated := ApplyUpdate(s, u);
    db.strategies := db.strategies[strategyId := updated];
    r := Ok(updated);
  }

  /** Statuses in which a strategy may be deleted. */
  predicate Deletable(status: StrategyStatus) {
    status == Created || status == Stopped
  }

  /**
   * `DELETE /strategies/{id}`: 404 for a missing strategy, 400 unless it is
   * CREATED or STOPPED; otherwise its trades, its orders and the strategy
   * itself are removed and every other row stays.
   */
  method DeleteStrategy(db: Database, strategyId: int) returns (r: Response<int>)
    requires db.Valid()
    modifies db
    ensures db.Valid()
    ensures strategyId !in old(db.strategies) ==> r == HttpError(NotFound) && unchanged(db)
    ensures strategyId in old(db.strategies) && !Deletable(old(db.strategies[strategyId]).status) ==>
      r == HttpError(BadRequest) && unchanged(db)
    ensures strategyId in old(db.strategies) && Deletable(old(db.strategies[strategyId]).status) ==>
      && r == Ok(strategyId)
      && db.strategies == old(db.strategies) - {strategyId}
      && (forall id :: id in db.trades <==> id in old(db.trades) && old(db.trades[id]).strategyId != strategyId)
      && (forall id :: id in db.trades ==> db.trades[id] == old(db.trades[id]))
      && (forall id :: id in db.orders <==> id in old(db.orders) && old(db.orders[id]).strategyId != Some(strategyId))
      && (forall id :: id in db.orders ==> db.orders[id] == old(db.orders[id]))
  {
    if strategyId !in db.strategies {
      return HttpError(NotFound);
    }
    var s := db.strategies[strategyId];
    if !Deletable(s.status) {
      return HttpError(BadRequest);
    }
    db.trades := map id | id in db.trades && db.trades[id].strategyId != strategyId :: db.trades[id];
    db.orders := map id | id in db.orders && db.orders[id].strategyId != Some(strategyId) :: db.orders[id];
    db.strategies := db.strategies - {strategyId};
    r := Ok(strategyId);
  }

  // ---------------------------------------------------------- lifecycle

  /** Statuses from which a strategy may be started. */
  predicate Startable(status: StrategyStatus) {
    status == Created || status == Paused
  }

  /**
   * `POST /strategies/{id}/start`: 404 for a missing strategy, 400 unless it
   * is CREATED or PAUSED; otherwise it becomes RUNNING with its start time
   * set. (The grid itself is started afterwards by the engine, in the
   * background.)
   */
  method StartStrategy(db: Database, strategyId: int, now: real) returns (r: Response<StrategyStatus>)
    requires db.Valid()
    modifies db
    ensures db.Valid()
    ensures strategyId !in old(db.strategies) ==> r == HttpError(NotFound) && unchanged(db)
    ensures strategyId in old(db.strategies) && !Startable(old(db.strategies[strategyId]).status) ==>
      r == HttpError(BadRequest) && unchanged(db)
    ensures strategyId in old(db.strategies) && Startable(old(db.strategies[strategyId]).status) ==>
      && r == Ok(Running)
      && db.strategies == old(db.strategies)[strategyId :=
           old(db.strategies[strategyId]).(status := Running, startedAt := Some(now))]
      && db.orders == old(db.orders) && db.trades == old(db.trades)
      && db.nextStrategyId == old(db.nextStrategyId)
  {
    if strategyId !in db.strategies {
      return HttpError(NotFound);
    }
    var s := db.strategies[strategyId];
    if !Startable(s.status) {
      return HttpError(BadRequest);
    }
    db.strategies := db.strategies[strategyId := s.(status := Running, startedAt := Some(now))];
    r := Ok(Running);
  }

  /**
   * `POST /strategies/{id}/pause`: 404 for a missing strategy, 400 unless it
   * is RUNNING; otherwise it becomes PAUSED.
   */
  method PauseStrategy(db: Database, strategyId: int) returns (r: Response<StrategyStatus>)
    requires db.Valid()
    modifies db
    ensures db.Valid()
    ensures strategyId !in old(db.strategies) ==> r == HttpError(NotFound) && unchanged(db)
    ensures strategyId in old(db.strategies) && old(db.strategies[strategyId]).status != Running ==>
      r == HttpError(BadRequest) && unchanged(db)
    ensures strategyId in old(db.strategies) && old(db.strategies[strategyId]).status == Running ==>
      && r == Ok(Paused)
      && db.strategies == old(db.strategies)[strategyId := old(db.strategies[strategyId]).(status := Paused)]
      && db.orders == old(db.orders) && db.trades == old(db.trades)
      && db.nextStrategyId == old(db.nextStrategyId)
  {
    if strategyId !in db.strategies {
      return HttpError(NotFound);
    }
    var s := db.strategies[strategyId];
    if s.status != Running {
      return HttpError(BadRequest);
    }
    db.strategies := db.strategies[strategyId := s.(status := Paused)];
    r := Ok(Paused);
  }

  /** Statuses from which a strategy may be stopped. */
  predicate Stoppable(status: StrategyStatus) {
    status == Running || status == Paused
  }

  /** How the commit of the status change ends. */
  datatype Commit = Committed | DatabaseLocked | OtherDatabaseError

  /** The reply of a successful stop: the new status and how many orders the engine cancelled. */
  datatype StopReply = StopReply(status: StrategyStatus, cancelledOrders: nat)

  /** The `cancelled_orders` of the reply: the engine's count, or 0 when the engine reported failure. */
  function CancelledCount(result: GridExecutor.StopResult): (n: nat)
    ensures result.StopFailed? ==> n == 0
    ensures result.StopSucceeded? ==> n == result.cancelledOrders
  {
    match result
    case StopSucceeded(n) => n
    case StopFailed => 0
  }

  /**
   * `POST /strategies/{id}/stop`: 404 for a missing strategy, 400 unless it
   * is RUNNING or PAUSED. Otherwise the engine first cancels the pending
   * orders (committing on its own), then the strategy becomes STOPPED with
   * its stop time set. A locked database makes the commit fail with 503,
   * any other database error with 500; the strategy row is then unchanged,
   * while what the engine did stays done.
   */
  method StopStrategy(db: Database, executor: GridExecutor.GridStrategyExecutor,
                      checker: FillChecker.OrderFillChecker<GridExecutor.MonitorKey, GridExecutor.FillCallback>,
                      strategyId: int, now: real, executorCommitOk: bool, commit: Commit)
    returns (r: Response<StopReply>)
    requires db.Valid() && checker.Valid()
    modifies db, executor, checker
    ensures db.Valid() && checker.Valid()
    ensures strategyId !in old(db.strategies) ==> r == HttpError(NotFound) && unchanged(db, executor, checker)
    ensures strategyId in old(db.strategies) && !Stoppable(old(db.strategies[strategyId]).status) ==>
      r == HttpError(BadRequest) && unchanged(db, executor, checker)
    ensures strategyId in old(db.strategies) && Stoppable(old(db.strategies[strategyId]).status) ==>
      && checker.pendingChecks == old(checker.pendingChecks) - GridExecutor.PendingKeys(old(db.orders), strategyId)
      && checker.keys == FillChecker.Without(old(checker.keys), GridExecutor.PendingKeys(old(db.orders), strategyId))
      && checker.currentPrice == old(checker.currentPrice) && checker.lastUpdateTime == old(checker.lastUpdateTime)
      && executor.activeStrategies == old(executor.activeStrategies) - {strategyId}
      && db.orders == (if executorCommitOk then GridExecutor.CancelPending(old(db.orders), strategyId) else old(db.orders))
      && db.trades == old(db.trades)
      && db.nextStrategyId == old(db.nextStrategyId) && db.nextOrderId == old(db.nextOrderId)
      && db.nextTradeId == old(db.nextTradeId)
      && (commit == Committed ==>
            && db.strategies == old(db.strategies)[strategyId :=
                 old(db.strategies[strategyId]).(status := Stopped, stoppedAt := Some(now))]
            && r == Ok(StopReply(Stopped,
                         if executorCommitOk then |GridExecutor.PendingSet(old(db.orders), strategyId)| else 0)))
      && (commit == DatabaseLocked ==> db.strategies == old(db.strategies) && r == HttpError(ServiceUnavailable))
      && (commit == OtherDatabaseError ==> db.strategies == old(db.strategies) && r == HttpError(InternalServerError))
  {
    if strategyId !in db.strategies {
      return HttpError(NotFound);
    }
    var s := db.strategies[strategyId];
    if !Stoppable(s.status) {
      return HttpError(BadRequest);
    }
    var result := executor.StopStrategy(db, checker, strategyId, executorCommitOk);
    match commit
    case Committed =>
      db.strategies := db.strategies[strategyId := s.(status := Stopped, stoppedAt := Some(now))];
      r := Ok(StopReply(Stopped, CancelledCount(result)));
    case DatabaseLocked =>
      r := HttpError(ServiceUnavailable);
    case OtherDatabaseError =>
      r := HttpError(InternalServerError);
  }

  /**
   * A STOPPED strategy is refused by the start, pause and stop guards and by
   * the edit guard; it can only be deleted.
   */
  lemma StoppedIsFinal()
    ensures !Startable(Stopped) && Stopped != Running && !Stoppable(Stopped)
    ensures !Editable(Stopped) && Deletable(Stopped)
  {
  }

  /** A RUNNING strategy can neither be edited nor deleted. */
  lemma RunningIsLocked()
    ensures !Editable(Running) && !Deletable(Running)
  {
  }

  // ---------------------------------------------------------- statistics

  /** The response of `GET /strategies/{id}/stats`. */
  datatype StrategyStats = StrategyStats(
    totalProfit: real,
    totalProfitPercent: real,
    totalTrades: int,
    winTrades: nat,
    loseTrades: nat,
    winRate: real,
    avgProfitPerTrade: real,
    maxProfit: real,
    maxLoss: real)

  /** The profits of the trades of a strategy with ids below `n`, by ascending id. */
  function TradeProfits(trades: map<int, Trade>, strategyId: int, n: int): seq<real>
    decreases n
  {
    if n <= 1 then []
    else
      TradeProfits(trades, strategyId, n - 1) +
      (if n - 1 in trades && trades[n - 1].strategyId == strategyId then [trades[n - 1].profit] else [])
  }

  /** The ids below `n` of the trades of a strategy. */
  function TradeIds(trades: map<int, Trade>, strategyId: int, n: int): set<int> {
    set id | 1 <= id < n && id in trades && trades[id].strategyId == strategyId
  }

  /** The ids below `n` of the trades of a strategy that booked profit `p`. */
  function TradeIdsWithProfit(trades: map<int, Trade>, strategyId: int, n: int, p: real): set<int> {
    set id | 1 <= id < n && id in trades && trades[id].strategyId == strategyId && trades[id].profit == p
  }

  /** The query yields one profit per trade of the strategy. */
  lemma {:induction false} TradeProfitsCount(trades: map<int, Trade>, strategyId: int, n: int)
    ensures |TradeProfits(trades, strategyId, n)| == |TradeIds(trades, strategyId, n)|
  {
    if n > 1 {
      TradeProfitsCount(trades, strategyId, n - 1);
      if n - 1 in trades && trades[n - 1].strategyId == strategyId {
        assert TradeIds(trades, strategyId, n) == TradeIds(trades, strategyId, n - 1) + {n - 1};
      } else {
        assert TradeIds(trades, strategyId, n) == TradeIds(trades, strategyId, n - 1);
      }
    }
  }

  /** Going from `n - 1` to `n` adds the trade `n - 1` when it is one of the strategy's with profit `p`. */
  lemma TradeIdsWithProfitStep(trades: map<int, Trade>, strategyId: int, n: int, p: real)
    requires n > 1
    ensures TradeIdsWithProfit(trades, strategyId, n, p) ==
      TradeIdsWithProfit(trades, strategyId, n - 1, p) +
      (if n - 1 in trades && trades[n - 1].strategyId == strategyId && trades[n - 1].profit == p then {n - 1} else {})
  {
  }

  /** A profit occurs in the query as often as trades of the strategy booked it. */
  lemma {:induction false} TradeProfitsMultiplicity(trades: map<int, Trade>, strategyId: int, n: int, p: real)
    ensures multiset(TradeProfits(trades, strategyId, n))[p] == |TradeIdsWithProfit(trades, strategyId, n, p)|
  {
    if n > 1 {
      TradeProfitsMultiplicity(trades, strategyId, n - 1, p);
      TradeIdsWithProfitStep(trades, strategyId, n, p);
    }
  }

  /**
   * The trade query: one profit per trade of the strategy, so each profit
   * occurs as often as trades booked it, and no profits exactly when the
   * strategy has no trade.
   */
  lemma TradeProfitsExact(trades: map<int, Trade>, strategyId: int, n: int)
    ensures |TradeProfits(trades, strategyId, n)| == |TradeIds(trades, strategyId, n)|
    ensures forall p :: multiset(TradeProfits(trades, strategyId, n))[p] == |TradeIdsWithProfit(trades, strategyId, n, p)|
    ensures TradeProfits(trades, strategyId, n) == [] <==> TradeIds(trades, strategyId, n) == {}
  {
    TradeProfitsCount(trades, strategyId, n);
    forall p ensures multiset(TradeProfits(trades, strategyId, n))[p] == |TradeIdsWithProfit(trades, strategyId, n, p)| {
      TradeProfitsMultiplicity(trades, strategyId, n, p);
    }
  }

  /** `[t.profit for t in trades if t.profit != 0]`: the profits without the zero ones, each as often as before. */
  function NonZero(ps: seq<real>): (r: seq<real>)
    ensures multiset(r) == multiset(ps)[0.0 := 0]
    ensures forall p :: p in r <==> p in ps && p != 0.0
  {
    if ps == [] then []
    else
      assert ps == [ps[0]] + ps[1..];
      (if ps[0] != 0.0 then [ps[0]] else []) + NonZero(ps[1..])
  }

  /** `[p for p in profits if p > 0]`: every positive profit, as often as it occurs, and nothing else. */
  function Wins(ps: seq<real>): (r: seq<real>)
    ensures forall p :: multiset(r)[p] == if p > 0.0 then multiset(ps)[p] else 0
  {
    if ps == [] then []
    else
      assert ps == [ps[0]] + ps[1..];
      (if ps[0] > 0.0 then [ps[0]] else []) + Wins(ps[1..])
  }

  /** `[p for p in profits if p < 0]`: every negative profit, as often as it occurs, and nothing else. */
  function Losses(ps: seq<real>): (r: seq<real>)
    ensures forall p :: multiset(r)[p] == if p < 0.0 then multiset(ps)[p] else 0
  {
    if ps == [] then []
    else
      assert ps == [ps[0]] + ps[1..];
      (if ps[0] < 0.0 then [ps[0]] else []) + Losses(ps[1..])
  }

  function Sum(ps: seq<real>): real {
    if ps == [] then 0.0 else ps[0] + Sum(ps[1..])
  }

  /** The largest profit of a non-empty list. */
  function Max(ps: seq<real>): (m: real)
    requires ps != []
    ensures m in ps && forall p :: p in ps ==> p <= m
  {
    if |ps| == 1 then ps[0]
    else
      var rest := Max(ps[1..]);
      assert forall p :: p in ps ==> p == ps[0] || p in ps[1..];
      if ps[0] >= rest then ps[0] else rest
  }

  /** The smallest profit of a non-empty list. */
  function Min(ps: seq<real>): (m: real)
    requires ps != []
    ensures m in ps && forall p :: p in ps ==> m <= p
  {
    if |ps| == 1 then ps[0]
    else
      var rest := Min(ps[1..]);
      assert forall p :: p in ps ==> p == ps[0] || p in ps[1..];
      if ps[0] <= rest then ps[0] else rest
  }

  /** Filtering out the zeros first does not change the wins. */
  lemma WinsIgnoreZeros(profits: seq<real>)
    ensures |Wins(NonZero(profits))| == |Wins(profits)|
  {
    var a, b := multiset(Wins(NonZero(profits))), multiset(Wins(profits));
    forall p ensures a[p] == b[p] {
    }
    assert a == b;
  }

  /** Filtering out the zeros first does not change the losses. */
  lemma LossesIgnoreZeros(profits: seq<real>)
    ensures |Losses(NonZero(profits))| == |Losses(profits)|
  {
    var a, b := multiset(Losses(NonZero(profits))), multiset(Losses(profits));
    forall p ensures a[p] == b[p] {
    }
    assert a == b;
  }

  /**
   * The statistics of a strategy over the profits of its trades: all zero
   * without trades; otherwise totals from the strategy row, and the number
   * of winning and losing trades, the win rate, the average and the extremes
   * over the non-zero profits.
   */
  function ComputeStats(s: Strategy, profits: seq<real>): (r: StrategyStats)
    ensures profits != [] ==> r.totalProfit == s.totalProfit && r.totalTrades == s.totalTrades
    ensures r.winTrades == |Wins(profits)| && r.loseTrades == |Losses(profits)|
    ensures NonZero(profits) != [] ==>
      && r.maxProfit in profits && r.maxLoss in profits
      && forall p :: p in profits && p != 0.0 ==> r.maxLoss <= p <= r.maxProfit
    ensures NonZero(profits) == [] ==> r.winRate == 0.0 && r.avgProfitPerTrade == 0.0 && r.maxProfit == 0.0 && r.maxLoss == 0.0
  {
    if profits == [] then StrategyStats(0.0, 0.0, 0, 0, 0, 0.0, 0.0, 0.0, 0.0)
    else
      var ps := NonZero(profits);
      WinsIgnoreZeros(profits);
      LossesIgnoreZeros(profits);
      var totalInvestment := s.investmentPerGrid * (s.gridCount as real);
      StrategyStats(
        s.totalProfit,
        if totalInvestment > 0.0 then s.totalProfit / totalInvestment * 100.0 else 0.0,
        s.totalTrades,
        |Wins(ps)|,
        |Losses(ps)|,
        if ps != [] then (|Wins(ps)| as real) / (|ps| as real) * 100.0 else 0.0,
        if ps != [] then Sum(ps) / (|ps| as real) else 0.0,
        if ps != [] then Max(ps) else 0.0,
        if ps != [] then Min(ps) else 0.0)
  }

  /** `GET /strategies/{id}/stats`: 404 for a missing strategy, otherwise the statistics of its trades. */
  function GetStrategyStats(strategies: map<int, Strategy>, trades: map<int, Trade>, nextTradeId: int,
                            strategyId: int): (r: Response<StrategyStats>)
    ensures r.HttpError? <==> strategyId !in strategies
    ensures r.HttpError? ==> r.status == NotFound
    ensures r.Ok? ==> r.value == ComputeStats(strategies[strategyId], TradeProfits(trades, strategyId, nextTradeId))
  {
    if strategyId !in strategies then HttpError(NotFound)
    else Ok(ComputeStats(strategies[strategyId], TradeProfits(trades, strategyId, nextTradeId)))
  }

  /** In a list without zeros every profit is either a win or a loss. */
  lemma WinsAndLossesCover(ps: seq<real>)
    requires forall p :: p in ps ==> p != 0.0
    ensures |Wins(ps)| + |Losses(ps)| == |ps|
  {
    var w, l := multiset(Wins(ps)), multiset(Losses(ps));
    forall p ensures (w + l)[p] == multiset(ps)[p] {
      if p == 0.0 {
        assert p !in ps;
      }
    }
    assert w + l == multiset(ps);
  }

  /** A share of a positive whole, as a percentage, lies between 0 and 100. */
  lemma Percentage(part: real, whole: real)
    requires 0.0 <= part <= whole && whole > 0.0
    ensures 0.0 <= part / whole * 100.0 <= 100.0
  {
    var q := part / whole;
    assert q * whole == part;
    assert (1.0 - q) * whole == whole - part;
  }

  /** A strategy without trades has all-zero statistics. */
  lemma NoTradesAllZero(s: Strategy)
    ensures ComputeStats(s, []) == StrategyStats(0.0, 0.0, 0, 0, 0, 0.0, 0.0, 0.0, 0.0)
  {
  }

  /**
   * With trades, wins and losses together count the non-zero profits, the
   * win rate lies between 0 and 100, and the largest profit is at least the
   * largest loss.
   */
  lemma StatsBounds(s: Strategy, profits: seq<real>)
    requires profits != []
    ensures var st := ComputeStats(s, profits);
      && st.winTrades + st.loseTrades == |NonZero(profits)|
      && 0.0 <= st.winRate <= 100.0
      && st.maxProfit >= st.maxLoss
      && st.totalTrades == s.totalTrades && st.totalProfit == s.totalProfit
  {
    var ps := NonZero(profits);
    WinsAndLossesCover(ps);
    if ps != [] {
      Percentage(|Wins(ps)| as real, |ps| as real);
      assert Min(ps) in ps;
    }
  }

  /** Zero-profit trades do not count as wins or losses. */
  lemma {:induction false} ZeroProfitsIgnored(ps: seq<real>)
    ensures NonZero(ps + [0.0]) == NonZero(ps)
  {
    if ps != [] {
      assert (ps + [0.0])[1..] == ps[1..] + [0.0];
      ZeroProfitsIgnored(ps[1..]);
    } else {
      assert NonZero([0.0]) == [] + NonZero([]);
    }
  }
}
