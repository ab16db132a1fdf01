/**
 * The grid strategy engine: it lays out evenly spaced price levels between a
 * strategy's lower and upper price, places a BUY below the reference price
 * and a SELL at or above it on every level not too close to that price,
 * replaces each filled order by one on the other side one grid step away,
 * and cancels every pending order when the strategy stops.
 *
 * Orders are registered with the fill checker under a key made of side,
 * price and order id; the callback handle records which order and strategy
 * the fill belongs to. Placing an order with the exchange is outside the
 * model: the caller says whether the bot is running and which levels fail to
 * place, with the error text. Notifications broadcast to clients are
 * returned as a list of events.
 */
module GridExecutor {
  import opened Common
  import opened Models
  import FillChecker
  import PriceInterceptor

  // --------------------------------------------------------------- rounding

  /** Python's `round(x, 0)`: the nearest integer, a tie going to the even one. */
  function RoundHalfEven(x: real): (r: int)
    ensures x - 0.5 <= r as real <= x + 0.5
    ensures x.Floor <= r <= x.Floor + 1
    ensures x - x.Floor as real == 0.5 ==> r % 2 == 0
  {
    var f := x.Floor;
    var d := x - f as real;
    if d < 0.5 then f
    else if d > 0.5 then f + 1
    else if f % 2 == 0 then f
    else f + 1
  }

  lemma RoundHalfEvenOfInteger(n: int)
    ensures RoundHalfEven(n as real) == n
  {
  }

  lemma RoundHalfEvenMonotone(x: real, y: real)
    requires x <= y
    ensures RoundHalfEven(x) <= RoundHalfEven(y)
  {
    if x.Floor == y.Floor {
      var f := x.Floor;
      assert x - f as real <= y - f as real;
    }
  }

  // ------------------------------------------------------------ grid levels

  /** The unrounded price of level `i`: `lower + i * (upper - lower) / gridCount`. */
  function ExactLevel(upper: real, lower: real, gridCount: int, i: int): real
    requires gridCount != 0
  {
    lower + (i as real) * ((upper - lower) / (gridCount as real))
  }

  /** The first `k` levels of the grid, each rounded to an integer. */
  function LevelsUpTo(upper: real, lower: real, gridCount: int, k: nat): (r: seq<int>)
    requires gridCount != 0
    ensures |r| == k
  {
    if k == 0 then [] else LevelsUpTo(upper, lower, gridCount, k - 1) + [RoundHalfEven(ExactLevel(upper, lower, gridCount, k - 1))]
  }

  /**
   * The grid: level `i` for `i` in `range(gridCount + 1)`, each rounded to an
   * integer. (A zero grid count divides by zero and is excluded.)
   */
  function GridLevels(upper: real, lower: real, gridCount: int): (r: seq<int>)
    requires gridCount != 0
    ensures |r| == if gridCount >= 0 then gridCount + 1 else 0
  {
    LevelsUpTo(upper, lower, gridCount, if gridCount >= 0 then gridCount + 1 else 0)
  }

  lemma {:induction false} LevelsUpToIndex(upper: real, lower: real, gridCount: int, k: nat)
    requires gridCount != 0
    ensures |LevelsUpTo(upper, lower, gridCount, k)| == k
    ensures forall i :: 0 <= i < k ==>
      LevelsUpTo(upper, lower, gridCount, k)[i] == RoundHalfEven(ExactLevel(upper, lower, gridCount, i))
  {
    if k > 0 {
      LevelsUpToIndex(upper, lower, gridCount, k - 1);
    }
  }

  /** The level list, built level by level as the engine does. */
  method CalculateGridLevels(upper: real, lower: real, gridCount: int) returns (levels: seq<int>)
    requires gridCount != 0
    ensures levels == GridLevels(upper, lower, gridCount)
  {
    levels := [];
    var i := 0;
    while i < gridCount + 1
      invariant 0 <= i && (gridCount >= 0 ==> i <= gridCount + 1) && (gridCount < 0 ==> i == 0)
      invariant levels == LevelsUpTo(upper, lower, gridCount, i)
    {
      var price := ExactLevel(upper, lower, gridCount, i);
      levels := levels + [RoundHalfEven(price)];
      i := i + 1;
    }
  }

  /** The grid runs from the rounded lower price to the rounded upper price in `gridCount` steps. */
  lemma GridLevelsEnds(upper: real, lower: real, gridCount: int)
    requires gridCount >= 1
    ensures |GridLevels(upper, lower, gridCount)| == gridCount + 1
    ensures GridLevels(upper, lower, gridCount)[0] == RoundHalfEven(lower)
    ensures GridLevels(upper, lower, gridCount)[gridCount] == RoundHalfEven(upper)
  {
    LevelsUpToIndex(upper, lower, gridCount, gridCount + 1);
    var n := gridCount as real;
    assert n * ((upper - lower) / n) == upper - lower;
    assert ExactLevel(upper, lower, gridCount, gridCount) == upper;
  }

  /** Every level lies within half a unit of its exact price. */
  lemma GridLevelsNearExact(upper: real, lower: real, gridCount: int)
    requires gridCount >= 1
    ensures forall i :: 0 <= i <= gridCount ==>
      var d := GridLevels(upper, lower, gridCount)[i] as real - ExactLevel(upper, lower, gridCount, i);
      -0.5 <= d <= 0.5
  {
    LevelsUpToIndex(upper, lower, gridCount, gridCount + 1);
  }

  lemma ExactLevelMonotone(upper: real, lower: real, gridCount: int, i: int, j: int)
    requires gridCount >= 1 && lower <= upper && i <= j
    ensures ExactLevel(upper, lower, gridCount, i) <= ExactLevel(upper, lower, gridCount, j)
  {
    var step := (upper - lower) / (gridCount as real);
    assert step >= 0.0;
    assert (j as real) * step - (i as real) * step == ((j - i) as real) * step;
    assert ((j - i) as real) * step >= 0.0;
  }

  /** With the upper price at or above the lower one, the levels never decrease. */
  lemma GridLevelsSorted(upper: real, lower: real, gridCount: int)
    requires gridCount >= 1 && lower <= upper
    ensures forall i, j :: 0 <= i <= j <= gridCount ==>
      GridLevels(upper, lower, gridCount)[i] <= GridLevels(upper, lower, gridCount)[j]
  {
    var levels := GridLevels(upper, lower, gridCount);
    LevelsUpToIndex(upper, lower, gridCount, gridCount + 1);
    forall i, j | 0 <= i <= j <= gridCount ensures levels[i] <= levels[j] {
      ExactLevelMonotone(upper, lower, gridCount, i, j);
      RoundHalfEvenMonotone(ExactLevel(upper, lower, gridCount, i), ExactLevel(upper, lower, gridCount, j));
    }
  }

  /** The spacing the engine uses: the first two levels apart, or 0 with fewer than two levels. */
  function GridStep(levels: seq<int>): int {
    if |levels| > 1 then levels[1] - levels[0] else 0
  }

  /**
   * The order size of one grid: the exchange takes quantities in USDT, so it
   * is the investment per grid, whatever the level's price.
   */
  function QtyPerGrid(investmentPerGrid: real, gridPrice: real): (qty: real)
    ensures qty == investmentPerGrid
  {
    investmentPerGrid
  }

  // ------------------------------------------------------ order generation

  /** A live price older than this many seconds is not used. */
  const StalePriceSeconds: real := 30.0

  /** A level closer to the reference price than this fraction of the grid step is skipped. */
  const SkipFraction: real := 0.3

  /**
   * The price the grid is laid against: the live price, unless there is
   * none (or it is 0) or it is older than 30 seconds, in which case the
   * middle of the band.
   */
  function ReferencePrice(currentPrice: Option<real>, age: Option<real>, upper: real, lower: real): (r: real)
    ensures currentPrice.None? || currentPrice.value == 0.0 ==> r == (upper + lower) / 2.0
    ensures age.Some? && age.value > StalePriceSeconds ==> r == (upper + lower) / 2.0
    ensures currentPrice.Some? && currentPrice.value != 0.0 && (age.None? || age.value <= StalePriceSeconds) ==>
      r == currentPrice.value
  {
    if currentPrice.None? || currentPrice.value == 0.0 || (age.Some? && age.value > StalePriceSeconds)
    then (upper + lower) / 2.0
    else currentPrice.value
  }

  function Abs(x: real): real {
    if x < 0.0 then -x else x
  }

  /** A level too close to the reference price to be placed without filling at once. */
  predicate TooClose(level: int, reference: real, spacing: int) {
    Abs(level as real - reference) < (spacing as real) * SkipFraction
  }

  /** BUY strictly below the reference price, SELL at or above it. */
  function SideFor(level: int, reference: real): Side {
    if (level as real) < reference then Buy else Sell
  }

  /** One order the start-up loop places: the level's index, its side and its price. */
  datatype Placement = Placement(level: nat, side: Side, price: int)

  /** The placements made for the first `k` levels, in level order. */
  function Plan(levels: seq<int>, reference: real, spacing: int, k: nat): seq<Placement>
    requires k <= |levels|
  {
    if k == 0 then []
    else
      Plan(levels, reference, spacing, k - 1) +
      (if TooClose(levels[k - 1], reference, spacing) then []
       else [Placement(k - 1, SideFor(levels[k - 1], reference), levels[k - 1])])
  }

  /** A placement for one of the first `k` levels that is not too close, at its price, on the side its price calls for. */
  predicate PlacementFits(p: Placement, levels: seq<int>, reference: real, spacing: int, k: nat) {
    && p.level < k && p.level < |levels| && p.price == levels[p.level]
    && !TooClose(p.price, reference, spacing)
    && (p.side == Buy <==> (p.price as real) < reference)
  }

  /** Every placement fits: a level that is not too close, at its price, on the side its price calls for. */
  lemma {:induction false} PlanSound(levels: seq<int>, reference: real, spacing: int, k: nat)
    requires k <= |levels|
    ensures forall i :: 0 <= i < |Plan(levels, reference, spacing, k)| ==>
      PlacementFits(Plan(levels, reference, spacing, k)[i], levels, reference, spacing, k)
  {
    if k > 0 {
      PlanSound(levels, reference, spacing, k - 1);
      var prev := Plan(levels, reference, spacing, k - 1);
      var plan := Plan(levels, reference, spacing, k);
      forall i | 0 <= i < |plan| ensures PlacementFits(plan[i], levels, reference, spacing, k) {
        if i < |prev| {
          assert plan[i] == prev[i];
          assert PlacementFits(prev[i], levels, reference, spacing, k - 1);
        }
      }
    }
  }

  /** Every level that is not too close gets a placement. */
  lemma {:induction false} PlanComplete(levels: seq<int>, reference: real, spacing: int, k: nat, i: nat)
    requires i < k <= |levels| && !TooClose(levels[i], reference, spacing)
    ensures Placement(i, SideFor(levels[i], reference), levels[i]) in Plan(levels, reference, spacing, k)
  {
    if i < k - 1 {
      PlanComplete(levels, reference, spacing, k - 1, i);
    }
  }

  /** Placements follow level order, so no level is placed twice. */
  lemma {:induction false} PlanIncreasing(levels: seq<int>, reference: real, spacing: int, k: nat)
    requires k <= |levels|
    ensures forall i, j :: 0 <= i < j < |Plan(levels, reference, spacing, k)| ==>
      Plan(levels, reference, spacing, k)[i].level < Plan(levels, reference, spacing, k)[j].level
  {
    if k > 0 {
      var prev := Plan(levels, reference, spacing, k - 1);
      var plan := Plan(levels, reference, spacing, k);
      PlanIncreasing(levels, reference, spacing, k - 1);
      PlanSound(levels, reference, spacing, k - 1);
      forall i, j | 0 <= i < j < |plan| ensures plan[i].level < plan[j].level {
        assert plan[i] == prev[i];
        assert PlacementFits(prev[i], levels, reference, spacing, k - 1);
        if j < |prev| {
          assert plan[j] == prev[j];
        } else {
          assert plan[j].level == k - 1;
        }
      }
    }
  }

  /** On a non-decreasing grid all BUY placements come before all SELL placements. */
  lemma PlanBuysBeforeSells(levels: seq<int>, reference: real, spacing: int, k: nat)
    requires k <= |levels|
    requires forall i, j :: 0 <= i <= j < |levels| ==> levels[i] <= levels[j]
    ensures forall i, j :: 0 <= i < j < |Plan(levels, reference, spacing, k)| && Plan(levels, reference, spacing, k)[i].side == Sell ==>
      Plan(levels, reference, spacing, k)[j].side == Sell
  {
    var plan := Plan(levels, reference, spacing, k);
    PlanSound(levels, reference, spacing, k);
    PlanIncreasing(levels, reference, spacing, k);
    forall i, j | 0 <= i < j < |plan| && plan[i].side == Sell ensures plan[j].side == Sell {
      assert PlacementFits(plan[i], levels, reference, spacing, k);
      assert PlacementFits(plan[j], levels, reference, spacing, k);
      var a, b := plan[i].level, plan[j].level;
      assert a < b < |levels|;
      assert levels[a] <= levels[b];
    }
  }

  // ----------------------------------------------------- orders and monitors

  /** The fill-checker key of an order: its side, price and id. */
  datatype MonitorKey = MonitorKey(side: Side, price: real, orderId: int)

  /** What the fill callback needs: the filled order and its strategy. */
  datatype FillCallback = FillCallback(orderId: int, strategyId: int)

  function MonitorKeyOf(o: Order): MonitorKey {
    MonitorKey(o.side, o.price, o.id)
  }

  /** The check registered for an order at time `now`. */
  function MonitorCheck(o: Order, strategyId: int, now: real): FillChecker.Check<FillCallback> {
    FillChecker.Check(SideName(o.side), o.price, None, Some(FillCallback(o.id, strategyId)), now)
  }

  /**
   * Registers the fill monitor of an order, with a callback naming the order
   * and its strategy; the side names are upper-case already, so the check
   * keeps them as they are. The key goes last unless it is monitored already.
   */
  method RegisterFillMonitor(checker: FillChecker.OrderFillChecker<MonitorKey, FillCallback>, o: Order, strategyId: int, now: real)
    requires checker.Valid()
    modifies checker
    ensures checker.Valid()
    ensures checker.pendingChecks == old(checker.pendingChecks)[MonitorKeyOf(o) := MonitorCheck(o, strategyId, now)]
    ensures checker.keys == FillChecker.InsertKey(old(checker.keys), MonitorKeyOf(o))
    ensures checker.currentPrice == old(checker.currentPrice) && checker.lastUpdateTime == old(checker.lastUpdateTime)
  {
    var name := SideName(o.side);
    assert FillChecker.Upper(name) == name by {
      var u := FillChecker.Upper(name);
      forall i | 0 <= i < |u| ensures u[i] == name[i] {
        assert u[i] == FillChecker.UpperChar(name[i]);
      }
    }
    checker.StartMonitoring(MonitorKeyOf(o), SideName(o.side), o.price, Some(FillCallback(o.id, strategyId)), now);
  }

  /** A broadcast to the clients. */
  datatype Event =
    | OrderCreated(strategyId: int, orderId: int, side: Side, price: real, qty: real, status: OrderStatus)
    | StrategyStarted(strategyId: int, ordersCount: nat)
    | OrderFilled(strategyId: int, orderId: int, side: Side, price: real, profit: real)

  /** The status a placed order ends with: FAILED if the running bot could not place it. */
  function PlacementStatus(botRunning: bool, placementErrors: map<nat, string>, level: nat): OrderStatus {
    if botRunning && level in placementErrors then Failed else Pending
  }

  /** The row the start-up loop writes for a placement. */
  function PlacedOrder(s: Strategy, p: Placement, id: int, botRunning: bool, placementErrors: map<nat, string>): (o: Order)
    ensures o.status == Pending || o.status == Failed
    ensures o.status == Failed <==> o.errorMessage.Some?
    ensures o.gridLevel == Some(p.level) && o.isEntry && o.pairedOrderId.None?
    ensures o.id == id && o.strategyId == Some(s.id) && o.side == p.side && o.price == p.price as real
    ensures o.qty == s.investmentPerGrid
  {
    var status := PlacementStatus(botRunning, placementErrors, p.level);
    Order(id, Some(s.id), s.symbol, p.side, p.price as real, QtyPerGrid(s.investmentPerGrid, p.price as real),
          OrderTypeLimit, status, if status == Failed then Some(placementErrors[p.level]) else None,
          Some(p.level), None, true)
  }

  /** The fill-checker table after registering the PENDING ones among the first `n` placed orders. */
  function Registered(table: map<MonitorKey, FillChecker.Check<FillCallback>>, s: Strategy, plan: seq<Placement>,
                      firstId: int, botRunning: bool, placementErrors: map<nat, string>, now: real, n: nat)
    : map<MonitorKey, FillChecker.Check<FillCallback>>
    requires n <= |plan|
  {
    if n == 0 then table
    else
      var t := Registered(table, s, plan, firstId, botRunning, placementErrors, now, n - 1);
      var o := PlacedOrder(s, plan[n - 1], firstId + n - 1, botRunning, placementErrors);
      if o.status == Pending then t[MonitorKeyOf(o) := MonitorCheck(o, s.id, now)] else t
  }

  /** The fill-checker key order after registering the PENDING ones among the first `n` placed orders. */
  function RegisteredKeyOrder(keys: seq<MonitorKey>, s: Strategy, plan: seq<Placement>, firstId: int, botRunning: bool,
                              placementErrors: map<nat, string>, n: nat): seq<MonitorKey>
    requires n <= |plan|
  {
    if n == 0 then keys
    else
      var ks := RegisteredKeyOrder(keys, s, plan, firstId, botRunning, placementErrors, n - 1);
      var o := PlacedOrder(s, plan[n - 1], firstId + n - 1, botRunning, placementErrors);
      if o.status == Pending then FillChecker.InsertKey(ks, MonitorKeyOf(o)) else ks
  }

  /** The keys of the PENDING ones among the first `n` placed orders, in placement order. */
  function NewMonitorKeys(s: Strategy, plan: seq<Placement>, firstId: int, botRunning: bool,
                          placementErrors: map<nat, string>, n: nat): (r: seq<MonitorKey>)
    requires n <= |plan|
    ensures forall k :: k in r ==> firstId <= k.orderId < firstId + n
    ensures forall i, j :: 0 <= i < j < |r| ==> r[i].orderId < r[j].orderId
  {
    if n == 0 then []
    else
      var o := PlacedOrder(s, plan[n - 1], firstId + n - 1, botRunning, placementErrors);
      NewMonitorKeys(s, plan, firstId, botRunning, placementErrors, n - 1) +
      (if o.status == Pending then [MonitorKeyOf(o)] else [])
  }

  /**
   * When no monitored key belongs to a new order, registration appends the
   * keys of the PENDING placed orders after the existing keys, in placement
   * order; so a later sweep visits them after the older monitors.
   */
  lemma {:induction false} RegisteredKeysAppended(keys: seq<MonitorKey>, s: Strategy, plan: seq<Placement>, firstId: int,
                                                  botRunning: bool, placementErrors: map<nat, string>, n: nat)
    requires n <= |plan|
    requires forall k :: k in keys ==> k.orderId < firstId
    ensures RegisteredKeyOrder(keys, s, plan, firstId, botRunning, placementErrors, n) ==
      keys + NewMonitorKeys(s, plan, firstId, botRunning, placementErrors, n)
  {
    if n > 0 {
      RegisteredKeysAppended(keys, s, plan, firstId, botRunning, placementErrors, n - 1);
      var added := NewMonitorKeys(s, plan, firstId, botRunning, placementErrors, n - 1);
      var o := PlacedOrder(s, plan[n - 1], firstId + n - 1, botRunning, placementErrors);
      if o.status == Pending {
        var k := MonitorKeyOf(o);
        assert k.orderId == firstId + n - 1;
        assert k !in keys + added by {
          assert k !in keys;
          assert k !in added;
        }
        assert keys + added + [k] == keys + (added + [k]);
      } else {
        assert added + [] == added;
      }
    }
  }

  /** Registration adds exactly the monitors of the PENDING placed orders to the table's keys. */
  lemma {:induction false} RegisteredKeys(table: map<MonitorKey, FillChecker.Check<FillCallback>>, s: Strategy,
                                          plan: seq<Placement>, firstId: int, botRunning: bool,
                                          placementErrors: map<nat, string>, now: real, n: nat)
    requires n <= |plan|
    ensures forall key :: key in Registered(table, s, plan, firstId, botRunning, placementErrors, now, n) <==>
      (key in table ||
       exists k :: 0 <= k < n && PlacementStatus(botRunning, placementErrors, plan[k].level) == Pending &&
                   key == MonitorKeyOf(PlacedOrder(s, plan[k], firstId + k, botRunning, placementErrors)))
  {
    if n > 0 {
      RegisteredKeys(table, s, plan, firstId, botRunning, placementErrors, now, n - 1);
    }
  }

  /** Each PENDING placed order is monitored with its own check. */
  lemma {:induction false} RegisteredChecks(table: map<MonitorKey, FillChecker.Check<FillCallback>>, s: Strategy,
                                            plan: seq<Placement>, firstId: int, botRunning: bool,
                                            placementErrors: map<nat, string>, now: real, n: nat)
    requires n <= |plan|
    ensures forall k :: 0 <= k < n && PlacementStatus(botRunning, placementErrors, plan[k].level) == Pending ==>
      MonitorKeyOf(PlacedOrder(s, plan[k], firstId + k, botRunning, placementErrors))
        in Registered(table, s, plan, firstId, botRunning, placementErrors, now, n) &&
      Registered(table, s, plan, firstId, botRunning, placementErrors, now, n)
        [MonitorKeyOf(PlacedOrder(s, plan[k], firstId + k, botRunning, placementErrors))] ==
      MonitorCheck(PlacedOrder(s, plan[k], firstId + k, botRunning, placementErrors), s.id, now)
  {
    if n > 0 {
      RegisteredChecks(table, s, plan, firstId, botRunning, placementErrors, now, n - 1);
    }
  }

  /** Entries whose order id is not among the new ids are left as they were. */
  lemma {:induction false} RegisteredKeepsOthers(table: map<MonitorKey, FillChecker.Check<FillCallback>>, s: Strategy,
                                                 plan: seq<Placement>, firstId: int, botRunning: bool,
                                                 placementErrors: map<nat, string>, now: real, n: nat, key: MonitorKey)
    requires n <= |plan|
    requires key in table && (key.orderId < firstId || key.orderId >= firstId + n)
    ensures key in Registered(table, s, plan, firstId, botRunning, placementErrors, now, n)
    ensures Registered(table, s, plan, firstId, botRunning, placementErrors, now, n)[key] == table[key]
  {
    if n > 0 {
      RegisteredKeepsOthers(table, s, plan, firstId, botRunning, placementErrors, now, n - 1, key);
    }
  }

  /** The `order_created` broadcasts of the start-up loop, one per placed order among the first `n`. */
  function CreatedEvents(s: Strategy, plan: seq<Placement>, firstId: int, botRunning: bool,
                         placementErrors: map<nat, string>, n: nat): (r: seq<Event>)
    requires n <= |plan|
    ensures |r| == n
  {
    if n == 0 then []
    else
      var o := PlacedOrder(s, plan[n - 1], firstId + n - 1, botRunning, placementErrors);
      CreatedEvents(s, plan, firstId, botRunning, placementErrors, n - 1) +
      [OrderCreated(s.id, firstId + n - 1, o.side, o.price, o.qty, o.status)]
  }

  /** Broadcast `k` announces the `k`-th placed order with its side, price, quantity and status. */
  lemma {:induction false} CreatedEventsAnnounce(s: Strategy, plan: seq<Placement>, firstId: int, botRunning: bool,
                                                 placementErrors: map<nat, string>, n: nat, k: nat)
    requires k < n <= |plan|
    ensures var o := PlacedOrder(s, plan[k], firstId + k, botRunning, placementErrors);
      CreatedEvents(s, plan, firstId, botRunning, placementErrors, n)[k] ==
        OrderCreated(s.id, firstId + k, o.side, o.price, o.qty, o.status)
  {
    if k < n - 1 {
      CreatedEventsAnnounce(s, plan, firstId, botRunning, placementErrors, n - 1, k);
    }
  }

  // ------------------------------------------------------------- fill rules

  /** `grid_level ± 1` as written: a level of 0 counts as missing. */
  function ShiftLevelAsWritten(gridLevel: Option<int>, delta: int): Option<int> {
    if gridLevel.Some? && gridLevel.value != 0 then Some(gridLevel.value + delta) else None
  }

  /** The lowest level (index 0) loses its index when shifted as written. */
  lemma ShiftLevelAsWrittenDropsLevelZero()
    ensures ShiftLevelAsWritten(Some(0), 1) == None
    ensures ShiftLevelAsWritten(Some(0), -1) == None
  {
  }

  /** `grid_level ± 1`, missing only when the filled order had no level. */
  function ShiftLevel(gridLevel: Option<int>, delta: int): (r: Option<int>)
    ensures r.Some? <==> gridLevel.Some?
    ensures r.Some? ==> r.value - gridLevel.value == delta
  {
    match gridLevel
    case None => None
    case Some(g) => Some(g + delta)
  }

  /** A level shifted up and then down is the level again. */
  lemma ShiftLevelInverse(gridLevel: Option<int>)
    ensures ShiftLevel(ShiftLevel(gridLevel, 1), -1) == gridLevel
  {
  }

  /**
   * The profit booked for a fill: for a SELL paired (by a non-zero id) with
   * an order that exists, the price difference times the quantity; otherwise 0.
   */
  function FillProfit(o: Order, orders: map<int, Order>): (profit: real)
    ensures profit != 0.0 ==> o.side == Sell && o.pairedOrderId.Some? && o.pairedOrderId.value in orders
    ensures o.side == Sell && o.pairedOrderId.Some? && o.pairedOrderId.value != 0 && o.pairedOrderId.value in orders ==>
      profit == (o.price - orders[o.pairedOrderId.value].price) * o.qty
  {
    if o.side == Sell && o.pairedOrderId.Some? && o.pairedOrderId.value != 0 && o.pairedOrderId.value in orders
    then (o.price - orders[o.pairedOrderId.value].price) * o.qty
    else 0.0
  }

  /**
   * The order that replaces a filled one (its id still to be assigned): a
   * BUY fill is followed by a SELL one step higher, paired with the filled
   * BUY, provided it stays at or below the upper price; a SELL fill by an
   * entry BUY one step lower, provided it stays at or above the lower price.
   */
  function Replenishment(o: Order, s: Strategy, strategyId: int, step: int): (r: Option<Order>)
    ensures r.Some? ==> r.value.side != o.side && r.value.status == Pending && r.value.strategyId == Some(strategyId)
    ensures r.Some? && o.side == Buy ==>
      r.value.price == o.price + step as real && r.value.price <= s.upperPrice &&
      r.value.qty == o.qty && r.value.pairedOrderId == Some(o.id) && !r.value.isEntry
    ensures r.Some? && o.side == Sell ==>
      r.value.price == o.price - step as real && r.value.price >= s.lowerPrice &&
      r.value.qty == s.investmentPerGrid && r.value.pairedOrderId.None? && r.value.isEntry
    ensures r.None? <==>
      (o.side == Buy && o.price + step as real > s.upperPrice) || (o.side == Sell && o.price - step as real < s.lowerPrice)
  {
    match o.side
    case Buy =>
      var newPrice := o.price + step as real;
      if newPrice <= s.upperPrice then
        Some(Order(0, Some(strategyId), s.symbol, Sell, newPrice, o.qty, OrderTypeLimit, Pending, None,
                   ShiftLevel(o.gridLevel, 1), Some(o.id), false))
      else None
    case Sell =>
      var newPrice := o.price - step as real;
      if newPrice >= s.lowerPrice then
        Some(Order(0, Some(strategyId), s.symbol, Buy, newPrice, QtyPerGrid(s.investmentPerGrid, newPrice),
                   OrderTypeLimit, Pending, None, ShiftLevel(o.gridLevel, -1), None, true))
      else None
  }

  /**
   * A round trip on the grid: a BUY at price p fills and is replaced by a
   * SELL at p + step; when that SELL fills, its profit is step × qty and it
   * is replaced by a BUY at p again, on the level the BUY started from.
   */
  lemma RoundTripProfit(buy: Order, s: Strategy, strategyId: int, step: int, sellId: int, orders: map<int, Order>)
    requires buy.side == Buy && buy.id != 0 && buy.id in orders && orders[buy.id].price == buy.price
    requires buy.price + step as real <= s.upperPrice && buy.price >= s.lowerPrice
    ensures var sell := Replenishment(buy, s, strategyId, step).value.(id := sellId);
      && FillProfit(sell, orders) == (step as real) * buy.qty
      && Replenishment(sell, s, strategyId, step).Some?
      && Replenishment(sell, s, strategyId, step).value.price == buy.price
      && Replenishment(sell, s, strategyId, step).value.gridLevel == buy.gridLevel
  {
    var sell := Replenishment(buy, s, strategyId, step).value.(id := sellId);
    assert sell.price - buy.price == step as real;
    ShiftLevelInverse(buy.gridLevel);
  }

  // ------------------------------------------------------- stopping a grid

  predicate IsPendingOf(o: Order, strategyId: int) {
    o.strategyId == Some(strategyId) && o.status == Pending
  }

  /** The ids below `n` of the PENDING orders of a strategy, ascending (the query of the stop routine). */
  function PendingOrderIds(orders: map<int, Order>, strategyId: int, n: int): seq<int>
    decreases n
  {
    if n <= 1 then []
    else
      PendingOrderIds(orders, strategyId, n - 1) +
      (if n - 1 in orders && IsPendingOf(orders[n - 1], strategyId) then [n - 1] else [])
  }

  /** The query returns exactly the pending orders of the strategy, each once, in ascending order. */
  lemma {:induction false} PendingOrderIdsExact(orders: map<int, Order>, strategyId: int, n: int)
    ensures var ids := PendingOrderIds(orders, strategyId, n);
      && (forall id :: id in ids <==> 1 <= id < n && id in orders && IsPendingOf(orders[id], strategyId))
      && (forall i, j :: 0 <= i < j < |ids| ==> ids[i] < ids[j])
  {
    if n > 1 {
      PendingOrderIdsExact(orders, strategyId, n - 1);
      var prev := PendingOrderIds(orders, strategyId, n - 1);
      var ids := PendingOrderIds(orders, strategyId, n);
      forall i, j | 0 <= i < j < |ids| ensures ids[i] < ids[j] {
        assert ids[i] == prev[i] && prev[i] in prev;
        if j < |prev| {
          assert ids[j] == prev[j];
        }
      }
    }
  }

  /** The set of pending orders of a strategy. */
  function PendingSet(orders: map<int, Order>, strategyId: int): set<int> {
    set id | id in orders && IsPendingOf(orders[id], strategyId)
  }

  /** The orders after stopping: each PENDING order of the strategy becomes CANCELLED. */
  function CancelPending(orders: map<int, Order>, strategyId: int): (r: map<int, Order>)
    ensures r.Keys == orders.Keys
    ensures forall id :: id in r ==> !IsPendingOf(r[id], strategyId)
    ensures forall id :: id in r && !IsPendingOf(orders[id], strategyId) ==> r[id] == orders[id]
  {
    map id | id in orders :: if IsPendingOf(orders[id], strategyId) then orders[id].(status := Cancelled) else orders[id]
  }

  /** The fill-checker keys of the pending orders of a strategy. */
  function PendingKeys(orders: map<int, Order>, strategyId: int): set<MonitorKey> {
    set id | id in orders && IsPendingOf(orders[id], strategyId) :: MonitorKeyOf(orders[id])
  }

  /** A sequence without repetitions has as many elements as its set. */
  lemma {:induction false} DistinctCount(ids: seq<int>)
    requires forall i, j :: 0 <= i < j < |ids| ==> ids[i] < ids[j]
    ensures |set id | id in ids| == |ids|
  {
    if ids != [] {
      var init := ids[..|ids| - 1];
      var last := ids[|ids| - 1];
      DistinctCount(init);
      assert (set id | id in ids) == (set id | id in init) + {last};
      assert last !in init by {
        forall m | 0 <= m < |init| ensures init[m] != last {
          assert init[m] == ids[m];
        }
      }
    }
  }

  // ------------------------------------------------------------- the engine

  /** What the engine keeps about a running grid. */
  datatype ActiveStrategy = ActiveStrategy(levels: seq<int>, currentPrice: real)

  datatype StartError = StrategyMissing | NotRunning(status: StrategyStatus)

  datatype StartResult = StartFailed(error: StartError) | Started(ordersCreated: nat, levels: seq<int>)

  datatype StopResult = StopSucceeded(cancelledOrders: nat) | StopFailed

  /**
   * The start-up loop for one placement: write the PENDING row, let the bot
   * place it (a failure marks the row FAILED with the error text), and
   * monitor the order if it is still PENDING.
   */
  method PlaceOrder(db: Database, checker: FillChecker.OrderFillChecker<MonitorKey, FillCallback>, s: Strategy,
                    p: Placement, botRunning: bool, placementErrors: map<nat, string>, now: real)
    returns (o: Order)
    requires db.Valid() && checker.Valid()
    modifies db, checker
    ensures db.Valid() && checker.Valid()
    ensures o == PlacedOrder(s, p, old(db.nextOrderId), botRunning, placementErrors)
    ensures db.orders == old(db.orders)[o.id := o] && db.nextOrderId == old(db.nextOrderId) + 1
    ensures db.strategies == old(db.strategies) && db.trades == old(db.trades)
    ensures db.nextStrategyId == old(db.nextStrategyId) && db.nextTradeId == old(db.nextTradeId)
    ensures checker.pendingChecks ==
      if o.status == Pending then old(checker.pendingChecks)[MonitorKeyOf(o) := MonitorCheck(o, s.id, now)]
      else old(checker.pendingChecks)
    ensures checker.keys ==
      if o.status == Pending then FillChecker.InsertKey(old(checker.keys), MonitorKeyOf(o)) else old(checker.keys)
    ensures checker.currentPrice == old(checker.currentPrice) && checker.lastUpdateTime == old(checker.lastUpdateTime)
  {
    var qty := QtyPerGrid(s.investmentPerGrid, p.price as real);
    var id := db.InsertOrder(Order(0, Some(s.id), s.symbol, p.side, p.price as real, qty, OrderTypeLimit,
                                   Pending, None, Some(p.level), None, true));
    o := db.orders[id];
    if botRunning && p.level in placementErrors {
      o := o.(status := Failed, errorMessage := Some(placementErrors[p.level]));
      db.orders := db.orders[id := o];
    }
    if o.status == Pending {
      RegisterFillMonitor(checker, o, s.id, now);
    }
  }

  /**
   * The order table after the start-up loop has written the rows of the
   * first `n` placements under consecutive ids from `first` on top of `before`.
   */
  function PlacedRows(before: map<int, Order>, s: Strategy, plan: seq<Placement>, first: int, botRunning: bool,
                      placementErrors: map<nat, string>, n: nat): map<int, Order>
    requires n <= |plan|
  {
    if n == 0 then before
    else
      PlacedRows(before, s, plan, first, botRunning, placementErrors, n - 1)
        [first + n - 1 := PlacedOrder(s, plan[n - 1], first + n - 1, botRunning, placementErrors)]
  }

  /**
   * The loop adds the ids `first` .. `first + n - 1`, each holding the row of
   * its placement, and keeps every earlier row.
   */
  lemma {:induction false} PlacedRowsExact(before: map<int, Order>, s: Strategy, plan: seq<Placement>, first: int,
                                           botRunning: bool, placementErrors: map<nat, string>, n: nat)
    requires n <= |plan|
    requires forall id :: id in before ==> id < first
    ensures forall id :: id in PlacedRows(before, s, plan, first, botRunning, placementErrors, n) <==>
      id in before || first <= id < first + n
    ensures forall id :: id in before ==> PlacedRows(before, s, plan, first, botRunning, placementErrors, n)[id] == before[id]
    ensures forall k :: 0 <= k < n ==>
      PlacedRows(before, s, plan, first, botRunning, placementErrors, n)[first + k] ==
        PlacedOrder(s, plan[k], first + k, botRunning, placementErrors)
  {
    if n > 0 {
      PlacedRowsExact(before, s, plan, first, botRunning, placementErrors, n - 1);
    }
  }

  /**
   * One placement of the start-up loop, the `n`-th of `plan`: its row is
   * written under the next id and, when PENDING, it is monitored.
   */
  method PlaceNext(db: Database, checker: FillChecker.OrderFillChecker<MonitorKey, FillCallback>, s: Strategy,
                   botRunning: bool, placementErrors: map<nat, string>, now: real,
                   ghost plan: seq<Placement>, ghost n: nat, ghost first: int, ghost before: map<int, Order>,
                   ghost table: map<MonitorKey, FillChecker.Check<FillCallback>>, ghost keys: seq<MonitorKey>,
                   p: Placement, events: seq<Event>)
    returns (o: Order, events': seq<Event>)
    requires db.Valid() && checker.Valid()
    requires n < |plan| && plan[n] == p && db.nextOrderId == first + n
    requires forall id :: id in before ==> id < first
    requires db.orders == PlacedRows(before, s, plan, first, botRunning, placementErrors, n)
    requires checker.pendingChecks == Registered(table, s, plan, first, botRunning, placementErrors, now, n)
    requires checker.keys == RegisteredKeyOrder(keys, s, plan, first, botRunning, placementErrors, n)
    requires events == CreatedEvents(s, plan, first, botRunning, placementErrors, n)
    modifies db, checker
    ensures db.Valid() && checker.Valid()
    ensures o == PlacedOrder(s, p, first + n, botRunning, placementErrors)
    ensures db.nextOrderId == first + n + 1
    ensures db.strategies == old(db.strategies) && db.trades == old(db.trades)
    ensures db.nextStrategyId == old(db.nextStrategyId) && db.nextTradeId == old(db.nextTradeId)
    ensures db.orders == PlacedRows(before, s, plan, first, botRunning, placementErrors, n + 1)
    ensures checker.pendingChecks == Registered(table, s, plan, first, botRunning, placementErrors, now, n + 1)
    ensures checker.keys == RegisteredKeyOrder(keys, s, plan, first, botRunning, placementErrors, n + 1)
    ensures checker.currentPrice == old(checker.currentPrice) && checker.lastUpdateTime == old(checker.lastUpdateTime)
    ensures events' == CreatedEvents(s, plan, first, botRunning, placementErrors, n + 1)
  {
    o := PlaceOrder(db, checker, s, p, botRunning, placementErrors, now);
    events' := events + [OrderCreated(s.id, o.id, o.side, o.price, o.qty, o.status)];
  }

  /** Planning more levels never plans fewer placements. */
  lemma {:induction false} PlanGrows(levels: seq<int>, reference: real, spacing: int, i: nat, j: nat)
    requires i <= j <= |levels|
    ensures |Plan(levels, reference, spacing, i)| <= |Plan(levels, reference, spacing, j)|
  {
    if i < j {
      PlanGrows(levels, reference, spacing, i, j - 1);
    }
  }

  /** A level that is placed comes right after the placements of the levels before it. */
  lemma {:induction false} PlanAt(levels: seq<int>, reference: real, spacing: int, i: nat, j: nat)
    requires i < j <= |levels| && !TooClose(levels[i], reference, spacing)
    ensures |Plan(levels, reference, spacing, i)| < |Plan(levels, reference, spacing, j)|
    ensures Plan(levels, reference, spacing, j)[|Plan(levels, reference, spacing, i)|] ==
      Placement(i, SideFor(levels[i], reference), levels[i])
  {
    if i < j - 1 {
      PlanAt(levels, reference, spacing, i, j - 1);
    }
  }

  /**
   * The start-up loop's state after the first `i` levels: `placed` orders
   * written, monitored and announced.
   */
  ghost predicate PlacedSoFar(db: Database, checker: FillChecker.OrderFillChecker<MonitorKey, FillCallback>, s: Strategy,
                              levels: seq<int>, reference: real, spacing: int, botRunning: bool,
                              placementErrors: map<nat, string>, now: real, plan: seq<Placement>, first: int,
                              before: map<int, Order>, table: map<MonitorKey, FillChecker.Check<FillCallback>>,
                              keys: seq<MonitorKey>, i: nat, placed: nat, events: seq<Event>)
    reads db, checker
  {
    && i <= |levels| && plan == Plan(levels, reference, spacing, |levels|)
    && placed == |Plan(levels, reference, spacing, i)| <= |plan|
    && db.Valid() && checker.Valid()
    && db.nextOrderId == first + placed
    && (forall id :: id in before ==> id < first)
    && db.orders == PlacedRows(before, s, plan, first, botRunning, placementErrors, placed)
    && checker.pendingChecks == Registered(table, s, plan, first, botRunning, placementErrors, now, placed)
    && checker.keys == RegisteredKeyOrder(keys, s, plan, first, botRunning, placementErrors, placed)
    && events == CreatedEvents(s, plan, first, botRunning, placementErrors, placed)
  }

  /**
   * One turn of the start-up loop: level `i` is skipped when too close to
   * the reference price, and otherwise placed.
   */
  method PlaceLevel(db: Database, checker: FillChecker.OrderFillChecker<MonitorKey, FillCallback>, s: Strategy,
                    levels: seq<int>, reference: real, spacing: int, botRunning: bool,
                    placementErrors: map<nat, string>, now: real, ghost plan: seq<Placement>, ghost first: int,
                    ghost before: map<int, Order>, ghost table: map<MonitorKey, FillChecker.Check<FillCallback>>,
                    ghost keys: seq<MonitorKey>, i: nat, placed: nat, events: seq<Event>)
    returns (placed': nat, events': seq<Event>)
    requires i < |levels|
    requires PlacedSoFar(db, checker, s, levels, reference, spacing, botRunning, placementErrors, now, plan, first,
                         before, table, keys, i, placed, events)
    modifies db, checker
    ensures PlacedSoFar(db, checker, s, levels, reference, spacing, botRunning, placementErrors, now, plan, first,
                        before, table, keys, i + 1, placed', events')
    ensures db.strategies == old(db.strategies) && db.trades == old(db.trades)
    ensures db.nextStrategyId == old(db.nextStrategyId) && db.nextTradeId == old(db.nextTradeId)
    ensures checker.currentPrice == old(checker.currentPrice) && checker.lastUpdateTime == old(checker.lastUpdateTime)
  {
    PlanGrows(levels, reference, spacing, i + 1, |levels|);
    placed', events' := placed, events;
    var level := levels[i];
    if !TooClose(level, reference, spacing) {
      var side := SideFor(level, reference);
      var p := Placement(i, side, level);
      PlanAt(levels, reference, spacing, i, |levels|);
      var _, next := PlaceNext(db, checker, s, botRunning, placementErrors, now, plan, placed, first, before, table, keys,
                                p, events);
      placed', events' := placed + 1, next;
    }
  }

  /**
   * The order-generation loop of the start routine: every level not too
   * close to the reference price gets an order, BUY below it and SELL at or
   * above it, under consecutive fresh ids; each is announced to the clients.
   */
  method PlaceGridOrders(db: Database, checker: FillChecker.OrderFillChecker<MonitorKey, FillCallback>, s: Strategy,
                         levels: seq<int>, reference: real, botRunning: bool, placementErrors: map<nat, string>,
                         now: real)
    returns (placed: nat, events: seq<Event>)
    requires db.Valid() && checker.Valid() && |levels| >= 2
    modifies db, checker
    ensures db.Valid() && checker.Valid()
    ensures db.strategies == old(db.strategies) && db.trades == old(db.trades)
    ensures db.nextStrategyId == old(db.nextStrategyId) && db.nextTradeId == old(db.nextTradeId)
    ensures placed == |Plan(levels, reference, levels[1] - levels[0], |levels|)|
    ensures db.nextOrderId == old(db.nextOrderId) + placed
    ensures db.orders == PlacedRows(old(db.orders), s, Plan(levels, reference, levels[1] - levels[0], |levels|),
                                    old(db.nextOrderId), botRunning, placementErrors, placed)
    ensures checker.pendingChecks == Registered(old(checker.pendingChecks), s, Plan(levels, reference, levels[1] - levels[0], |levels|),
                                                old(db.nextOrderId), botRunning, placementErrors, now, placed)
    ensures checker.keys == RegisteredKeyOrder(old(checker.keys), s, Plan(levels, reference, levels[1] - levels[0], |levels|),
                                               old(db.nextOrderId), botRunning, placementErrors, placed)
    ensures checker.currentPrice == old(checker.currentPrice) && checker.lastUpdateTime == old(checker.lastUpdateTime)
    ensures events == CreatedEvents(s, Plan(levels, reference, levels[1] - levels[0], |levels|), old(db.nextOrderId),
                                    botRunning, placementErrors, placed)
  {
    ghost var first := db.nextOrderId;
    ghost var before := db.orders;
    ghost var table := checker.pendingChecks;
    ghost var keys := checker.keys;
    var spacing := levels[1] - levels[0];
    ghost var plan := Plan(levels, reference, spacing, |levels|);
    PlanGrows(levels, reference, spacing, 0, |levels|);
    events := [];
    placed := 0;
    assert PlacedSoFar(db, checker, s, levels, reference, spacing, botRunning, placementErrors, now, plan, first,
                       before, table, keys, 0, 0, []);
    var i := 0;
    while i < |levels|
      invariant i <= |levels|
      invariant PlacedSoFar(db, checker, s, levels, reference, spacing, botRunning, placementErrors, now, plan, first,
                            before, table, keys, i, placed, events)
      invariant db.strategies == old(db.strategies) && db.trades == old(db.trades)
      invariant db.nextStrategyId == old(db.nextStrategyId) && db.nextTradeId == old(db.nextTradeId)
      invariant checker.currentPrice == old(checker.currentPrice) && checker.lastUpdateTime == old(checker.lastUpdateTime)
    {
      placed, events := PlaceLevel(db, checker, s, levels, reference, spacing, botRunning, placementErrors, now,
                                   plan, first, before, table, keys, i, placed, events);
      i := i + 1;
    }
  }

  /** The orders after cancelling the ones whose ids are listed. */
  function CancelIds(orders: map<int, Order>, ids: seq<int>): map<int, Order> {
    map id | id in orders :: if id in ids then orders[id].(status := Cancelled) else orders[id]
  }

  /** The fill-checker keys of the listed orders. */
  function KeysOf(orders: map<int, Order>, ids: seq<int>): set<MonitorKey> {
    set id | id in ids && id in orders :: MonitorKeyOf(orders[id])
  }

  lemma CancelStep(orders: map<int, Order>, ids: seq<int>, x: int)
    requires x in orders
    ensures CancelIds(orders, ids + [x]) == CancelIds(orders, ids)[x := orders[x].(status := Cancelled)]
    ensures KeysOf(orders, ids + [x]) == KeysOf(orders, ids) + {MonitorKeyOf(orders[x])}
  {
  }

  /** `CancelStep` for the prefix `ids[..i + 1]`. */
  lemma CancelPrefixStep(orders: map<int, Order>, ids: seq<int>, i: nat)
    requires i < |ids| && ids[i] in orders
    ensures CancelIds(orders, ids[..i + 1]) == CancelIds(orders, ids[..i])[ids[i] := orders[ids[i]].(status := Cancelled)]
    ensures KeysOf(orders, ids[..i + 1]) == KeysOf(orders, ids[..i]) + {MonitorKeyOf(orders[ids[i]])}
  {
    assert ids[..i + 1] == ids[..i] + [ids[i]];
    CancelStep(orders, ids[..i], ids[i]);
  }

  lemma PendingIdsPresent(orders: map<int, Order>, strategyId: int, n: int)
    ensures forall k :: 0 <= k < |PendingOrderIds(orders, strategyId, n)| ==> PendingOrderIds(orders, strategyId, n)[k] in orders
  {
    var ids := PendingOrderIds(orders, strategyId, n);
    PendingOrderIdsExact(orders, strategyId, n);
    forall k | 0 <= k < |ids| ensures ids[k] in orders {
      assert ids[k] in ids;
    }
  }

  /** Cancelling exactly the pending orders of a strategy, listed by the query. */
  lemma CancelAllPending(orders: map<int, Order>, strategyId: int, n: int)
    requires forall id :: id in orders ==> 1 <= id < n
    ensures CancelIds(orders, PendingOrderIds(orders, strategyId, n)) == CancelPending(orders, strategyId)
    ensures KeysOf(orders, PendingOrderIds(orders, strategyId, n)) == PendingKeys(orders, strategyId)
    ensures |PendingOrderIds(orders, strategyId, n)| == |PendingSet(orders, strategyId)|
  {
    var ids := PendingOrderIds(orders, strategyId, n);
    PendingOrderIdsExact(orders, strategyId, n);
    DistinctCount(ids);
    assert (set id | id in ids) == PendingSet(orders, strategyId);
    var l, r := CancelIds(orders, ids), CancelPending(orders, strategyId);
    assert l.Keys == r.Keys;
    forall id | id in l ensures l[id] == r[id] {
      assert id in ids <==> IsPendingOf(orders[id], strategyId);
    }
  }

  /** One step of the stop routine: stop monitoring an order and mark it CANCELLED. */
  method CancelOrder(db: Database, checker: FillChecker.OrderFillChecker<MonitorKey, FillCallback>, id: int)
    requires db.Valid() && checker.Valid() && id in db.orders
    modifies db, checker
    ensures db.Valid() && checker.Valid()
    ensures db.strategies == old(db.strategies) && db.trades == old(db.trades)
    ensures db.nextOrderId == old(db.nextOrderId) && db.nextStrategyId == old(db.nextStrategyId) && db.nextTradeId == old(db.nextTradeId)
    ensures db.orders == old(db.orders)[id := old(db.orders[id]).(status := Cancelled)]
    ensures checker.pendingChecks == old(checker.pendingChecks) - {MonitorKeyOf(old(db.orders[id]))}
    ensures checker.keys == FillChecker.Without(old(checker.keys), {MonitorKeyOf(old(db.orders[id]))})
    ensures checker.currentPrice == old(checker.currentPrice) && checker.lastUpdateTime == old(checker.lastUpdateTime)
  {
    var order := db.orders[id];
    checker.StopMonitoring(MonitorKeyOf(order));
    db.orders := db.orders[id := order.(status := Cancelled)];
  }

  /** The cancelling loop's state after the first `i` listed orders. */
  ghost predicate CancelledSoFar(db: Database, checker: FillChecker.OrderFillChecker<MonitorKey, FillCallback>,
                                 orders: map<int, Order>, table: map<MonitorKey, FillChecker.Check<FillCallback>>,
                                 keys: seq<MonitorKey>, ids: seq<int>, i: nat)
    reads db, checker
  {
    && i <= |ids| && db.Valid() && checker.Valid()
    && (forall k :: 0 <= k < |ids| ==> ids[k] in orders)
    && db.orders == CancelIds(orders, ids[..i])
    && checker.pendingChecks == table - KeysOf(orders, ids[..i])
    && checker.keys == FillChecker.Without(keys, KeysOf(orders, ids[..i]))
  }

  /** One turn of the cancelling loop: the `i`-th listed order. */
  method CancelNext(db: Database, checker: FillChecker.OrderFillChecker<MonitorKey, FillCallback>,
                    ghost orders: map<int, Order>, ghost table: map<MonitorKey, FillChecker.Check<FillCallback>>,
                    ghost keys: seq<MonitorKey>, ids: seq<int>, i: nat)
    requires i < |ids| && CancelledSoFar(db, checker, orders, table, keys, ids, i)
    modifies db, checker
    ensures CancelledSoFar(db, checker, orders, table, keys, ids, i + 1)
    ensures db.strategies == old(db.strategies) && db.trades == old(db.trades)
    ensures db.nextOrderId == old(db.nextOrderId) && db.nextStrategyId == old(db.nextStrategyId) && db.nextTradeId == old(db.nextTradeId)
    ensures checker.currentPrice == old(checker.currentPrice) && checker.lastUpdateTime == old(checker.lastUpdateTime)
  {
    var id := ids[i];
    assert id in orders && db.orders[id].(status := Cancelled) == orders[id].(status := Cancelled);
    FillChecker.WithoutTwice(keys, KeysOf(orders, ids[..i]), {MonitorKeyOf(orders[id])});
    CancelPrefixStep(orders, ids, i);
    CancelOrder(db, checker, id);
  }

  /** The cancelling loop: each listed order stops being monitored and becomes CANCELLED. */
  method CancelListed(db: Database, checker: FillChecker.OrderFillChecker<MonitorKey, FillCallback>, ids: seq<int>)
    requires db.Valid() && checker.Valid()
    requires forall k :: 0 <= k < |ids| ==> ids[k] in db.orders
    modifies db, checker
    ensures db.Valid() && checker.Valid()
    ensures db.strategies == old(db.strategies) && db.trades == old(db.trades)
    ensures db.nextOrderId == old(db.nextOrderId) && db.nextStrategyId == old(db.nextStrategyId) && db.nextTradeId == old(db.nextTradeId)
    ensures db.orders == CancelIds(old(db.orders), ids)
    ensures checker.pendingChecks == old(checker.pendingChecks) - KeysOf(old(db.orders), ids)
    ensures checker.keys == FillChecker.Without(old(checker.keys), KeysOf(old(db.orders), ids))
    ensures checker.currentPrice == old(checker.currentPrice) && checker.lastUpdateTime == old(checker.lastUpdateTime)
  {
    ghost var orders, table, keys := db.orders, checker.pendingChecks, checker.keys;
    FillChecker.WithoutNothing(keys, {});
    assert KeysOf(orders, ids[..0]) == {};
    assert CancelIds(orders, ids[..0]) == orders;
    var i := 0;
    while i < |ids|
      invariant CancelledSoFar(db, checker, orders, table, keys, ids, i)
      invariant db.strategies == old(db.strategies) && db.trades == old(db.trades)
      invariant db.nextOrderId == old(db.nextOrderId) && db.nextStrategyId == old(db.nextStrategyId) && db.nextTradeId == old(db.nextTradeId)
      invariant checker.currentPrice == old(checker.currentPrice) && checker.lastUpdateTime == old(checker.lastUpdateTime)
    {
      CancelNext(db, checker, orders, table, keys, ids, i);
      i := i + 1;
    }
    assert ids[..i] == ids;
  }

  /**
   * The stop routine's cancellation: every PENDING order of the strategy
   * stops being monitored and becomes CANCELLED; returns how many.
   */
  method CancelPendingOrders(db: Database, checker: FillChecker.OrderFillChecker<MonitorKey, FillCallback>,
                             strategyId: int)
    returns (cancelled: nat)
    requires db.Valid() && checker.Valid()
    modifies db, checker
    ensures db.Valid() && checker.Valid()
    ensures db.strategies == old(db.strategies) && db.trades == old(db.trades)
    ensures db.nextOrderId == old(db.nextOrderId) && db.nextStrategyId == old(db.nextStrategyId) && db.nextTradeId == old(db.nextTradeId)
    ensures db.orders == CancelPending(old(db.orders), strategyId)
    ensures checker.pendingChecks == old(checker.pendingChecks) - PendingKeys(old(db.orders), strategyId)
    ensures checker.keys == FillChecker.Without(old(checker.keys), PendingKeys(old(db.orders), strategyId))
    ensures checker.currentPrice == old(checker.currentPrice) && checker.lastUpdateTime == old(checker.lastUpdateTime)
    ensures cancelled == |PendingSet(old(db.orders), strategyId)|
  {
    var pending := PendingOrderIds(db.orders, strategyId, db.nextOrderId);
    PendingIdsPresent(db.orders, strategyId, db.nextOrderId);
    CancelAllPending(db.orders, strategyId, db.nextOrderId);
    CancelListed(db, checker, pending);
    cancelled := |pending|;
  }

  /**
   * The bookkeeping of the fill handler: the order becomes FILLED, a trade is
   * recorded at the fill price with the profit of a paired SELL, and the
   * strategy's trade count and total profit grow.
   */
  method RecordFill(db: Database, orderId: int, strategyId: int, fillPrice: real) returns (profit: real)
    requires db.Valid() && orderId in db.orders && strategyId in db.strategies
    modifies db
    ensures db.Valid()
    ensures var o := old(db.orders[orderId]);
      && profit == FillProfit(o, old(db.orders))
      && db.orders == old(db.orders)[orderId := o.(status := Filled)]
      && db.trades == old(db.trades)[old(db.nextTradeId) :=
           Trade(old(db.nextTradeId), strategyId, orderId, o.side, fillPrice, o.qty, profit)]
    ensures var s := old(db.strategies[strategyId]);
      db.strategies == old(db.strategies)[strategyId :=
        s.(totalProfit := s.totalProfit + profit, totalTrades := s.totalTrades + 1)]
    ensures db.nextOrderId == old(db.nextOrderId) && db.nextTradeId == old(db.nextTradeId) + 1
    ensures db.nextStrategyId == old(db.nextStrategyId)
  {
    var order := db.orders[orderId];
    var strategy := db.strategies[strategyId];
    db.orders := db.orders[orderId := order.(status := Filled)];
    profit := 0.0;
    if order.side == Sell && order.pairedOrderId.Some? && order.pairedOrderId.value != 0 {
      if order.pairedOrderId.value in db.orders {
        profit := (order.price - db.orders[order.pairedOrderId.value].price) * order.qty;
        strategy := strategy.(totalProfit := strategy.totalProfit + profit);
      }
    }
    var _ := db.InsertTrade(Trade(0, strategyId, orderId, order.side, fillPrice, order.qty, profit));
    strategy := strategy.(totalTrades := strategy.totalTrades + 1);
    db.strategies := db.strategies[strategyId := strategy];
  }

  /**
   * The replenishment step of the fill handler: the order one grid step
   * away on the other side is written under the next id and monitored, when
   * it stays inside the band.
   */
  method Replenish(db: Database, checker: FillChecker.OrderFillChecker<MonitorKey, FillCallback>, order: Order,
                   strategy: Strategy, strategyId: int, gridStep: int, now: real)
    requires db.Valid() && checker.Valid()
    modifies db, checker
    ensures db.Valid() && checker.Valid()
    ensures db.strategies == old(db.strategies) && db.trades == old(db.trades)
    ensures db.nextStrategyId == old(db.nextStrategyId) && db.nextTradeId == old(db.nextTradeId)
    ensures Replenishment(order, strategy, strategyId, gridStep).None? ==>
      db.orders == old(db.orders) && db.nextOrderId == old(db.nextOrderId) &&
      checker.pendingChecks == old(checker.pendingChecks) && checker.keys == old(checker.keys)
    ensures Replenishment(order, strategy, strategyId, gridStep).Some? ==>
      var o := Replenishment(order, strategy, strategyId, gridStep).value.(id := old(db.nextOrderId));
      db.orders == old(db.orders)[o.id := o] && db.nextOrderId == old(db.nextOrderId) + 1 &&
      checker.pendingChecks == old(checker.pendingChecks)[MonitorKeyOf(o) := MonitorCheck(o, strategyId, now)] &&
      checker.keys == FillChecker.InsertKey(old(checker.keys), MonitorKeyOf(o))
    ensures checker.currentPrice == old(checker.currentPrice) && checker.lastUpdateTime == old(checker.lastUpdateTime)
  {
    var next: Option<Order> := None;
    if order.side == Buy {
      var newPrice := order.price + gridStep as real;
      if newPrice <= strategy.upperPrice {
        next := Some(Order(0, Some(strategyId), strategy.symbol, Sell, newPrice, order.qty, OrderTypeLimit, Pending,
                           None, ShiftLevel(order.gridLevel, 1), Some(order.id), false));
      }
    } else {
      var newPrice := order.price - gridStep as real;
      if newPrice >= strategy.lowerPrice {
        next := Some(Order(0, Some(strategyId), strategy.symbol, Buy, newPrice,
                           QtyPerGrid(strategy.investmentPerGrid, newPrice), OrderTypeLimit, Pending, None,
                           ShiftLevel(order.gridLevel, -1), None, true));
      }
    }
    assert next == Replenishment(order, strategy, strategyId, gridStep);
    if next.Some? {
      var newId := db.InsertOrder(next.value);
      RegisterFillMonitor(checker, db.orders[newId], strategyId, now);
    }
  }

  class GridStrategyExecutor {
    /** The running grids by strategy id. */
    var activeStrategies: map<int, ActiveStrategy>

    constructor ()
      ensures activeStrategies == map[]
    {
      activeStrategies := map[];
    }

    /**
     * Starts the grid of a RUNNING strategy: lays out the levels, takes the
     * reference price from the interceptor, places the orders and records
     * the grid as active. A missing strategy or one in another status is
     * refused with nothing changed.
     */
    method StartStrategy<L>(db: Database, checker: FillChecker.OrderFillChecker<MonitorKey, FillCallback>,
                            interceptor: PriceInterceptor.PriceInterceptor<L>, strategyId: int, now: real,
                            botRunning: bool, placementErrors: map<nat, string>)
      returns (result: StartResult, events: seq<Event>)
      requires db.Valid() && checker.Valid() && interceptor.Valid()
      modifies this, db, checker
      ensures db.Valid() && checker.Valid()
      ensures strategyId !in old(db.strategies) ==>
        result == StartFailed(StrategyMissing) && events == [] && unchanged(this, db, checker)
      ensures strategyId in old(db.strategies) && old(db.strategies[strategyId]).status != Running ==>
        result == StartFailed(NotRunning(old(db.strategies[strategyId]).status)) && events == [] &&
        unchanged(this, db, checker)
      ensures strategyId in old(db.strategies) && old(db.strategies[strategyId]).status == Running ==>
        var s := old(db.strategies[strategyId]);
        var levels := GridLevels(s.upperPrice, s.lowerPrice, s.gridCount);
        var reference := ReferencePrice(interceptor.GetCurrentPrice(), interceptor.GetAge(now), s.upperPrice, s.lowerPrice);
        var plan := Plan(levels, reference, levels[1] - levels[0], |levels|);
        var first := old(db.nextOrderId);
        && result == Started(|plan|, levels)
        && db.strategies == old(db.strategies) && db.trades == old(db.trades)
        && db.nextOrderId == first + |plan|
        && db.orders == PlacedRows(old(db.orders), s, plan, first, botRunning, placementErrors, |plan|)
        && db.nextStrategyId == old(db.nextStrategyId) && db.nextTradeId == old(db.nextTradeId)
        && checker.pendingChecks == Registered(old(checker.pendingChecks), s, plan, first, botRunning, placementErrors, now, |plan|)
        && checker.keys == RegisteredKeyOrder(old(checker.keys), s, plan, first, botRunning, placementErrors, |plan|)
        && checker.currentPrice == old(checker.currentPrice) && checker.lastUpdateTime == old(checker.lastUpdateTime)
        && events == CreatedEvents(s, plan, first, botRunning, placementErrors, |plan|) + [StrategyStarted(strategyId, |plan|)]
        && activeStrategies == old(activeStrategies)[strategyId := ActiveStrategy(levels, reference)]
    {
      if strategyId !in db.strategies {
        return StartFailed(StrategyMissing), [];
      }
      var s := db.strategies[strategyId];
      if s.status != Running {
        return StartFailed(NotRunning(s.status)), [];
      }
      var levels := CalculateGridLevels(s.upperPrice, s.lowerPrice, s.gridCount);
      var currentPrice := interceptor.GetCurrentPrice();
      var age := interceptor.GetAge(now);
      var reference := ReferencePrice(currentPrice, age, s.upperPrice, s.lowerPrice);
      var placed;
      placed, events := PlaceGridOrders(db, checker, s, levels, reference, botRunning, placementErrors, now);
      activeStrategies := activeStrategies[strategyId := ActiveStrategy(levels, reference)];
      events := events + [StrategyStarted(strategyId, placed)];
      result := Started(placed, levels);
    }

    /**
     * Handles the fill of an order of a RUNNING strategy at `fillPrice`: the
     * order becomes FILLED, a trade is recorded with the profit of a paired
     * SELL, the strategy's trade count (and profit) grow, and the
     * replenishment order one grid step away is written and monitored when it
     * stays inside the band. Nothing happens if the order or the strategy is
     * missing or the strategy is not RUNNING.
     */
    method OnOrderFilled(db: Database, checker: FillChecker.OrderFillChecker<MonitorKey, FillCallback>,
                         orderId: int, strategyId: int, fillPrice: real, now: real)
      returns (events: seq<Event>)
      requires db.Valid() && checker.Valid()
      modifies db, checker
      ensures db.Valid() && checker.Valid()
      ensures orderId !in old(db.orders) || strategyId !in old(db.strategies) ||
              old(db.strategies[strategyId]).status != Running ==>
        events == [] && unchanged(db, checker)
      ensures orderId in old(db.orders) && strategyId in old(db.strategies) &&
              old(db.strategies[strategyId]).status == Running ==>
        var o := old(db.orders[orderId]);
        var s := old(db.strategies[strategyId]);
        var profit := FillProfit(o, old(db.orders));
        var next := Replenishment(o, s, strategyId, GridStep(GridLevels(s.upperPrice, s.lowerPrice, s.gridCount)));
        var filled := old(db.orders)[orderId := o.(status := Filled)];
        var newId := old(db.nextOrderId);
        && db.strategies == old(db.strategies)[strategyId :=
             s.(totalProfit := s.totalProfit + profit, totalTrades := s.totalTrades + 1)]
        && db.trades == old(db.trades)[old(db.nextTradeId) :=
             Trade(old(db.nextTradeId), strategyId, orderId, o.side, fillPrice, o.qty, profit)]
        && db.nextTradeId == old(db.nextTradeId) + 1 && db.nextStrategyId == old(db.nextStrategyId)
        && (next.None? ==> db.orders == filled && db.nextOrderId == newId &&
                           checker.pendingChecks == old(checker.pendingChecks) && checker.keys == old(checker.keys))
        && (next.Some? ==>
             db.orders == filled[newId := next.value.(id := newId)] && db.nextOrderId == newId + 1 &&
             checker.pendingChecks == old(checker.pendingChecks)[MonitorKeyOf(next.value.(id := newId)) :=
                                                                 MonitorCheck(next.value.(id := newId), strategyId, now)] &&
             checker.keys == FillChecker.InsertKey(old(checker.keys), MonitorKeyOf(next.value.(id := newId))))
        && checker.currentPrice == old(checker.currentPrice) && checker.lastUpdateTime == old(checker.lastUpdateTime)
        && events == [OrderFilled(strategyId, orderId, o.side, fillPrice, profit)]
    {
      if orderId !in db.orders || strategyId !in db.strategies {
        return [];
      }
      var order := db.orders[orderId];
      var strategy := db.strategies[strategyId];
      if strategy.status != Running {
        return [];
      }
      var profit := RecordFill(db, orderId, strategyId, fillPrice);
      var levels := CalculateGridLevels(strategy.upperPrice, strategy.lowerPrice, strategy.gridCount);
      var gridStep := if |levels| > 1 then levels[1] - levels[0] else 0;
      Replenish(db, checker, order, strategy, strategyId, gridStep, now);
      events := [OrderFilled(strategyId, orderId, order.side, fillPrice, profit)];
    }

    /**
     * Stops a grid: every PENDING order of the strategy stops being
     * monitored and becomes CANCELLED, and the grid is no longer active.
     * When the commit fails the order changes are rolled back (the monitors
     * stay stopped and the grid inactive) and the stop reports failure.
     */
    method StopStrategy(db: Database, checker: FillChecker.OrderFillChecker<MonitorKey, FillCallback>,
                        strategyId: int, commitOk: bool)
      returns (result: StopResult)
      requires db.Valid() && checker.Valid()
      modifies this, db, checker
      ensures db.Valid() && checker.Valid()
      ensures db.strategies == old(db.strategies) && db.trades == old(db.trades)
      ensures db.nextOrderId == old(db.nextOrderId)
      ensures db.nextStrategyId == old(db.nextStrategyId) && db.nextTradeId == old(db.nextTradeId)
      ensures checker.pendingChecks == old(checker.pendingChecks) - PendingKeys(old(db.orders), strategyId)
      ensures checker.keys == FillChecker.Without(old(checker.keys), PendingKeys(old(db.orders), strategyId))
      ensures checker.currentPrice == old(checker.currentPrice) && checker.lastUpdateTime == old(checker.lastUpdateTime)
      ensures activeStrategies == old(activeStrategies) - {strategyId}
      ensures commitOk ==>
        db.orders == CancelPending(old(db.orders), strategyId) &&
        result == StopSucceeded(|PendingSet(old(db.orders), strategyId)|)
      ensures !commitOk ==> db.orders == old(db.orders) && result == StopFailed
    {
      var saved := db.orders;
      var cancelled := CancelPendingOrders(db, checker, strategyId);
      if strategyId in activeStrategies {
        activeStrategies := activeStrategies - {strategyId};
      }
      if commitOk {
        result := StopSucceeded(cancelled);
      } else {
        db.orders := saved;
        result := StopFailed;
      }
    }

    /** The recorded state of a running grid, if the strategy has one. */
    function GetStrategyStatus(strategyId: int): (r: Option<ActiveStrategy>)
      reads this
      ensures r.Some? <==> strategyId in activeStrategies
      ensures r.Some? ==> r.value == activeStrategies[strategyId]
    {
      if strategyId in activeStrategies then Some(activeStrategies[strategyId]) else None
    }
  }
}
