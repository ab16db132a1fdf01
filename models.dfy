/**
 * The persistent entities (strategies, orders, trade history) and the
 * database that holds them. The database is modelled as three in-memory
 * tables, each a map from primary key to row, with the next key to hand out.
 */
module Models {
  import opened Common
  import opened Schemas

  /** Lifecycle status of a strategy; a new row defaults to CREATED. */
  datatype StrategyStatus = Created | Running | Paused | Stopped

  /** The upper-case name stored in the `status` column. */
  function StatusName(s: StrategyStatus): string {
    match s
    case Created => "CREATED"
    case Running => "RUNNING"
    case Paused => "PAUSED"
    case Stopped => "STOPPED"
  }

  datatype Side = Buy | Sell

  /** The string stored in the `side` column. */
  function SideName(s: Side): string {
    match s
    case Buy => "BUY"
    case Sell => "SELL"
  }

  /** Order status; a new row defaults to SUBMITTING. */
  datatype OrderStatus = Submitting | Pending | Filled | Cancelled | Failed

  const StrategyTypeGrid: string := "GRID"
  const OrderTypeLimit: string := "LIMIT"

  /** A row of the `strategies` table. Times are seconds on a wall clock supplied by the caller. */
  datatype Strategy = Strategy(
    id: int,
    name: string,
    symbol: string,
    kind: string,
    status: StrategyStatus,
    upperPrice: real,
    lowerPrice: real,
    gridCount: int,
    investmentPerGrid: real,
    stopLoss: Option<real>,
    takeProfit: Option<real>,
    maxOrders: int,
    totalProfit: real,
    totalTrades: int,
    createdAt: real,
    startedAt: Option<real>,
    stoppedAt: Option<real>)

  /** A row of the `orders` table. */
  datatype Order = Order(
    id: int,
    strategyId: Option<int>,
    symbol: string,
    side: Side,
    price: real,
    qty: real,
    orderType: string,
    status: OrderStatus,
    errorMessage: Option<string>,
    gridLevel: Option<int>,
    pairedOrderId: Option<int>,
    isEntry: bool)

  /** A row of the `trade_history` table. */
  datatype Trade = Trade(
    id: int,
    strategyId: int,
    orderId: int,
    side: Side,
    price: real,
    qty: real,
    profit: real)

  /** The three tables. Primary keys start at 1 and are handed out in increasing order. */
  class Database {
    var strategies: map<int, Strategy>
    var orders: map<int, Order>
    var trades: map<int, Trade>
    var nextStrategyId: int
    var nextOrderId: int
    var nextTradeId: int

    /**
     * Every row is stored under its own id, and that id lies below the next id
     * to hand out. Every strategy keeps the grid count the request schema
     * admits (only validated values are ever written to that column).
     */
    ghost predicate Valid()
      reads this
    {
      && (forall id :: id in strategies ==> 1 <= id < nextStrategyId && strategies[id].id == id)
      && (forall id :: id in strategies ==> ValidGridCount(strategies[id].gridCount))
      && (forall id :: id in orders ==> 1 <= id < nextOrderId && orders[id].id == id)
      && (forall id :: id in trades ==> 1 <= id < nextTradeId && trades[id].id == id)
      && nextStrategyId >= 1 && nextOrderId >= 1 && nextTradeId >= 1
    }

    constructor ()
      ensures Valid()
      ensures strategies == map[] && orders == map[] && trades == map[]
      ensures nextStrategyId == 1 && nextOrderId == 1 && nextTradeId == 1
    {
      strategies, orders, trades := map[], map[], map[];
      nextStrategyId, nextOrderId, nextTradeId := 1, 1, 1;
    }

    /** Adds a strategy row under a fresh id (`db.add` followed by a flush). */
    method InsertStrategy(s: Strategy) returns (id: int)
      requires Valid() && ValidGridCount(s.gridCount)
      modifies this
      ensures Valid()
      ensures id == old(nextStrategyId) && id !in old(strategies)
      ensures strategies == old(strategies)[id := s.(id := id)]
      ensures nextStrategyId == old(nextStrategyId) + 1
      ensures orders == old(orders) && trades == old(trades)
      ensures nextOrderId == old(nextOrderId) && nextTradeId == old(nextTradeId)
    {
      id := nextStrategyId;
      strategies := strategies[id := s.(id := id)];
      nextStrategyId := nextStrategyId + 1;
    }

    /** Adds an order row under a fresh id. */
    method InsertOrder(o: Order) returns (id: int)
      requires Valid()
      modifies this
      ensures Valid()
      ensures id == old(nextOrderId) && id !in old(orders)
      ensures orders == old(orders)[id := o.(id := id)]
      ensures nextOrderId == old(nextOrderId) + 1
      ensures strategies == old(strategies) && trades == old(trades)
      ensures nextStrategyId == old(nextStrategyId) && nextTradeId == old(nextTradeId)
    {
      id := nextOrderId;
      orders := orders[id := o.(id := id)];
      nextOrderId := nextOrderId + 1;
    }

    /** Adds a trade-history row under a fresh id. */
    method InsertTrade(t: Trade) returns (id: int)
      requires Valid()
      modifies this
      ensures Valid()
      ensures id == old(nextTradeId) && id !in old(trades)
      ensures trades == old(trades)[id := t.(id := id)]
      ensures nextTradeId == old(nextTradeId) + 1
      ensures strategies == old(strategies) && orders == old(orders)
      ensures nextStrategyId == old(nextStrategyId) && nextOrderId == old(nextOrderId)
    {
      id := nextTradeId;
      trades := trades[id := t.(id := id)];
      nextTradeId := nextTradeId + 1;
    }
  }
}
