/**
 * Request bodies of the HTTP API and the field constraints the request
 * validator enforces before any handler runs (a failed constraint is answered
 * with 422). A JSON field that is absent is `None` in the raw request types.
 */
module Schemas {
  import opened Common

  // ---------------------------------------------------------------- orders

  /** `side` must match `^(BUY|SELL)$` as a whole string. */
  predicate ValidSide(side: string) {
    side == "BUY" || side == "SELL"
  }

  /** `order_type` must match `^(LIMIT|MARKET)$`. */
  predicate ValidOrderType(orderType: string) {
    orderType == "LIMIT" || orderType == "MARKET"
  }

  const DefaultOrderType: string := "LIMIT"

  /** An order request body as received: every field may be missing. */
  datatype RawOrder = RawOrder(
    strategyId: Option<int>,
    side: Option<string>,
    price: Option<real>,
    qty: Option<real>,
    orderType: Option<string>)

  /** A validated order body (`OrderBase`). */
  datatype OrderBase = OrderBase(
    strategyId: Option<int>,
    side: string,
    price: Option<real>,
    qty: real,
    orderType: string)

  /** Validation of an order body: `side` and `qty` are required, `order_type` defaults to LIMIT. */
  function ValidateOrder(raw: RawOrder): (r: Response<OrderBase>)
    ensures r.Ok? <==>
      raw.side.Some? && ValidSide(raw.side.value) && raw.qty.Some? &&
      (raw.orderType.None? || ValidOrderType(raw.orderType.value))
    ensures r.HttpError? ==> r.status == Unprocessable
    ensures r.Ok? ==>
      && ValidSide(r.value.side) && ValidOrderType(r.value.orderType)
      && r.value.side == raw.side.value && r.value.qty == raw.qty.value
      && r.value.strategyId == raw.strategyId && r.value.price == raw.price
      && r.value.orderType == (if raw.orderType.None? then DefaultOrderType else raw.orderType.value)
  {
    if raw.side.None? || !ValidSide(raw.side.value) || raw.qty.None? then HttpError(Unprocessable)
    else if raw.orderType.Some? && !ValidOrderType(raw.orderType.value) then HttpError(Unprocessable)
    else Ok(OrderBase(raw.strategyId, raw.side.value, raw.price, raw.qty.value, raw.orderType.GetOr(DefaultOrderType)))
  }

  // ------------------------------------------------------------ strategies

  const DefaultSymbol: string := "BTCUSDT"
  const DefaultMaxOrders: int := 50

  predicate ValidName(name: string) { 1 <= |name| <= 100 }
  predicate ValidPrice(p: real) { p > 0.0 }
  predicate ValidGridCount(n: int) { 2 <= n <= 100 }
  predicate ValidMaxOrders(n: int) { 1 <= n <= 200 }

  /** A strategy creation body as received. */
  datatype RawStrategy = RawStrategy(
    name: Option<string>,
    symbol: Option<string>,
    upperPrice: Option<real>,
    lowerPrice: Option<real>,
    gridCount: Option<int>,
    investmentPerGrid: Option<real>,
    stopLoss: Option<real>,
    takeProfit: Option<real>,
    maxOrders: Option<int>)

  /** A strategy creation body after defaults are filled in (`StrategyCreate`). */
  datatype StrategyCreate = StrategyCreate(
    name: string,
    symbol: string,
    upperPrice: real,
    lowerPrice: real,
    gridCount: int,
    investmentPerGrid: real,
    stopLoss: Option<real>,
    takeProfit: Option<real>,
    maxOrders: int)

  /** The field constraints of `StrategyBase`. */
  predicate ValidStrategyCreate(s: StrategyCreate) {
    && ValidName(s.name)
    && ValidPrice(s.upperPrice)
    && ValidPrice(s.lowerPrice)
    && ValidGridCount(s.gridCount)
    && ValidPrice(s.investmentPerGrid)
    && ValidMaxOrders(s.maxOrders)
  }

  /** Validation of a creation body: required fields present, defaults applied, every bound checked. */
  function ValidateStrategyCreate(raw: RawStrategy): (r: Response<StrategyCreate>)
    ensures r.Ok? <==>
      && raw.name.Some? && ValidName(raw.name.value)
      && raw.upperPrice.Some? && ValidPrice(raw.upperPrice.value)
      && raw.lowerPrice.Some? && ValidPrice(raw.lowerPrice.value)
      && raw.gridCount.Some? && ValidGridCount(raw.gridCount.value)
      && raw.investmentPerGrid.Some? && ValidPrice(raw.investmentPerGrid.value)
      && (raw.maxOrders.None? || ValidMaxOrders(raw.maxOrders.value))
    ensures r.HttpError? ==> r.status == Unprocessable
    ensures r.Ok? ==> ValidStrategyCreate(r.value)
    ensures r.Ok? ==>
      && r.value.symbol == (if raw.symbol.Some? then raw.symbol.value else DefaultSymbol)
      && r.value.maxOrders == (if raw.maxOrders.Some? then raw.maxOrders.value else DefaultMaxOrders)
      && r.value.name == raw.name.value
      && r.value.upperPrice == raw.upperPrice.value && r.value.lowerPrice == raw.lowerPrice.value
      && r.value.gridCount == raw.gridCount.value
      && r.value.investmentPerGrid == raw.investmentPerGrid.value
      && r.value.stopLoss == raw.stopLoss && r.value.takeProfit == raw.takeProfit
  {
    if raw.name.None? || raw.upperPrice.None? || raw.lowerPrice.None? || raw.gridCount.None?
       || raw.investmentPerGrid.None?
    then HttpError(Unprocessable)
    else
      var s := StrategyCreate(
        raw.name.value, raw.symbol.GetOr(DefaultSymbol), raw.upperPrice.value, raw.lowerPrice.value,
        raw.gridCount.value, raw.investmentPerGrid.value, raw.stopLoss, raw.takeProfit,
        raw.maxOrders.GetOr(DefaultMaxOrders));
      if ValidStrategyCreate(s) then Ok(s) else HttpError(Unprocessable)
  }

  /**
   * A field of an update body that may also be sent as an explicit JSON null:
   * left out of the body, cleared, or given a value.
   */
  datatype Patch<T> = Keep | Clear | Put(value: T)

  /** `StrategyUpdate`: every field optional; `None` means the field was not sent. */
  datatype StrategyUpdate = StrategyUpdate(
    name: Option<string>,
    upperPrice: Option<real>,
    lowerPrice: Option<real>,
    gridCount: Option<int>,
    investmentPerGrid: Option<real>,
    stopLoss: Patch<real>,
    takeProfit: Patch<real>,
    maxOrders: Option<int>)

  /** A supplied field of an update obeys the same bound as on creation. */
  predicate ValidStrategyUpdate(u: StrategyUpdate) {
    && (u.name.Some? ==> ValidName(u.name.value))
    && (u.upperPrice.Some? ==> ValidPrice(u.upperPrice.value))
    && (u.lowerPrice.Some? ==> ValidPrice(u.lowerPrice.value))
    && (u.gridCount.Some? ==> ValidGridCount(u.gridCount.value))
    && (u.investmentPerGrid.Some? ==> ValidPrice(u.investmentPerGrid.value))
    && (u.maxOrders.Some? ==> ValidMaxOrders(u.maxOrders.value))
  }

  /** The update that sends every field of a creation body. */
  function FullUpdate(c: StrategyCreate): StrategyUpdate {
    StrategyUpdate(Some(c.name), Some(c.upperPrice), Some(c.lowerPrice), Some(c.gridCount),
                   Some(c.investmentPerGrid),
                   if c.stopLoss.Some? then Put(c.stopLoss.value) else Clear,
                   if c.takeProfit.Some? then Put(c.takeProfit.value) else Clear,
                   Some(c.maxOrders))
  }

  /** The update bounds and the creation bounds agree field by field. */
  lemma UpdateBoundsMatchCreate(c: StrategyCreate)
    ensures ValidStrategyUpdate(FullUpdate(c)) <==> ValidStrategyCreate(c)
  {
  }
}
