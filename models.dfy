/**
 * The order and position records of the trading backend: the status, side and
 * type enumerations, and the two records whose fields the engine and the
 * trading service update in place.
 */
module Models {

  datatype Option<+T> = None | Some(value: T)

  /** A value, or the error the source raises instead of returning one. */
  datatype Result<+T, +E> = Success(value: T) | Failure(error: E)

  /** Order lifecycle states; PENDING is the initial one. */
  datatype OrderStatus = Pending | Filled | PartiallyFilled | Cancelled | Rejected | Expired

  datatype OrderSide = Buy | Sell

  datatype OrderType = Market | Limit | StopMarket | StopLimit

  datatype PositionSide = Long | Short

  /** The economic terms of an order: what the engine reads from it. */
  datatype OrderTerms = OrderTerms(
    symbol: string,
    side: OrderSide,
    orderType: OrderType,
    quantity: real,
    price: Option<real>)

  /** A snapshot of every field of an order that the core reads or writes. */
  datatype OrderRecord = OrderRecord(
    terms: OrderTerms,
    status: OrderStatus,
    filledQuantity: real,
    averageFillPrice: Option<real>,
    exchangeOrderId: Option<string>,
    notes: Option<string>)

  /** The value of a position's mutable fields. */
  datatype PositionState = PositionState(
    side: PositionSide,
    quantity: real,
    entryPrice: real,
    currentPrice: real,
    unrealizedPnl: real,
    realizedPnl: real)

  /** An order. Its terms are fixed at construction; its execution fields change. */
  class Order {
    const symbol: string
    const side: OrderSide
    const orderType: OrderType
    const quantity: real
    const price: Option<real>
    const stopPrice: Option<real>
    const stopLoss: Option<real>
    const takeProfit: Option<real>
    const strategyName: Option<string>
    const isPaperTrading: bool

    var status: OrderStatus
    var filledQuantity: real
    var averageFillPrice: Option<real>
    var exchangeOrderId: Option<string>
    var notes: Option<string>

    /** A new order starts PENDING with nothing filled. */
    constructor (symbol: string, side: OrderSide, orderType: OrderType, quantity: real,
                 price: Option<real>, stopLoss: Option<real>, takeProfit: Option<real>,
                 strategyName: Option<string>, isPaperTrading: bool)
      ensures Terms() == OrderTerms(symbol, side, orderType, quantity, price)
      ensures this.stopPrice == None && this.stopLoss == stopLoss && this.takeProfit == takeProfit
      ensures this.strategyName == strategyName && this.isPaperTrading == isPaperTrading
      ensures status == Pending && filledQuantity == 0.0
      ensures averageFillPrice == None && exchangeOrderId == None && notes == None
    {
      this.symbol := symbol;
      this.side := side;
      this.orderType := orderType;
      this.quantity := quantity;
      this.price := price;
      this.stopPrice := None;
      this.stopLoss := stopLoss;
      this.takeProfit := takeProfit;
      this.strategyName := strategyName;
      this.isPaperTrading := isPaperTrading;
      status := Pending;
      filledQuantity := 0.0;
      averageFillPrice := None;
      exchangeOrderId := None;
      notes := None;
    }

    function Terms(): OrderTerms {
      OrderTerms(symbol, side, orderType, quantity, price)
    }

    function Record(): OrderRecord
      reads this
    {
      OrderRecord(Terms(), status, filledQuantity, averageFillPrice, exchangeOrderId, notes)
    }
  }

  /** A position. Its symbol and side are fixed; quantity, prices and P&L change. */
  class Position {
    const symbol: string
    const side: PositionSide
    const leverage: int
    const isPaperTrading: bool
    const strategyName: Option<string>

    var quantity: real
    var entryPrice: real
    var currentPrice: real
    var unrealizedPnl: real
    var realizedPnl: real
    var isOpen: bool

    /** A new position is open and carries no P&L yet. */
    constructor (symbol: string, side: PositionSide, quantity: real, entryPrice: real,
                 currentPrice: real, leverage: int, isPaperTrading: bool,
                 strategyName: Option<string>)
      ensures this.symbol == symbol && this.leverage == leverage
      ensures this.isPaperTrading == isPaperTrading && this.strategyName == strategyName
      ensures State() == PositionState(side, quantity, entryPrice, currentPrice, 0.0, 0.0)
      ensures isOpen
    {
      this.symbol := symbol;
      this.side := side;
      this.leverage := leverage;
      this.isPaperTrading := isPaperTrading;
      this.strategyName := strategyName;
      this.quantity := quantity;
      this.entryPrice := entryPrice;
      this.currentPrice := currentPrice;
      unrealizedPnl := 0.0;
      realizedPnl := 0.0;
      isOpen := true;
    }

    function State(): PositionState
      reads this
    {
      PositionState(side, quantity, entryPrice, currentPrice, unrealizedPnl, realizedPnl)
    }
  }
}
