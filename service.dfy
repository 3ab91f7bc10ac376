/**
 * The trading service: pre-trade risk checks, order creation routed to the
 * paper engine or to the exchange, cancellation, and the portfolio figures.
 * The repositories and the exchange client are outside the model: their calls
 * are recorded in two logs, and what the exchange answers is passed in.
 */
module Trading {
  import opened Models
  import opened Ledger
  import opened PaperTrading

  /** The configuration the service reads. */
  datatype Settings = Settings(maxPositionSizeUsd: real, maxOpenPositions: int, enablePaperTrading: bool)

  /** The bounds the configuration loader enforces on the two limits. */
  predicate WithinConfigBounds(s: Settings) {
    s.maxPositionSizeUsd > 0.0 && 1 <= s.maxOpenPositions <= 10
  }

  // ---------------------------------------------------------------------------
  // Risk checks
  // ---------------------------------------------------------------------------

  /** The notional the size check uses: quantity times the order's price, or
      zero when the order carries none. */
  function Notional(quantity: real, price: Option<real>): real {
    quantity * (if price.Some? then price.value else 0.0)
  }

  /** The two refusals of the risk check. */
  datatype RiskError =
    | PositionTooLarge(notional: real, limit: real)
    | TooManyOpenPositions(maxOpen: int)

  /** The pre-trade risk check: the notional limit first, then the cap on open
      positions, which only a BUY can hit. `openPositions` is the number of
      open positions the position repository reports. */
  function ValidateOrder(side: OrderSide, quantity: real, price: Option<real>, openPositions: nat, s: Settings)
    : (r: Option<RiskError>)
    ensures r.None? <==>
      Notional(quantity, price) <= s.maxPositionSizeUsd && (openPositions < s.maxOpenPositions || side == Sell)
    ensures Notional(quantity, price) > s.maxPositionSizeUsd ==>
      r == Some(PositionTooLarge(Notional(quantity, price), s.maxPositionSizeUsd))
    ensures r == Some(TooManyOpenPositions(s.maxOpenPositions)) <==>
      Notional(quantity, price) <= s.maxPositionSizeUsd && openPositions >= s.maxOpenPositions && side == Buy
  {
    var notional := Notional(quantity, price);
    if notional > s.maxPositionSizeUsd then Some(PositionTooLarge(notional, s.maxPositionSizeUsd))
    else if openPositions >= s.maxOpenPositions && side == Buy then Some(TooManyOpenPositions(s.maxOpenPositions))
    else
      assert side == Sell || openPositions < s.maxOpenPositions;
      None
  }

  /** The position cap never refuses a SELL, so a position can always be
      closed: a SELL fails only on its notional. */
  lemma SellNeverBlockedByCap(quantity: real, price: Option<real>, openPositions: nat, s: Settings)
    ensures var r := ValidateOrder(Sell, quantity, price, openPositions, s);
      r.Some? ==> r.value.PositionTooLarge?
  {
  }

  /** An order without a price has notional zero and, under the configured
      positive limit, always passes the size check. */
  lemma UnpricedOrderPassesSizeCheck(side: OrderSide, quantity: real, openPositions: nat, s: Settings)
    requires WithinConfigBounds(s)
    ensures var r := ValidateOrder(side, quantity, None, openPositions, s);
      r.Some? ==> r.value.TooManyOpenPositions?
  {
  }

  /** An order accepted with some number of open positions is accepted with
      fewer. */
  lemma FewerOpenPositionsStillAccepted(side: OrderSide, quantity: real, price: Option<real>,
                                        openPositions: nat, fewer: nat, s: Settings)
    requires fewer <= openPositions
    requires ValidateOrder(side, quantity, price, openPositions, s).None?
    ensures ValidateOrder(side, quantity, price, fewer, s).None?
  {
  }

  // ---------------------------------------------------------------------------
  // The outside world
  // ---------------------------------------------------------------------------

  /** A call to the exchange client. */
  datatype ExchangeCall =
    | PlaceOrderCall(symbol: string, side: OrderSide, orderType: OrderType, quantity: real,
                     price: Option<real>, stopLoss: Option<real>, takeProfit: Option<real>)
    | CancelOrderCall(symbol: string, exchangeOrderId: string)

  /** A call to the order repository, with the order's fields at that moment. */
  datatype RepoCall = CreateCall(record: OrderRecord) | UpdateCall(record: OrderRecord)

  /** What the exchange answers to a placement: the id it assigned, if the
      answer carries one, or the text of the exception raised. */
  datatype Placement = Placed(orderId: Option<string>) | PlacementFailed(message: string)

  /** What the exchange answers to a cancel request. */
  datatype CancelAck = CancelAcked | CancelFailed(message: string)

  /** The wallet figures the exchange reports, where present. */
  datatype Wallet = Wallet(totalEquity: Option<real>, totalPerpUpl: Option<real>)

  // ---------------------------------------------------------------------------
  // Order lifecycle as values
  // ---------------------------------------------------------------------------

  /** A new order as stored: PENDING, nothing filled (the column defaults). */
  function InitialRecord(t: OrderTerms): (o: OrderRecord)
    ensures o.terms == t && o.status == Pending && o.filledQuantity == 0.0
  {
    OrderRecord(t, Pending, 0.0, None, None, None)
  }

  /** The order after a live placement: still PENDING with the exchange's id,
      or REJECTED with the error text; the failure is not raised further. */
  function LiveOutcome(o: OrderRecord, p: Placement): (o': OrderRecord)
    ensures o'.terms == o.terms && o'.filledQuantity == o.filledQuantity
    ensures o'.averageFillPrice == o.averageFillPrice
    ensures o'.status == Pending <==> p.Placed?
    ensures o'.status == Rejected <==> p.PlacementFailed?
    ensures p.Placed? ==> o'.exchangeOrderId == p.orderId && o'.notes == o.notes
    ensures p.PlacementFailed? ==> o'.notes == Some(p.message) && o'.exchangeOrderId == o.exchangeOrderId
  {
    match p
    case Placed(id) => o.(exchangeOrderId := id, status := Pending)
    case PlacementFailed(message) => o.(status := Rejected, notes := Some(message))
  }

  /** The text of Python's error for reading `.value` on a plain string. */
  const NoValueAttributeText: string := "'str' object has no attribute 'value'"

  /** The live placement as written, with the exchange calls it makes. The
      order enumerations derive from the SQL column type `Enum`, not from
      Python's enumeration base, so a side is a plain string without `.value`.
      Reading it while the exchange call's arguments are built raises inside
      the `try`: the exchange is never called, and the order is REJECTED with
      that error whatever the exchange would have answered. */
  function LiveOutcomeAsWritten(o: OrderRecord): (r: (OrderRecord, seq<ExchangeCall>))
    ensures r.0 == LiveOutcome(o, PlacementFailed(NoValueAttributeText))
    ensures r.1 == []
  {
    (o.(status := Rejected, notes := Some(NoValueAttributeText)), [])
  }

  /** As written no live order reaches the exchange and every one ends
      REJECTED; the intended placement leaves an acknowledged order PENDING
      with the exchange's id. */
  lemma LiveOrderNeverPlacedAsWritten(o: OrderRecord, id: Option<string>)
    ensures LiveOutcomeAsWritten(o).0.status == Rejected && LiveOutcomeAsWritten(o).1 == []
    ensures LiveOutcome(o, Placed(id)).status == Pending && LiveOutcome(o, Placed(id)).exchangeOrderId == id
  {
  }

  /** Whether the order carries a non-empty exchange id. */
  predicate HasExchangeId(o: OrderRecord) {
    o.exchangeOrderId.Some? && o.exchangeOrderId.value != ""
  }

  /** Why a cancel fails. */
  datatype CancelError =
    | OrderNotFound(orderId: int)
    | CannotCancel(status: OrderStatus)
    | ExchangeFailure(message: string)

  /** Cancelling a stored order: only a PENDING one; in live mode the exchange
      is asked first when the order carries an exchange id, and its failure
      is raised with the order left as it was. */
  function Cancellation(o: OrderRecord, paper: bool, ack: CancelAck): (r: Result<OrderRecord, CancelError>)
    ensures r.Success? ==> r.value == o.(status := Cancelled)
  {
    if o.status != Pending then Failure(CannotCancel(o.status))
    else if !paper && HasExchangeId(o) && ack.CancelFailed? then Failure(ExchangeFailure(ack.message))
    else Success(o.(status := Cancelled))
  }

  /** Only a PENDING order can be cancelled; a cancelled one ends CANCELLED
      with every other field as it was. In paper mode, and in live mode for
      an order the exchange never acknowledged, cancelling a PENDING order
      always succeeds. */
  lemma CancelOnlyPending(o: OrderRecord, paper: bool, ack: CancelAck)
    ensures Cancellation(o, paper, ack).Success? ==> o.status == Pending
    ensures o.status != Pending ==> Cancellation(o, paper, ack) == Failure(CannotCancel(o.status))
    ensures o.status == Pending && (paper || !HasExchangeId(o) || ack.CancelAcked?) ==>
      Cancellation(o, paper, ack) == Success(o.(status := Cancelled))
  {
  }

  /** A cancelled order cannot be cancelled again. */
  lemma CancelTwiceFails(o: OrderRecord, paper: bool, ack: CancelAck, ack': CancelAck)
    requires Cancellation(o, paper, ack).Success?
    ensures Cancellation(Cancellation(o, paper, ack).value, paper, ack') == Failure(CannotCancel(Cancelled))
  {
  }

  /** The exchange calls a cancel makes: one, in live mode, for a PENDING order
      that carries an exchange id. */
  function CancelCalls(o: OrderRecord, paper: bool): seq<ExchangeCall> {
    if o.status == Pending && !paper && HasExchangeId(o) then [CancelOrderCall(o.terms.symbol, o.exchangeOrderId.value)]
    else []
  }

  /** The figures `get_portfolio_stats` returns. */
  datatype PortfolioStats =
    | PaperStats(statistics: Result<Statistics, string>)
    | LiveStats(balance: real, unrealizedPnl: real)

  function OrZero(x: Option<real>): real {
    if x.Some? then x.value else 0.0
  }

  // ---------------------------------------------------------------------------
  // The service
  // ---------------------------------------------------------------------------

  class TradingService {
    const engine: PaperTradingEngine
    const settings: Settings
    var repoLog: seq<RepoCall>
    var exchangeLog: seq<ExchangeCall>

    constructor (engine: PaperTradingEngine, settings: Settings)
      ensures this.engine == engine && this.settings == settings
      ensures repoLog == [] && exchangeLog == []
    {
      this.engine := engine;
      this.settings := settings;
      repoLog := [];
      exchangeLog := [];
    }

    /** Create and execute an order. The risk check runs first and a refused
        order is neither stored nor executed; an accepted one is stored,
        executed by the paper engine or placed on the exchange, and stored
        again. `openPositions` is what the position repository reports,
        `quote` the paper engine's market price, `paperToken` the random part
        of a paper exchange id, and `placement` the exchange's answer. */
    method CreateOrder(symbol: string, side: OrderSide, orderType: OrderType, quantity: real,
                       price: Option<real>, stopLoss: Option<real>, takeProfit: Option<real>,
                       strategyName: Option<string>, openPositions: nat, quote: Quote,
                       paperToken: string, placement: Placement)
      returns (r: Result<Order, RiskError>)
      requires engine.Valid()
      modifies this, engine, engine.positions.Values
      ensures engine.Valid()
      ensures var risk := ValidateOrder(side, quantity, price, openPositions, settings);
        risk.Some? ==>
          && r == Failure(risk.value)
          && repoLog == old(repoLog) && exchangeLog == old(exchangeLog)
          && engine.balance == old(engine.balance) && engine.positions == old(engine.positions)
          && engine.Book() == old(engine.Book())
      ensures var risk := ValidateOrder(side, quantity, price, openPositions, settings);
        var t := OrderTerms(symbol, side, orderType, quantity, price);
        risk.None? ==>
          && r.Success? && fresh(r.value) && r.value.isPaperTrading == settings.enablePaperTrading
          && r.value.stopLoss == stopLoss && r.value.takeProfit == takeProfit
          && repoLog == old(repoLog) + [CreateCall(InitialRecord(t)), UpdateCall(r.value.Record())]
          && (settings.enablePaperTrading ==>
                var e := Execute(old(engine.Account()), t, quote);
                && r.value.Record() == OrderAfter(InitialRecord(t), e, paperToken)
                && engine.balance == AccountAfter(old(engine.Account()), e).balance
                && engine.Book() == AccountAfter(old(engine.Account()), e).book
                && exchangeLog == old(exchangeLog))
          && (!settings.enablePaperTrading ==>
                && r.value.Record() == LiveOutcome(InitialRecord(t), placement)
                && engine.balance == old(engine.balance) && engine.positions == old(engine.positions)
                && engine.Book() == old(engine.Book())
                && exchangeLog == old(exchangeLog)
                     + [PlaceOrderCall(symbol, side, orderType, quantity, price, stopLoss, takeProfit)])
    {
      var risk := ValidateOrder(side, quantity, price, openPositions, settings);
      if risk.Some? {
        return Failure(risk.value);
      }
      var order := new Order(symbol, side, orderType, quantity, price, stopLoss, takeProfit,
                             strategyName, settings.enablePaperTrading);
      repoLog := repoLog + [CreateCall(order.Record())];
      RouteOrder(order, quote, paperToken, placement);
      repoLog := repoLog + [UpdateCall(order.Record())];
      r := Success(order);
    }

    /** Execute a stored order: by the paper engine in paper mode, on the
        exchange otherwise. */
    method RouteOrder(order: Order, quote: Quote, paperToken: string, placement: Placement)
      requires engine.Valid()
      modifies this, order, engine, engine.positions.Values
      ensures engine.Valid() && repoLog == old(repoLog)
      ensures settings.enablePaperTrading ==>
        var e := Execute(old(engine.Account()), order.Terms(), quote);
        && order.Record() == OrderAfter(old(order.Record()), e, paperToken)
        && engine.balance == AccountAfter(old(engine.Account()), e).balance
        && engine.Book() == AccountAfter(old(engine.Account()), e).book
        && exchangeLog == old(exchangeLog)
      ensures !settings.enablePaperTrading ==>
        && order.Record() == LiveOutcome(old(order.Record()), placement)
        && engine.balance == old(engine.balance) && engine.positions == old(engine.positions)
        && engine.Book() == old(engine.Book())
        && exchangeLog == old(exchangeLog) + [PlaceOrderCall(order.symbol, order.side, order.orderType,
                                                             order.quantity, order.price, order.stopLoss,
                                                             order.takeProfit)]
    {
      if settings.enablePaperTrading {
        engine.ExecuteOrder(order, quote, paperToken);
      } else {
        ExecuteLiveOrder(order, placement);
      }
    }

    /** Place an order on the exchange. Success leaves it PENDING with the id
        the exchange returned; any failure marks it REJECTED with the error
        text and is not raised further. */
    method ExecuteLiveOrder(order: Order, placement: Placement)
      modifies this, order
      ensures order.Record() == LiveOutcome(old(order.Record()), placement)
      ensures exchangeLog == old(exchangeLog) + [PlaceOrderCall(order.symbol, order.side, order.orderType,
                                                                order.quantity, order.price, order.stopLoss,
                                                                order.takeProfit)]
      ensures repoLog == old(repoLog)
    {
      exchangeLog := exchangeLog + [PlaceOrderCall(order.symbol, order.side, order.orderType, order.quantity,
                                                   order.price, order.stopLoss, order.takeProfit)];
      match placement
      case Placed(id) =>
        order.exchangeOrderId := id;
        order.status := Pending;
      case PlacementFailed(message) =>
        order.status := Rejected;
        order.notes := Some(message);
    }

    /** Cancel the order the repository found under `orderId` (`null` when
        there is none); `ack` is the exchange's answer should it be asked. */
    method CancelOrder(orderId: int, order: Order?, ack: CancelAck) returns (r: Result<Order, CancelError>)
      modifies this, order
      ensures order == null ==>
        r == Failure(OrderNotFound(orderId)) && repoLog == old(repoLog) && exchangeLog == old(exchangeLog)
      ensures order != null ==>
        var c := Cancellation(old(order.Record()), settings.enablePaperTrading, ack);
        && exchangeLog == old(exchangeLog) + CancelCalls(old(order.Record()), settings.enablePaperTrading)
        && (c.Success? ==> r == Success(order) && order.Record() == c.value
                           && repoLog == old(repoLog) + [UpdateCall(c.value)])
        && (c.Failure? ==> r == Failure(c.error) && order.Record() == old(order.Record())
                           && repoLog == old(repoLog))
    {
      if order == null {
        return Failure(OrderNotFound(orderId));
      }
      if order.status != Pending {
        return Failure(CannotCancel(order.status));
      }
      if !settings.enablePaperTrading && order.exchangeOrderId.Some? && order.exchangeOrderId.value != "" {
        exchangeLog := exchangeLog + [CancelOrderCall(order.symbol, order.exchangeOrderId.value)];
        if ack.CancelFailed? {
          return Failure(ExchangeFailure(ack.message));
        }
      }
      order.status := Cancelled;
      repoLog := repoLog + [UpdateCall(order.Record())];
      r := Success(order);
    }

    /** The portfolio figures: the paper engine's statistics in paper mode,
        the wallet's equity and unrealized P&L (zero where absent) otherwise. */
    method GetPortfolioStats(wallet: Wallet) returns (r: PortfolioStats)
      requires engine.Valid()
      ensures settings.enablePaperTrading ==> r == PaperStats(Stats(engine.Account(), engine.initialBalance))
      ensures !settings.enablePaperTrading ==>
        r == LiveStats(OrZero(wallet.totalEquity), OrZero(wallet.totalPerpUpl))
    {
      if settings.enablePaperTrading {
        var stats := engine.GetStatistics();
        r := PaperStats(stats);
      } else {
        r := LiveStats(OrZero(wallet.totalEquity), OrZero(wallet.totalPerpUpl));
      }
    }
  }
}
