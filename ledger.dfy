/**
 * The paper-trading ledger as values: the fill-price rule, the position update
 * a fill makes, the mark-to-market refresh and the account aggregates. The
 * engine class in module PaperTrading is proved against these functions.
 * Decimal arithmetic is modelled by `real`, exactly.
 */
module Ledger {
  import opened Models

  /** Adverse slippage applied to every MARKET fill: 0.05%. */
  const Slippage: real := 0.0005

  const LimitPriceRequired: string := "Limit orders require a price"
  const InsufficientBalance: string := "Insufficient balance"
  const ExecutionErrorPrefix: string := "Execution error: "

  /** The text of Python's decimal exception for `x / 0` with `x != 0`. */
  const DivisionByZeroText: string := "[<class 'decimal.DivisionByZero'>]"
  /** The text of Python's decimal exception for `0 / 0`. */
  const DivisionUndefinedText: string := "[<class 'decimal.DivisionUndefined'>]"

  /** The text of the error for the quotient `x / d` when `d == 0`. */
  function DivisionErrorText(x: real): string {
    if x == 0.0 then DivisionUndefinedText else DivisionByZeroText
  }

  /** The outcome of asking the market-data collaborator for a symbol's last price. */
  datatype Quote = Quoted(lastPrice: real) | QuoteFailed(reason: string)

  /** Account state: the cash balance and the open positions by symbol. */
  datatype Account = Account(balance: real, book: map<string, PositionState>)

  /** What a ledger update leaves: the account, the final state of a position
      it closed, and the text of the exception it raised part-way, if any. */
  datatype Step = Step(account: Account, closed: Option<PositionState>, raised: Option<string>)

  /** What executing an order yields: no fill (with the note the order gets), or
      a fill at `price` followed by the ledger update `step`. */
  datatype Execution =
    | NotFilled(note: string)
    | Executed(price: real, step: Step)

  // ---------------------------------------------------------------------------
  // Fill price
  // ---------------------------------------------------------------------------

  /** The deterministic fill price: MARKET with slippage against the trader,
      LIMIT at the better of limit and market, any other type at market. */
  function ExecutionPrice(orderType: OrderType, side: OrderSide, market: real, limit: Option<real>)
    : (r: Result<real, string>)
    ensures r.Failure? <==> orderType == Limit && limit.None?
    ensures r.Failure? ==> r.error == LimitPriceRequired
    ensures orderType == Market && side == Buy ==> r == Success(market + market * Slippage)
    ensures orderType == Market && side == Sell ==> r == Success(market - market * Slippage)
    ensures orderType == Limit && r.Success? ==> r.value == limit.value || r.value == market
    ensures orderType == Limit && r.Success? && side == Buy ==>
      r.value <= limit.value && r.value <= market
    ensures orderType == Limit && r.Success? && side == Sell ==>
      r.value >= limit.value && r.value >= market
    ensures orderType == StopMarket || orderType == StopLimit ==> r == Success(market)
  {
    match orderType
    case Market =>
      if side == Buy then Success(market * (1.0 + Slippage)) else Success(market * (1.0 - Slippage))
    case Limit =>
      if limit.None? then Failure(LimitPriceRequired)
      else if side == Buy then Success(Min(limit.value, market))
      else Success(Max(limit.value, market))
    case _ => Success(market)
  }

  function Min(a: real, b: real): real { if a <= b then a else b }
  function Max(a: real, b: real): real { if a >= b then a else b }

  /** A MARKET BUY never fills below the quote, a MARKET SELL never above it. */
  lemma MarketSlippageIsAdverse(side: OrderSide, market: real)
    requires market >= 0.0
    ensures var r := ExecutionPrice(Market, side, market, None);
      r.Success? && (side == Buy ==> r.value >= market) && (side == Sell ==> r.value <= market)
  {
  }

  // ---------------------------------------------------------------------------
  // Ledger update
  // ---------------------------------------------------------------------------

  /** A position the engine opens: entry and current price at the fill. */
  function Opened(side: PositionSide, quantity: real, price: real): PositionState {
    PositionState(side, quantity, price, price, 0.0, 0.0)
  }

  /** The position update after a fill of `qty` at `exec`. The side of an
      existing position is never consulted: a BUY adds to whatever is held
      (recomputing the entry price after the quantity has already grown), a SELL
      reduces or closes it with the LONG P&L formula, and the excess of an
      oversell is dropped. */
  function ApplyFill(a: Account, symbol: string, side: OrderSide, qty: real, exec: real): (r: Step)
    ensures forall s :: s != symbol ==> (s in r.account.book <==> s in a.book)
    ensures forall s :: s != symbol && s in a.book ==> r.account.book[s] == a.book[s]
    ensures symbol !in r.account.book <==> r.closed.Some?
    ensures r.closed.Some? <==> side == Sell && symbol in a.book && qty >= a.book[symbol].quantity
    ensures r.raised.Some? ==> side == Buy && symbol in a.book && r.account.balance == a.balance
  {
    match side
    case Buy =>
      if symbol in a.book then
        var p := a.book[symbol];
        var grown := p.(quantity := p.quantity + qty);
        var totalValue := p.entryPrice * grown.quantity;
        var newValue := exec * qty;
        var divisor := grown.quantity + qty;
        if divisor == 0.0 then
          Step(Account(a.balance, a.book[symbol := grown]), None, Some(DivisionErrorText(totalValue + newValue)))
        else
          var added := grown.(entryPrice := (totalValue + newValue) / divisor);
          Step(Account(a.balance - exec * qty, a.book[symbol := added]), None, None)
      else
        Step(Account(a.balance - exec * qty, a.book[symbol := Opened(Long, qty, exec)]), None, None)
    case Sell =>
      if symbol in a.book then
        var p := a.book[symbol];
        if qty >= p.quantity then
          var pnl := (exec - p.entryPrice) * p.quantity;
          Step(Account(a.balance + exec * p.quantity, a.book - {symbol}),
               Some(p.(realizedPnl := p.realizedPnl + pnl)), None)
        else
          var reduced := p.(quantity := p.quantity - qty);
          var pnl := (exec - p.entryPrice) * qty;
          Step(Account(a.balance + exec * qty, a.book[symbol := reduced.(realizedPnl := p.realizedPnl + pnl)]),
               None, None)
      else
        Step(Account(a.balance + exec * qty, a.book[symbol := Opened(Short, qty, exec)]), None, None)
  }

  /** A BUY on a symbol with no position opens a LONG at the fill price and
      debits exactly the notional. */
  lemma BuyOpensLong(a: Account, symbol: string, qty: real, exec: real)
    requires symbol !in a.book
    ensures var r := ApplyFill(a, symbol, Buy, qty, exec);
      r.raised.None? && r.closed.None? &&
      r.account.balance == a.balance - exec * qty &&
      r.account.book == a.book[symbol := Opened(Long, qty, exec)]
  {
  }

  /** A BUY on a held symbol, whatever its side, grows the quantity by the order
      quantity and sets the entry price to the formula the code computes:
      `(entry * (q + qty) + exec * qty) / (q + 2 * qty)`. */
  lemma BuyAddsToPosition(a: Account, symbol: string, qty: real, exec: real)
    requires symbol in a.book
    requires a.book[symbol].quantity + 2.0 * qty != 0.0
    ensures var p := a.book[symbol];
      var r := ApplyFill(a, symbol, Buy, qty, exec);
      r.raised.None? && r.closed.None? && r.account.balance == a.balance - exec * qty &&
      r.account.book.Keys == a.book.Keys &&
      r.account.book[symbol] == p.(quantity := p.quantity + qty,
                                   entryPrice := (p.entryPrice * (p.quantity + qty) + exec * qty)
                                                 / (p.quantity + 2.0 * qty))
  {
  }

  /** The added-to entry price is not the volume-weighted average of the fills:
      one unit at 100 plus one unit at 200 gives 400/3, not 150. */
  lemma AddedEntryIsNotVolumeWeighted()
    ensures var a := Account(1000.0, map["BTCUSDT" := Opened(Long, 1.0, 100.0)]);
      var r := ApplyFill(a, "BTCUSDT", Buy, 1.0, 200.0);
      r.account.book["BTCUSDT"].entryPrice == 400.0 / 3.0 &&
      r.account.book["BTCUSDT"].entryPrice != (100.0 * 1.0 + 200.0 * 1.0) / (1.0 + 1.0)
  {
  }

  /** The only exception the update can raise is the division by zero of the
      entry-price recomputation, which needs `q + 2 * qty == 0`; the grown
      quantity stays in the book and the balance is not debited. */
  lemma BuyAddDivisionByZero(a: Account, symbol: string, qty: real, exec: real)
    requires symbol in a.book
    requires a.book[symbol].quantity + 2.0 * qty == 0.0
    ensures var p := a.book[symbol];
      var r := ApplyFill(a, symbol, Buy, qty, exec);
      r.raised.Some? && r.account.balance == a.balance &&
      r.account.book == a.book[symbol := p.(quantity := p.quantity + qty)]
  {
  }

  /** A SELL of at least the held quantity closes the position: the balance is
      credited with the held quantity at the fill price, the realized P&L grows
      by `(exec - entry) * held` whatever the position's side, the symbol leaves
      the book, and the excess quantity is discarded. */
  lemma SellClosesFully(a: Account, symbol: string, qty: real, exec: real)
    requires symbol in a.book && qty >= a.book[symbol].quantity
    ensures var p := a.book[symbol];
      var r := ApplyFill(a, symbol, Sell, qty, exec);
      r.raised.None? &&
      r.account.balance == a.balance + exec * p.quantity && r.account.book == a.book - {symbol} &&
      r.closed.Some? && r.closed.value == p.(realizedPnl := p.realizedPnl + (exec - p.entryPrice) * p.quantity)
  {
    var p := a.book[symbol];
    var r := ApplyFill(a, symbol, Sell, qty, exec);
    assert r.closed.value == p.(realizedPnl := p.realizedPnl + (exec - p.entryPrice) * p.quantity);
  }

  /** A SELL of less than the held quantity reduces it and realizes the P&L of
      the sold part; the position stays open. */
  lemma SellReducesPartially(a: Account, symbol: string, qty: real, exec: real)
    requires symbol in a.book && qty < a.book[symbol].quantity
    ensures var p := a.book[symbol];
      var r := ApplyFill(a, symbol, Sell, qty, exec);
      r.raised.None? && r.closed.None? && r.account.balance == a.balance + exec * qty &&
      r.account.book.Keys == a.book.Keys &&
      r.account.book[symbol] == p.(quantity := p.quantity - qty,
                                   realizedPnl := p.realizedPnl + (exec - p.entryPrice) * qty)
  {
  }

  /** A SELL on an unheld symbol opens a SHORT at the fill price and credits the
      proceeds. */
  lemma SellOpensShort(a: Account, symbol: string, qty: real, exec: real)
    requires symbol !in a.book
    ensures var r := ApplyFill(a, symbol, Sell, qty, exec);
      r.raised.None? && r.closed.None? &&
      r.account.balance == a.balance + exec * qty &&
      r.account.book == a.book[symbol := Opened(Short, qty, exec)]
  {
  }

  /** Every position in the book has a positive quantity. */
  ghost predicate PositiveBook(book: map<string, PositionState>) {
    forall s :: s in book ==> book[s].quantity > 0.0
  }

  /** With a positive order quantity the update never raises and keeps every
      position's quantity positive. */
  lemma PositiveFillKeepsBookPositive(a: Account, symbol: string, side: OrderSide, qty: real, exec: real)
    requires PositiveBook(a.book) && qty > 0.0
    ensures var r := ApplyFill(a, symbol, side, qty, exec);
      r.raised.None? && PositiveBook(r.account.book)
  {
    var r := ApplyFill(a, symbol, side, qty, exec);
    forall s | s in r.account.book
      ensures r.account.book[s].quantity > 0.0
    {
      if s != symbol {
        assert r.account.book[s] == a.book[s];
      }
    }
  }

  // ---------------------------------------------------------------------------
  // Executing an order
  // ---------------------------------------------------------------------------

  /** Execute an order against a quote: fetch, price, check affordability (for
      either side), then fill and update the ledger. */
  function Execute(a: Account, t: OrderTerms, quote: Quote): (r: Execution)
    ensures quote.QuoteFailed? ==> r == NotFilled(ExecutionErrorPrefix + quote.reason)
    ensures quote.Quoted? && t.orderType == Limit && t.price.None? ==>
      r == NotFilled(ExecutionErrorPrefix + LimitPriceRequired)
    ensures r.Executed? ==>
      && quote.Quoted?
      && ExecutionPrice(t.orderType, t.side, quote.lastPrice, t.price) == Success(r.price)
      && r.price * t.quantity <= a.balance
      && r.step == ApplyFill(a, t.symbol, t.side, t.quantity, r.price)
    ensures quote.Quoted? ==>
      var x := ExecutionPrice(t.orderType, t.side, quote.lastPrice, t.price);
      x.Success? && x.value * t.quantity <= a.balance ==> r.Executed? && r.price == x.value
    ensures r == NotFilled(InsufficientBalance) <==>
      && quote.Quoted?
      && var x := ExecutionPrice(t.orderType, t.side, quote.lastPrice, t.price);
         x.Success? && x.value * t.quantity > a.balance
  {
    match quote
    case QuoteFailed(reason) =>
      assert (ExecutionErrorPrefix + reason)[0] != InsufficientBalance[0];
      NotFilled(ExecutionErrorPrefix + reason)
    case Quoted(market) =>
      match ExecutionPrice(t.orderType, t.side, market, t.price)
      case Failure(e) =>
        assert (ExecutionErrorPrefix + e)[0] != InsufficientBalance[0];
        NotFilled(ExecutionErrorPrefix + e)
      case Success(x) =>
        if x * t.quantity > a.balance then NotFilled(InsufficientBalance)
        else Executed(x, ApplyFill(a, t.symbol, t.side, t.quantity, x))
  }

  /** The account after an execution: untouched unless the order was filled. */
  function AccountAfter(a: Account, r: Execution): Account {
    match r
    case NotFilled(_) => a
    case Executed(_, step) => step.account
  }

  /** The order's fields after an execution. A fill sets FILLED, the whole
      quantity, the fill price and a synthetic `paper_` id before the ledger is
      touched; an exception during the update then turns the status to REJECTED
      with the fill fields left in place. */
  function OrderAfter(o: OrderRecord, r: Execution, paperToken: string): (o': OrderRecord)
    ensures o'.terms == o.terms
    ensures o'.status == Filled || o'.status == Rejected
    ensures o'.status == Filled <==> r.Executed? && r.step.raised.None?
    ensures r.Executed? ==> o'.filledQuantity == o.terms.quantity && o'.averageFillPrice == Some(r.price)
    ensures r.NotFilled? ==> o' == o.(status := Rejected, notes := Some(r.note))
    ensures r.Executed? ==> o'.exchangeOrderId == Some("paper_" + paperToken)
    ensures r.Executed? && r.step.raised.Some? ==> o'.notes == Some(ExecutionErrorPrefix + r.step.raised.value)
    ensures r.Executed? && r.step.raised.None? ==> o'.notes == o.notes
  {
    match r
    case NotFilled(note) => o.(status := Rejected, notes := Some(note))
    case Executed(price, step) => RecordFill(o, price, step.raised, paperToken)
  }

  /** The order's fields after a fill at `price` whose ledger update raised
      `raised`, if anything. */
  function RecordFill(o: OrderRecord, price: real, raised: Option<string>, paperToken: string): OrderRecord {
    var filled := o.(status := Filled, filledQuantity := o.terms.quantity,
                     averageFillPrice := Some(price), exchangeOrderId := Some("paper_" + paperToken));
    if raised.Some? then filled.(status := Rejected, notes := Some(ExecutionErrorPrefix + raised.value))
    else filled
  }

  /** A rejected or failed order never touches the ledger: when no fill
      happens the account is the one before. */
  lemma NoFillLeavesAccount(a: Account, t: OrderTerms, quote: Quote)
    requires Execute(a, t, quote).NotFilled?
    ensures AccountAfter(a, Execute(a, t, quote)) == a
  {
  }

  /** Filling never lets an order's filled quantity exceed its quantity. */
  lemma FilledQuantityBounded(o: OrderRecord, a: Account, quote: Quote, paperToken: string)
    requires o.filledQuantity <= o.terms.quantity
    ensures var o' := OrderAfter(o, Execute(a, o.terms, quote), paperToken);
      o'.filledQuantity <= o'.terms.quantity
  {
  }

  /** The affordability check applies to SELL orders too: a SELL that would
      close a held position is rejected when its notional exceeds the balance,
      although the fill would credit the balance. */
  lemma SellCheckedForAffordability(a: Account, t: OrderTerms, market: real)
    requires t.side == Sell && t.orderType == Market && t.symbol in a.book
    requires market * (1.0 - Slippage) * t.quantity > a.balance
    ensures Execute(a, t, Quoted(market)) == NotFilled(InsufficientBalance)
  {
  }

  /** Round trip: a MARKET BUY then a MARKET SELL of the same quantity at the
      same quote, on a symbol with no position, restores the book and costs the
      balance exactly the two slippages, `2 * 0.0005 * market * qty`. */
  lemma MarketRoundTripCostsSlippage(a: Account, symbol: string, qty: real, market: real)
    requires symbol !in a.book
    requires market * (1.0 + Slippage) * qty <= a.balance
    requires market * (1.0 - Slippage) * qty <= a.balance - market * (1.0 + Slippage) * qty
    ensures var buy := Execute(a, OrderTerms(symbol, Buy, Market, qty, None), Quoted(market));
      var a1 := AccountAfter(a, buy);
      var sell := Execute(a1, OrderTerms(symbol, Sell, Market, qty, None), Quoted(market));
      var a2 := AccountAfter(a1, sell);
      buy.Executed? && sell.Executed? &&
      a2 == Account(a.balance - 2.0 * Slippage * market * qty, a.book)
  {
    var buy := Execute(a, OrderTerms(symbol, Buy, Market, qty, None), Quoted(market));
    var a1 := AccountAfter(a, buy);
    BuyOpensLong(a, symbol, qty, market * (1.0 + Slippage));
    assert a1.book[symbol].quantity == qty;
    SellClosesFully(a1, symbol, qty, market * (1.0 - Slippage));
    assert a1.book - {symbol} == a.book;
  }

  /** A buy-then-sell example, as the code runs it: from 10000 USDT,
      BUY 0.1 BTCUSDT at a quote of 50000 fills at 50025 and leaves 4997.50.
      The SELL 0.1 at 51000 would fill at 50974.50, but its notional 5097.45
      exceeds the balance, so it is rejected and the LONG stays open. */
  lemma BuyThenSellScenario()
    ensures var a0 := Account(10000.0, map[]);
      var buy := Execute(a0, OrderTerms("BTCUSDT", Buy, Market, 0.1, None), Quoted(50000.0));
      var a1 := AccountAfter(a0, buy);
      && buy.Executed? && buy.price == 50025.0
      && a1 == Account(4997.5, map["BTCUSDT" := Opened(Long, 0.1, 50025.0)])
      && Execute(a1, OrderTerms("BTCUSDT", Sell, Market, 0.1, None), Quoted(51000.0)) == NotFilled(InsufficientBalance)
  {
    BuyOpensLong(Account(10000.0, map[]), "BTCUSDT", 0.1, 50025.0);
  }

  /** The same trades from 20000 USDT: the SELL is affordable, fills at
      50974.50, realizes 94.95 and leaves 20094.95 with no position open. */
  lemma FundedBuyThenSellScenario()
    ensures var a0 := Account(20000.0, map[]);
      var buy := Execute(a0, OrderTerms("BTCUSDT", Buy, Market, 0.1, None), Quoted(50000.0));
      var a1 := AccountAfter(a0, buy);
      var sell := Execute(a1, OrderTerms("BTCUSDT", Sell, Market, 0.1, None), Quoted(51000.0));
      && a1 == Account(14997.5, map["BTCUSDT" := Opened(Long, 0.1, 50025.0)])
      && sell.Executed? && sell.price == 50974.5
      && sell.step.account == Account(20094.95, map[])
      && sell.step.closed.Some? && sell.step.closed.value.realizedPnl == 94.95
  {
    BuyOpensLong(Account(20000.0, map[]), "BTCUSDT", 0.1, 50025.0);
    var a1 := Account(14997.5, map["BTCUSDT" := Opened(Long, 0.1, 50025.0)]);
    SellClosesFully(a1, "BTCUSDT", 0.1, 50974.5);
    assert a1.book - {"BTCUSDT"} == map[];
  }

  // ---------------------------------------------------------------------------
  // Mark to market
  // ---------------------------------------------------------------------------

  /** A position marked to `price`: LONG gains when the price rises above the
      entry, SHORT when it falls below. */
  function Refresh(p: PositionState, price: real): (r: PositionState)
    ensures r.quantity == p.quantity && r.entryPrice == p.entryPrice
    ensures r.side == p.side && r.realizedPnl == p.realizedPnl
    ensures r.currentPrice == price
    ensures r.unrealizedPnl ==
      if p.side == Long then (price - p.entryPrice) * p.quantity else (p.entryPrice - price) * p.quantity
    ensures p.quantity > 0.0 ==>
      (r.unrealizedPnl > 0.0 <==> (p.side == Long && price > p.entryPrice) || (p.side == Short && price < p.entryPrice))
  {
    var gain := if p.side == Long then price - p.entryPrice else p.entryPrice - price;
    ProductPositive(gain, p.quantity);
    assert gain > 0.0 <==> (p.side == Long && price > p.entryPrice) || (p.side == Short && price < p.entryPrice);
    p.(currentPrice := price, unrealizedPnl := gain * p.quantity)
  }

  /** A product with a positive factor is positive exactly when the other factor is. */
  lemma ProductPositive(x: real, q: real)
    ensures q > 0.0 ==> (x * q > 0.0 <==> x > 0.0)
  {
    if q > 0.0 && x <= 0.0 {
      assert x * q <= 0.0 * q;
    }
  }

  /** The unrealized P&L is recomputed from the position, never adjusted: the
      previous value and the previous current price do not matter, and a
      second refresh at the same price changes nothing. */
  lemma RefreshIsRecomputed(p: PositionState, price: real, u: real, c: real)
    ensures Refresh(p.(unrealizedPnl := u, currentPrice := c), price) == Refresh(p, price)
    ensures Refresh(Refresh(p, price), price) == Refresh(p, price)
  {
  }

  /** For the same quantity, entry and price, LONG and SHORT unrealized P&L
      have equal magnitude and opposite sign. */
  lemma LongShortUnrealizedOpposite(p: PositionState, price: real)
    ensures Refresh(p.(side := Long), price).unrealizedPnl == -Refresh(p.(side := Short), price).unrealizedPnl
  {
  }

  /** The realized P&L, by contrast, ignores the side: reducing a SHORT by a SELL
      realizes `(exec - entry) * qty` exactly as for a LONG. */
  lemma SellOnShortUsesLongFormula(a: Account, symbol: string, qty: real, exec: real)
    requires symbol in a.book && a.book[symbol].side == Short
    requires 0.0 < qty < a.book[symbol].quantity
    ensures var p := a.book[symbol];
      var q := ApplyFill(a, symbol, Sell, qty, exec).account.book[symbol];
      q.side == Short && q.realizedPnl - p.realizedPnl == (exec - p.entryPrice) * qty
  {
    SellReducesPartially(a, symbol, qty, exec);
  }

  /** One position after its quote: refreshed on a price, unchanged on a
      failed fetch. */
  function RefreshOne(p: PositionState, quote: Quote): PositionState {
    match quote
    case Quoted(price) => Refresh(p, price)
    case QuoteFailed(_) => p
  }

  /** Every position marked against its own quote; a failed fetch for one
      symbol does not prevent the others from being refreshed. */
  function RefreshAll(book: map<string, PositionState>, quote: string -> Quote): (r: map<string, PositionState>)
    ensures r.Keys == book.Keys
    ensures forall s :: s in book && quote(s).QuoteFailed? ==> r[s] == book[s]
    ensures forall s :: s in book && quote(s).Quoted? ==> r[s] == Refresh(book[s], quote(s).lastPrice)
  {
    map s | s in book :: RefreshOne(book[s], quote(s))
  }

  // ---------------------------------------------------------------------------
  // Aggregates
  // ---------------------------------------------------------------------------

  datatype PnlKind = RealizedPnl | UnrealizedPnl

  /** One P&L column of the book. */
  function PnlColumn(book: map<string, PositionState>, kind: PnlKind): (m: map<string, real>)
    ensures m.Keys == book.Keys
  {
    map s | s in book :: if kind == RealizedPnl then book[s].realizedPnl else book[s].unrealizedPnl
  }

  /** The part of `m` whose keys are in `keys`. */
  function Restrict(m: map<string, real>, keys: set<string>): map<string, real> {
    map s | s in keys && s in m :: m[s]
  }

  /** The sum of the values of a map, in no particular order. */
  ghost function SumValues(m: map<string, real>): real
    decreases |m|
  {
    if m == map[] then 0.0
    else
      var k :| k in m;
      assert (m - {k}).Keys == m.Keys - {k};
      m[k] + SumValues(m - {k})
  }

  /** Any key can be taken out of the sum first. */
  lemma {:induction false} SumValuesRemove(m: map<string, real>, k: string)
    requires k in m
    ensures SumValues(m) == m[k] + SumValues(m - {k})
    decreases |m|
  {
    var j :| j in m && SumValues(m) == m[j] + SumValues(m - {j});
    if j != k {
      assert (m - {j}).Keys == m.Keys - {j};
      assert (m - {k}).Keys == m.Keys - {k};
      SumValuesRemove(m - {j}, k);
      SumValuesRemove(m - {k}, j);
      assert m - {j} - {k} == m - {k} - {j};
    }
  }

  /** Replacing one value changes the sum by the difference. */
  lemma SumValuesUpdate(m: map<string, real>, k: string, v: real)
    ensures k in m ==> SumValues(m[k := v]) == SumValues(m) - m[k] + v
    ensures k !in m ==> SumValues(m[k := v]) == SumValues(m) + v
  {
    SumValuesRemove(m[k := v], k);
    if k in m {
      SumValuesRemove(m, k);
      assert m[k := v] - {k} == m - {k};
    } else {
      assert m[k := v] - {k} == m;
    }
  }

  /** Equity: the balance plus the unrealized P&L of the open positions. */
  ghost function Equity(a: Account): real {
    a.balance + SumValues(PnlColumn(a.book, UnrealizedPnl))
  }

  /** Total P&L: realized plus unrealized, over the positions still open. */
  ghost function TotalPnl(a: Account): real {
    SumValues(PnlColumn(a.book, RealizedPnl)) + SumValues(PnlColumn(a.book, UnrealizedPnl))
  }

  /** The engine's statistics, with the ROI in percent. */
  datatype Statistics = Statistics(
    initialBalance: real,
    currentBalance: real,
    totalEquity: real,
    totalPnl: real,
    roiPercent: real,
    openPositions: nat)

  /** The statistics of an account started at `initial`; the ROI division
      raises when `initial` is zero. */
  ghost function Stats(a: Account, initial: real): Result<Statistics, string> {
    StatsFrom(initial, a.balance, Equity(a), TotalPnl(a), |a.book.Keys|)
  }

  /** The statistics from their parts. */
  function StatsFrom(initial: real, balance: real, equity: real, pnl: real, open: nat): Result<Statistics, string> {
    if initial == 0.0 then Failure(DivisionErrorText(equity - initial))
    else Success(Statistics(initial, balance, equity, pnl, (equity - initial) / initial * 100.0, open))
  }

  /** A fresh account has equity equal to its balance, no P&L and an ROI of 0. */
  lemma FreshAccountStats(initial: real)
    requires initial != 0.0
    ensures Stats(Account(initial, map[]), initial) ==
      Success(Statistics(initial, initial, initial, 0.0, 0.0, 0))
  {
    assert PnlColumn(map[], UnrealizedPnl) == map[];
    assert PnlColumn(map[], RealizedPnl) == map[];
  }

  /** For a positive start balance the ROI is positive exactly when equity is
      above it, and zero exactly at break-even. */
  lemma RoiSign(a: Account, initial: real)
    requires initial > 0.0
    ensures Stats(a, initial).Success?
    ensures Stats(a, initial).value.roiPercent > 0.0 <==> Equity(a) > initial
    ensures Stats(a, initial).value.roiPercent == 0.0 <==> Equity(a) == initial
  {
    var q := (Equity(a) - initial) / initial;
    assert q * initial == Equity(a) - initial;
  }

  /** Opening a position moves equity by its cash flow only: opening a LONG
      lowers equity by the notional paid, opening a SHORT raises it by the
      proceeds, because a new position carries no unrealized P&L. */
  lemma OpeningMovesEquityByCash(a: Account, symbol: string, side: OrderSide, qty: real, exec: real)
    requires symbol !in a.book
    ensures var r := ApplyFill(a, symbol, side, qty, exec);
      Equity(r.account) == Equity(a) + (if side == Buy then -(exec * qty) else exec * qty)
  {
    var r := ApplyFill(a, symbol, side, qty, exec);
    var posSide := if side == Buy then Long else Short;
    assert r.account.book == a.book[symbol := Opened(posSide, qty, exec)];
    assert PnlColumn(r.account.book, UnrealizedPnl) == PnlColumn(a.book, UnrealizedPnl)[symbol := 0.0];
    SumValuesUpdate(PnlColumn(a.book, UnrealizedPnl), symbol, 0.0);
  }

  /** Closing a position drops its realized and unrealized P&L from the total:
      the total P&L only covers positions still in the book. */
  lemma FullCloseDropsPnl(a: Account, symbol: string, qty: real, exec: real)
    requires symbol in a.book && qty >= a.book[symbol].quantity
    ensures var p := a.book[symbol];
      TotalPnl(ApplyFill(a, symbol, Sell, qty, exec).account) == TotalPnl(a) - p.realizedPnl - p.unrealizedPnl
  {
    var r := ApplyFill(a, symbol, Sell, qty, exec);
    assert r.account.book == a.book - {symbol};
    assert PnlColumn(r.account.book, RealizedPnl) == PnlColumn(a.book, RealizedPnl) - {symbol};
    assert PnlColumn(r.account.book, UnrealizedPnl) == PnlColumn(a.book, UnrealizedPnl) - {symbol};
    SumValuesRemove(PnlColumn(a.book, RealizedPnl), symbol);
    SumValuesRemove(PnlColumn(a.book, UnrealizedPnl), symbol);
  }

  // ---------------------------------------------------------------------------
  // The close path as written, with the P&L attributes left unset
  // ---------------------------------------------------------------------------

  /** Python's text for adding a decimal to an unset (None) attribute in place. */
  const NoneAddText: string := "unsupported operand type(s) for +=: 'NoneType' and 'decimal.Decimal'"

  /** The SELL-on-a-held-symbol path as the code runs it when the position's
      `realized_pnl` attribute is unset, as it is on every position the engine
      builds itself (the column default only fills it when a row is inserted,
      and these positions are never inserted). The balance is credited first,
      then `realized_pnl += pnl` raises: a full close leaves the position in
      the book, a partial close leaves it reduced. */
  function SellHeldAsWritten(a: Account, symbol: string, qty: real, exec: real): (r: Step)
    requires symbol in a.book
    ensures r.raised == Some(NoneAddText) && r.closed.None? && symbol in r.account.book
    ensures r.account.balance == a.balance + exec * (if qty >= a.book[symbol].quantity then a.book[symbol].quantity else qty)
    ensures r.account.book ==
      if qty >= a.book[symbol].quantity then a.book
      else a.book[symbol := a.book[symbol].(quantity := a.book[symbol].quantity - qty)]
  {
    var p := a.book[symbol];
    if qty >= p.quantity then
      Step(Account(a.balance + exec * p.quantity, a.book), None, Some(NoneAddText))
    else
      Step(Account(a.balance + exec * qty, a.book[symbol := p.(quantity := p.quantity - qty)]), None, Some(NoneAddText))
  }

  /** For every SELL on a held symbol, the as-written path credits the same
      cash as the intended update but always raises, and after a covering
      SELL keeps the position the intended update removes. */
  lemma SellHeldAsWrittenVersusIntended(a: Account, symbol: string, qty: real, exec: real)
    requires symbol in a.book
    ensures var w := SellHeldAsWritten(a, symbol, qty, exec);
      var i := ApplyFill(a, symbol, Sell, qty, exec);
      && w.account.balance == i.account.balance
      && w.raised.Some? && i.raised.None?
      && (qty >= a.book[symbol].quantity ==> symbol in w.account.book && symbol !in i.account.book)
  {
  }

  /** As written, the funded example does not close: after the BUY opened the
      LONG 0.1, the SELL credits 5097.45, raises, and leaves the LONG in the
      book, whereas the intended update removes it. */
  lemma ScenarioCloseAsWritten()
    ensures var a1 := Account(14997.5, map["BTCUSDT" := Opened(Long, 0.1, 50025.0)]);
      var asWritten := SellHeldAsWritten(a1, "BTCUSDT", 0.1, 50974.5);
      var intended := ApplyFill(a1, "BTCUSDT", Sell, 0.1, 50974.5);
      && asWritten.raised.Some?
      && asWritten.account == Account(20094.95, a1.book)
      && intended.raised.None?
      && intended.account == Account(20094.95, map[])
  {
    var a1 := Account(14997.5, map["BTCUSDT" := Opened(Long, 0.1, 50025.0)]);
    SellClosesFully(a1, "BTCUSDT", 0.1, 50974.5);
    assert a1.book - {"BTCUSDT"} == map[];
  }
}
