/**
 * The paper-trading engine: a cash balance, a fixed starting balance and a
 * dictionary of open positions by symbol, updated in place by order fills and
 * price refreshes. Each method is proved against the value-level functions of
 * module Ledger.
 */
module PaperTrading {
  import opened Models
  import opened Ledger

  /** The starting balance of the process-wide engine, in USDT. */
  const DefaultInitialBalance: real := 10000.0

  class PaperTradingEngine {
    var balance: real
    const initialBalance: real
    var positions: map<string, Position>

    /** Each open position is filed under its own symbol, no position object is
        filed twice, and every position in the dictionary is open. */
    ghost predicate Valid()
      reads this, positions.Values
    {
      && (forall s :: s in positions ==> positions[s].symbol == s && positions[s].isOpen)
      && (forall s, t :: s in positions && t in positions && s != t ==> positions[s] != positions[t])
    }

    /** The open positions as values. */
    function Book(): (b: map<string, PositionState>)
      reads this, positions.Values
      ensures b.Keys == positions.Keys
    {
      map s | s in positions :: positions[s].State()
    }

    function Account(): Ledger.Account
      reads this, positions.Values
    {
      Ledger.Account(balance, Book())
    }

    /** A new engine holds its starting balance and no positions. */
    constructor (initialBalance: real)
      ensures Valid()
      ensures this.initialBalance == initialBalance
      ensures Account() == Ledger.Account(initialBalance, map[])
    {
      balance := initialBalance;
      this.initialBalance := initialBalance;
      positions := map[];
    }

    /** The process-wide engine starts with the default balance. */
    constructor Default()
      ensures Valid()
      ensures initialBalance == DefaultInitialBalance
      ensures Account() == Ledger.Account(DefaultInitialBalance, map[])
    {
      balance := DefaultInitialBalance;
      initialBalance := DefaultInitialBalance;
      positions := map[];
    }

    /** Execute `order` against `quote`. `paperToken` stands for the random hex
        that makes up the synthetic exchange id. Every failure is caught and
        recorded on the order as REJECTED. */
    method ExecuteOrder(order: Order, quote: Quote, paperToken: string)
      requires Valid()
      modifies this, order, positions.Values
      ensures Valid()
      ensures var r := Execute(old(Account()), order.Terms(), quote);
        && balance == AccountAfter(old(Account()), r).balance
        && Book() == AccountAfter(old(Account()), r).book
        && order.Record() == OrderAfter(old(order.Record()), r, paperToken)
        && (r.Executed? && r.step.closed.Some? ==>
              var p := old(positions)[order.symbol];
              p.State() == r.step.closed.value && !p.isOpen)
      ensures forall s :: s in positions && s in old(positions) ==> positions[s] == old(positions)[s]
      ensures fresh(positions.Values - old(positions.Values))
    {
      ghost var a := Account();
      ghost var r := Execute(a, order.Terms(), quote);
      match quote
      case QuoteFailed(reason) =>
        assert r == NotFilled(ExecutionErrorPrefix + reason);
        order.status := Rejected;
        order.notes := Some(ExecutionErrorPrefix + reason);
        assert Book() == a.book;
      case Quoted(currentPrice) =>
        var priced := ExecutionPrice(order.orderType, order.side, currentPrice, order.price);
        if priced.Failure? {
          assert r == NotFilled(ExecutionErrorPrefix + priced.error);
          order.status := Rejected;
          order.notes := Some(ExecutionErrorPrefix + priced.error);
          assert Book() == a.book;
          return;
        }
        var executionPrice := priced.value;
        var positionValue := executionPrice * order.quantity;
        if positionValue > balance {
          assert r == NotFilled(InsufficientBalance);
          order.status := Rejected;
          order.notes := Some(InsufficientBalance);
          assert Book() == a.book;
          return;
        }
        assert r == Executed(executionPrice, ApplyFill(a, order.symbol, order.side, order.quantity, executionPrice));
        var _ := FillOrder(order, executionPrice, paperToken);
    }

    /** Record the fill on the order (FILLED, whole quantity, fill price,
        synthetic id), then update the ledger; an exception raised by the
        update turns the order REJECTED with the fill fields left in place. */
    method FillOrder(order: Order, executionPrice: real, paperToken: string) returns (raised: Option<string>)
      requires Valid()
      modifies this, order, positions.Values
      ensures Valid()
      ensures order.Record() == RecordFill(old(order.Record()), executionPrice, raised, paperToken)
      ensures var step := ApplyFill(old(Account()), order.symbol, order.side, order.quantity, executionPrice);
        && balance == step.account.balance
        && Book() == step.account.book
        && raised == step.raised
        && (step.closed.Some? ==>
              var p := old(positions)[order.symbol];
              p.State() == step.closed.value && !p.isOpen)
      ensures forall s :: s in positions && s in old(positions) ==> positions[s] == old(positions)[s]
      ensures fresh(positions.Values - old(positions.Values))
    {
      ghost var a := Account();
      order.status := Filled;
      order.filledQuantity := order.quantity;
      order.averageFillPrice := Some(executionPrice);
      order.exchangeOrderId := Some("paper_" + paperToken);
      ghost var filled := order.Record();
      assert Account() == a;
      raised := UpdatePositions(order, executionPrice);
      assert order.Record() == filled;
      if raised.Some? {
        order.status := Rejected;
        order.notes := Some(ExecutionErrorPrefix + raised.value);
      }
    }

    /** The ledger update for a fill of `order` at `executionPrice`; returns the
        text of the exception the update raised part-way, if any. */
    method UpdatePositions(order: Order, executionPrice: real) returns (raised: Option<string>)
      requires Valid()
      modifies this, positions.Values
      ensures Valid()
      ensures var step := ApplyFill(old(Account()), order.symbol, order.side, order.quantity, executionPrice);
        && balance == step.account.balance
        && Book() == step.account.book
        && raised == step.raised
        && (step.closed.Some? ==>
              var p := old(positions)[order.symbol];
              p.State() == step.closed.value && !p.isOpen)
      ensures forall s :: s in positions && s in old(positions) ==> positions[s] == old(positions)[s]
      ensures fresh(positions.Values - old(positions.Values))
    {
      var symbol := order.symbol;
      raised := None;
      if symbol !in positions {
        var side := if order.side == Buy then Long else Short;
        OpenPosition(symbol, side, order.quantity, executionPrice, order.strategyName);
      } else if order.side == Buy {
        raised := AddToPosition(positions[symbol], order.quantity, executionPrice);
      } else if order.quantity >= positions[symbol].quantity {
        ClosePosition(positions[symbol], order.quantity, executionPrice);
      } else {
        ReducePosition(positions[symbol], order.quantity, executionPrice);
      }
    }

    /** A fill on a symbol with no position opens one on the fill's side (LONG
        for a BUY, SHORT for a SELL); a BUY pays for it, a SELL is credited. */
    method OpenPosition(symbol: string, side: PositionSide, qty: real, exec: real,
                        strategyName: Option<string>)
      requires Valid() && symbol !in positions
      modifies this
      ensures Valid()
      ensures var step := ApplyFill(old(Account()), symbol, if side == Long then Buy else Sell, qty, exec);
        balance == step.account.balance && Book() == step.account.book && step.raised.None?
      ensures positions.Keys == old(positions.Keys) + {symbol}
      ensures forall s :: s in old(positions) ==> positions[s] == old(positions)[s]
      ensures fresh(positions[symbol])
    {
      ghost var a := Account();
      var position := new Position(symbol, side, qty, exec, exec, 1, true, strategyName);
      positions := positions[symbol := position];
      if side == Long {
        balance := balance - exec * qty;
        BuyOpensLong(a, symbol, qty, exec);
      } else {
        balance := balance + exec * qty;
        SellOpensShort(a, symbol, qty, exec);
      }
      BookMatches(a.book[symbol := Opened(side, qty, exec)]);
    }

    /** A BUY on a held symbol, whatever the side held: the quantity grows
        first, then the entry price is recomputed from the grown quantity and
        the balance is debited. The decimal division raises, before the entry
        price and the balance change, when the divisor is zero. */
    method AddToPosition(existing: Position, qty: real, exec: real) returns (raised: Option<string>)
      requires Valid() && existing.symbol in positions && positions[existing.symbol] == existing
      modifies this, existing
      ensures Valid() && positions == old(positions)
      ensures var step := ApplyFill(old(Account()), existing.symbol, Buy, qty, exec);
        balance == step.account.balance && Book() == step.account.book && raised == step.raised
    {
      ghost var a := Account();
      var symbol := existing.symbol;
      existing.quantity := existing.quantity + qty;
      var totalValue := existing.entryPrice * existing.quantity;
      var newValue := exec * qty;
      var divisor := existing.quantity + qty;
      if divisor == 0.0 {
        raised := Some(DivisionErrorText(totalValue + newValue));
        BuyAddDivisionByZero(a, symbol, qty, exec);
      } else {
        existing.entryPrice := (totalValue + newValue) / divisor;
        balance := balance - exec * qty;
        raised := None;
        BuyAddsToPosition(a, symbol, qty, exec);
      }
      ghost var step := ApplyFill(a, symbol, Buy, qty, exec);
      assert step.account.book[symbol] == existing.State();
      forall s | s in positions && s != symbol
        ensures positions[s].State() == step.account.book[s]
      {
        assert positions[s] != existing;
      }
      BookMatches(step.account.book);
    }

    /** A SELL of at least the held quantity: the balance is credited with the
        held quantity at the fill price, the P&L is realized, the position is
        closed and leaves the dictionary. */
    method ClosePosition(existing: Position, qty: real, exec: real)
      requires Valid() && existing.symbol in positions && positions[existing.symbol] == existing
      requires qty >= existing.quantity
      modifies this, existing
      ensures Valid()
      ensures var step := ApplyFill(old(Account()), existing.symbol, Sell, qty, exec);
        && balance == step.account.balance && Book() == step.account.book && step.raised.None?
        && step.closed.Some? && step.closed.value == existing.State() && !existing.isOpen
      ensures positions == old(positions) - {existing.symbol}
    {
      ghost var a := Account();
      var symbol := existing.symbol;
      var pnl := (exec - existing.entryPrice) * existing.quantity;
      balance := balance + exec * existing.quantity;
      existing.realizedPnl := existing.realizedPnl + pnl;
      existing.isOpen := false;
      positions := positions - {symbol};
      SellClosesFully(a, symbol, qty, exec);
      BookMatches(a.book - {symbol});
    }

    /** A SELL of less than the held quantity reduces it, realizes the P&L of
        the sold part and credits the proceeds. */
    method ReducePosition(existing: Position, qty: real, exec: real)
      requires Valid() && existing.symbol in positions && positions[existing.symbol] == existing
      requires qty < existing.quantity
      modifies this, existing
      ensures Valid() && positions == old(positions)
      ensures var step := ApplyFill(old(Account()), existing.symbol, Sell, qty, exec);
        balance == step.account.balance && Book() == step.account.book && step.raised.None?
    {
      ghost var a := Account();
      var symbol := existing.symbol;
      existing.quantity := existing.quantity - qty;
      var pnl := (exec - existing.entryPrice) * qty;
      balance := balance + exec * qty;
      existing.realizedPnl := existing.realizedPnl + pnl;
      SellReducesPartially(a, symbol, qty, exec);
      ghost var step := ApplyFill(a, symbol, Sell, qty, exec);
      assert step.account.book[symbol] == existing.State();
      forall s | s in positions && s != symbol
        ensures positions[s].State() == step.account.book[s]
      {
        assert positions[s] != existing;
      }
      BookMatches(step.account.book);
    }

    /** The book is `b` when both have the same symbols and every position's
        state is the one `b` files under its symbol. */
    lemma BookMatches(b: map<string, PositionState>)
      requires b.Keys == positions.Keys
      requires forall s :: s in positions ==> positions[s].State() == b[s]
      ensures Book() == b
    {
    }

    /** Mark every open position to its symbol's quote. A failed fetch leaves
        that position as it was and the loop goes on with the others. */
    method UpdatePositionsPrices(quote: string -> Quote)
      requires Valid()
      modifies positions.Values
      ensures Valid()
      ensures Book() == RefreshAll(old(Book()), quote)
    {
      ghost var book0 := Book();
      var pending := positions.Keys;
      while pending != {}
        invariant pending <= positions.Keys
        invariant Valid()
        invariant forall s :: s in positions ==>
          positions[s].State() == if s in pending then book0[s] else RefreshOne(book0[s], quote(s))
        decreases pending
      {
        var symbol :| symbol in pending;
        var position := positions[symbol];
        pending := pending - {symbol};
        RefreshPosition(position, quote(symbol));
        forall s | s in positions && s != symbol
          ensures positions[s].State() == if s in pending then book0[s] else RefreshOne(book0[s], quote(s))
        {
          assert positions[s] != position;
        }
      }
      BookMatches(RefreshAll(book0, quote));
    }

    /** Mark one position to a quote; the position's side picks the P&L
        formula. */
    static method RefreshPosition(position: Position, quote: Quote)
      modifies position
      ensures position.State() == RefreshOne(old(position.State()), quote)
      ensures position.isOpen == old(position.isOpen)
    {
      match quote
      case Quoted(currentPrice) =>
        position.currentPrice := currentPrice;
        if position.side == Long {
          position.unrealizedPnl := (currentPrice - position.entryPrice) * position.quantity;
        } else {
          position.unrealizedPnl := (position.entryPrice - currentPrice) * position.quantity;
        }
      case QuoteFailed(_) =>
    }

    /** The sum of one P&L column over the open positions. */
    method SumPnl(kind: PnlKind) returns (total: real)
      requires Valid()
      ensures total == SumValues(PnlColumn(Book(), kind))
    {
      ghost var column := PnlColumn(Book(), kind);
      total := 0.0;
      var pending := positions.Keys;
      assert Restrict(column, pending) == column;
      while pending != {}
        invariant pending <= positions.Keys
        invariant total + SumValues(Restrict(column, pending)) == SumValues(column)
        decreases pending
      {
        var symbol :| symbol in pending;
        var position := positions[symbol];
        SumValuesRemove(Restrict(column, pending), symbol);
        assert Restrict(column, pending) - {symbol} == Restrict(column, pending - {symbol});
        total := total + (if kind == RealizedPnl then position.realizedPnl else position.unrealizedPnl);
        pending := pending - {symbol};
      }
      assert Restrict(column, pending) == map[];
    }

    /** Equity: the balance plus the unrealized P&L of the open positions. */
    method GetTotalEquity() returns (equity: real)
      requires Valid()
      ensures equity == Equity(Account())
    {
      var unrealized := SumPnl(UnrealizedPnl);
      equity := balance + unrealized;
    }

    /** Total P&L: realized plus unrealized, over the positions still open. */
    method GetTotalPnl() returns (pnl: real)
      requires Valid()
      ensures pnl == TotalPnl(Account())
    {
      var realized := SumPnl(RealizedPnl);
      var unrealized := SumPnl(UnrealizedPnl);
      pnl := realized + unrealized;
    }

    /** The trading statistics; the ROI division raises when the starting
        balance is zero. */
    method GetStatistics() returns (r: Result<Statistics, string>)
      requires Valid()
      ensures r == Stats(Account(), initialBalance)
    {
      var totalEquity := GetTotalEquity();
      var totalPnl := GetTotalPnl();
      r := StatsFrom(initialBalance, balance, totalEquity, totalPnl, |positions.Keys|);
    }
  }
}
