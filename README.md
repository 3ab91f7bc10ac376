# Paper-trading order execution and position accounting

A Dafny model of the order-execution core of the FutureBot trading backend. It covers four parts:

- **The paper-trading engine** (`PaperTradingEngine`). It tracks a cash balance, a fixed starting balance and a dictionary of open positions keyed by symbol. For each order it:
  - fetches a quote;
  - picks the fill price (MARKET with 0.05% adverse slippage, LIMIT at the better of limit and market, stop types at market);
  - refuses an order whose notional exceeds the balance;
  - records the fill on the order;
  - updates the position for that symbol: it opens a LONG or SHORT, adds to the position, or partly or fully closes it.

  The engine can also mark every position to market and report equity, total P&L and statistics.
- **The trading service** (`TradingService`). It:
  - runs the pre-trade risk checks: a notional limit, and a cap on open positions that only a BUY can hit;
  - stores the order;
  - routes it to the paper engine or to the exchange;
  - stores it again;
  - cancels PENDING orders;
  - reports the portfolio figures.
- **The order-creation request schema.** It checks the fields' constraints, upper-cases the symbol, and checks that limit orders carry a price.
- **The order and position records and their enumerations.**

Decimal arithmetic is modelled exactly by `real`.

The modules follow the program:

- `Models` (models.dfy) holds the enumerations, plus the `Order` and `Position` classes whose fields are updated in place.
- `Ledger` (ledger.dfy) holds the engine's arithmetic as functions on values:
  - the fill-price rule, `ExecutionPrice`;
  - the position update, `ApplyFill`;
  - execution, `Execute`;
  - the price refresh, `Refresh`;
  - the aggregates, `Equity` and `TotalPnl`.

  It also holds the lemmas about them.
- `PaperTrading` (engine.dfy) holds the engine class. Every method is proved against the `Ledger` functions through the abstraction `Account()`: the balance and the positions seen as values.
- `OrderSchema` (schema.dfy) holds request validation.
- `Trading` (service.dfy) holds the service class.

Collaborators enter as parameters:

- the quote the market-data client returns (`Quote`, or a function from symbol to `Quote` for the refresh);
- the number of open positions the position repository reports;
- the exchange's answers (`Placement`, `CancelAck`, `Wallet`);
- the random part of a paper exchange id (`paperToken`).

The service writes the calls it makes to the order repository and to the exchange into two logs, `repoLog` and `exchangeLog`.

## Where the code and its documented intent disagree

The intent comes from the code's own comments and docstrings, and from the repository's documented behaviour. The model follows the code in each case:

- **Adding to a position.** The comment at paper_trading_engine.py:168 says the average entry price is recalculated, and that average is meant to be volume-weighted. The code grows the quantity first and then divides by `quantity + order quantity`. So the entry becomes `(entry·(q+x) + exec·x) / (q+2x)`: one unit at 100 plus one at 200 gives 400/3, not 150 (`Ledger.AddedEntryIsNotVolumeWeighted`).
- **The side of a held position is never consulted:**
  - a BUY adds to a SHORT as if it were a LONG;
  - a SELL realizes `(exec − entry)·qty` on a SHORT as on a LONG, where the documented behaviour inverts the sign for a SHORT.
- **The affordability check also applies to SELL orders.** The documented example (BUY 0.1 at 50000 from 10000, then SELL 0.1 at 51000, closing with 94.95 realized) therefore does not run as described: the second order is rejected for insufficient balance (`Ledger.BuyThenSellScenario`). Under the corrected update (first finding), the same trades from 20000 give the described P&L (`Ledger.FundedBuyThenSellScenario`); as written, that SELL raises and the LONG stays open (`Ledger.ScenarioCloseAsWritten`).
- **Live-mode cancellation is not fire-and-forget.** When the exchange's cancel call fails, the error propagates and the order stays PENDING and unsaved.
- **The ledger can be left partially updated.** A BUY on a held symbol whose divisor is zero does this: the grown quantity stays and the order is rejected. The documented behaviour is that a failed order never leaves the ledger partially updated.

## Model

| member | source | states |
|---|---|---|
| Models.Order.constructor | backend/app/models/order.py:59-67 | a new order has the caller's terms, is PENDING, has 0 filled, and no fill price, exchange id or notes; the stop price is unset |
| Models.Position.constructor | backend/app/services/paper_trading_engine.py:178-187 | (corrected update) a new position is open with the given side, quantity, entry and current price, and its realized and unrealized P&L start at 0 |
| Ledger.ExecutionPrice | backend/app/services/paper_trading_engine.py:112-151 | fails with "Limit orders require a price" exactly for a LIMIT order without a price; MARKET BUY fills at market·1.0005 and SELL at market·0.9995; a LIMIT fill is one of limit and market, the lower for BUY and the higher for SELL; a stop type fills at market |
| Ledger.MarketSlippageIsAdverse | backend/app/services/paper_trading_engine.py:131-137 | a MARKET BUY never fills below a non-negative quote and a MARKET SELL never above it |
| Ledger.ApplyFill | backend/app/services/paper_trading_engine.py:153-229 | (corrected update) other symbols are untouched; the symbol leaves the book exactly when a SELL covers the held quantity, and that is exactly when a closed position is reported; an exception can only come from a BUY on a held symbol and leaves the balance undebited |
| Ledger.BuyOpensLong | backend/app/services/paper_trading_engine.py:176-191 | a BUY on an unheld symbol opens a LONG at the fill price and debits exactly price·quantity |
| Ledger.BuyAddsToPosition | backend/app/services/paper_trading_engine.py:164-191 | a BUY on a held symbol keeps the same symbols, grows the quantity by the order quantity, sets the entry to `(entry·(q+x)+exec·x)/(q+2x)` and debits exec·x |
| Ledger.AddedEntryIsNotVolumeWeighted | backend/app/services/paper_trading_engine.py:167-175 | 1 unit at 100 plus 1 at 200 gives entry 400/3, not the volume-weighted 150 |
| Ledger.BuyAddDivisionByZero | backend/app/services/paper_trading_engine.py:167-175 | when `q + 2x = 0` the update raises, keeps the grown quantity in the book and leaves the balance as it was |
| Ledger.SellClosesFully | backend/app/services/paper_trading_engine.py:196-203 | (corrected update) a SELL of at least the held quantity credits exec·held, removes the symbol, reports the position closed with realized P&L grown by (exec − entry)·held, and discards the excess |
| Ledger.SellReducesPartially | backend/app/services/paper_trading_engine.py:210-215 | (corrected update) a smaller SELL reduces the quantity, realizes (exec − entry)·x, credits exec·x and keeps the position open |
| Ledger.SellOpensShort | backend/app/services/paper_trading_engine.py:216-229 | a SELL on an unheld symbol opens a SHORT at the fill price and credits exec·x |
| Ledger.PositiveFillKeepsBookPositive | backend/app/services/paper_trading_engine.py:153-229 | (corrected update) with a positive order quantity the update never raises and every position keeps a positive quantity |
| Ledger.Execute | backend/app/services/paper_trading_engine.py:54-88 | (corrected update) a failed quote or a missing limit price gives no fill, with "Execution error: " and the reason; the order is refused for insufficient balance exactly when its priced notional exceeds the balance; a quoted, priced and affordable order is always filled at the computed price, and the fill applies `ApplyFill` |
| Ledger.OrderAfter | backend/app/services/paper_trading_engine.py:54-110 | the order's terms are kept; it ends FILLED exactly when it was executed and the update raised nothing, and REJECTED otherwise; a fill sets the whole quantity, the fill price and the id `paper_` + token; a raise during the update sets the note "Execution error: " + its text, and a clean fill keeps the notes; no fill only sets REJECTED and the note |
| Ledger.NoFillLeavesAccount | backend/app/services/paper_trading_engine.py:67-78 | an order that is not filled leaves balance and positions untouched |
| Ledger.FilledQuantityBounded | backend/app/services/paper_trading_engine.py:80-83 | executing never lets the filled quantity exceed the order quantity |
| Ledger.SellCheckedForAffordability | backend/app/services/paper_trading_engine.py:67-78 | a MARKET SELL on a held symbol whose notional exceeds the balance is refused for insufficient balance |
| Ledger.MarketRoundTripCostsSlippage | backend/app/services/paper_trading_engine.py:131-137 | (corrected update) an affordable MARKET BUY then SELL of the same quantity at the same quote restores the book and costs exactly 2·0.0005·market·qty |
| Ledger.BuyThenSellScenario | backend/app/services/paper_trading_engine.py:67-78 | from 10000, BUY 0.1 at 50000 fills at 50025 and leaves 4997.50 with a LONG 0.1; the SELL 0.1 at 51000 is refused for insufficient balance |
| Ledger.FundedBuyThenSellScenario | backend/app/services/paper_trading_engine.py:193-203 | (corrected update) from 20000 the same SELL fills at 50974.50, realizes 94.95, and leaves 20094.95 with no position |
| Ledger.Refresh | backend/app/services/paper_trading_engine.py:237-247 | only the current price and the unrealized P&L change; the unrealized P&L is (price − entry)·q for a LONG and (entry − price)·q for a SHORT, so for a positive quantity it is positive exactly when a LONG's price is above entry or a SHORT's is below |
| Ledger.RefreshIsRecomputed | backend/app/services/paper_trading_engine.py:239-247 | the unrealized P&L does not depend on its previous value or the previous price, and refreshing twice at one price changes nothing more |
| Ledger.LongShortUnrealizedOpposite | backend/app/services/paper_trading_engine.py:240-247 | LONG and SHORT unrealized P&L are exact negatives of each other |
| Ledger.SellOnShortUsesLongFormula | backend/app/services/paper_trading_engine.py:210-215 | (corrected update) reducing a SHORT realizes (exec − entry)·x, the LONG formula, and the position stays SHORT |
| Ledger.RefreshAll | backend/app/services/paper_trading_engine.py:231-254 | the same symbols; each position is refreshed at its own quote, and a failed fetch leaves that one position unchanged without stopping the others |
| Ledger.FreshAccountStats | backend/app/services/paper_trading_engine.py:283-303 | a fresh account has equity = balance = initial, P&L 0, ROI 0 and no open positions |
| Ledger.RoiSign | backend/app/services/paper_trading_engine.py:292-294 | for a positive initial balance the ROI is positive exactly when equity exceeds it, and zero exactly at break-even |
| Ledger.OpeningMovesEquityByCash | backend/app/services/paper_trading_engine.py:256-266 | (corrected update) opening a position changes equity only by its cash flow: −exec·x for a LONG, +exec·x for a SHORT; as written, `get_total_equity` raises on the new position until it has been refreshed |
| Ledger.FullCloseDropsPnl | backend/app/services/paper_trading_engine.py:268-281 | (corrected update) a full close removes the position's realized and unrealized P&L from the total P&L |
| Ledger.SellHeldAsWritten | backend/app/services/paper_trading_engine.py:193-215 | as written, a SELL on a held symbol credits the balance and then raises on the unset `realized_pnl`: after a full close the book is exactly as before, after a partial close only the held quantity is reduced, and other symbols are untouched |
| Ledger.SellHeldAsWrittenVersusIntended | backend/app/services/paper_trading_engine.py:193-215 | for every SELL on a held symbol, as written the same cash is credited as under the intended update, but the update always raises, and a covering SELL keeps the position the intended update removes |
| Ledger.ScenarioCloseAsWritten | backend/app/services/paper_trading_engine.py:196-203 | for the funded example, as written the close raises and leaves the LONG in the book; the intended update credits the same 20094.95 and removes it |
| PaperTrading.PaperTradingEngine.constructor | backend/app/services/paper_trading_engine.py:29-38 | a new engine holds the starting balance and no positions |
| PaperTrading.PaperTradingEngine.Default | backend/app/services/paper_trading_engine.py:306-307 | the process-wide engine starts with 10000 USDT and no positions |
| PaperTrading.PaperTradingEngine.ExecuteOrder | backend/app/services/paper_trading_engine.py:41-110 | (corrected update) the engine's balance and positions become those of `Execute` on the old account; the order's fields become `OrderAfter`; a closed position object is marked not open; the dictionary invariant is kept |
| PaperTrading.PaperTradingEngine.FillOrder | backend/app/services/paper_trading_engine.py:80-88 | (corrected update) the order is FILLED with the whole quantity, the fill price and a `paper_` id, and is REJECTED with the error text if the update raised; the ledger becomes `ApplyFill` of the old account |
| PaperTrading.PaperTradingEngine.UpdatePositions | backend/app/services/paper_trading_engine.py:153-229 | (corrected update) balance, positions and raised error are those of `ApplyFill` on the old account; surviving position objects are kept, new ones are fresh, and a closed one is marked not open |
| PaperTrading.PaperTradingEngine.OpenPosition | backend/app/services/paper_trading_engine.py:176-191 | a new open position of the fill's side is filed under the symbol; a BUY pays for it and a SELL is credited |
| PaperTrading.PaperTradingEngine.AddToPosition | backend/app/services/paper_trading_engine.py:164-191 | the held position object is updated in place to the `ApplyFill` BUY result, raising on a zero divisor |
| PaperTrading.PaperTradingEngine.ClosePosition | backend/app/services/paper_trading_engine.py:196-203 | (corrected update) the P&L is realized on the object, which is marked not open and removed from the dictionary; the balance is credited exec·held |
| PaperTrading.PaperTradingEngine.ReducePosition | backend/app/services/paper_trading_engine.py:210-215 | (corrected update) the object is updated in place to the partial-close result and stays filed |
| PaperTrading.PaperTradingEngine.UpdatePositionsPrices | backend/app/services/paper_trading_engine.py:231-254 | the positions become `RefreshAll` of the old positions under the quotes, and the invariant is kept |
| PaperTrading.PaperTradingEngine.RefreshPosition | backend/app/services/paper_trading_engine.py:235-247 | one position is refreshed at a quote, or left unchanged when the fetch failed |
| PaperTrading.PaperTradingEngine.SumPnl | backend/app/services/paper_trading_engine.py:263-265 | the loop's total is the sum of the chosen P&L column over the open positions |
| PaperTrading.PaperTradingEngine.GetTotalEquity | backend/app/services/paper_trading_engine.py:256-266 | balance plus the sum of the unrealized P&L |
| PaperTrading.PaperTradingEngine.GetTotalPnl | backend/app/services/paper_trading_engine.py:268-281 | the realized plus the unrealized P&L of the open positions |
| PaperTrading.PaperTradingEngine.GetStatistics | backend/app/services/paper_trading_engine.py:283-303 | the statistics of the current account with ROI = (equity − initial)/initial·100; a zero starting balance raises the decimal division error |
| OrderSchema.Upper | backend/app/schemas/order.py:26-30 | the length is kept; each character is upper-cased (ASCII letters) |
| OrderSchema.UpperNormalizes | backend/app/schemas/order.py:26-30 | the result is upper-case; upper-casing a string leaves it unchanged exactly when it is already upper-case, and is idempotent |
| OrderSchema.ParseSide | backend/app/models/order.py:26-30 | a side is recognised only from its own value, "buy" or "sell" |
| OrderSchema.ParseOrderType | backend/app/models/order.py:33-39 | an order type is recognised only from its own value |
| OrderSchema.EnumValuesRoundTrip | backend/app/models/order.py:26-39 | every side and order type is parsed back from its value |
| OrderSchema.Required | backend/app/schemas/order.py:17-20 | a required field succeeds exactly when given, and fails as missing when absent and as not nullable when null |
| OrderSchema.CheckSymbol | backend/app/schemas/order.py:17-30 | accepted exactly when given with 3–20 characters, measured before upper-casing; the accepted value is the input upper-cased, of the same length; too short and too long are reported with their bound |
| OrderSchema.CheckSide | backend/app/schemas/order.py:18 | accepted exactly when given as a side's value, and yields that side |
| OrderSchema.CheckOrderType | backend/app/schemas/order.py:19 | accepted exactly when given as an order type's value, and yields that type |
| OrderSchema.CheckQuantity | backend/app/schemas/order.py:20 | accepted exactly when given and strictly positive |
| OrderSchema.CheckOptionalPrice | backend/app/schemas/order.py:21-24 | fails, as not positive, exactly for a given value ≤ 0; absent or null gives none |
| OrderSchema.CheckOptionalText | backend/app/schemas/order.py:36-37 | fails, as too long, exactly for a given text over the bound |
| OrderSchema.CheckPrice | backend/app/schemas/order.py:39-46 | "limit price missing" exactly when the price is not given, the validator runs on it (null, or any default when defaults are validated), and the validated order type is LIMIT or STOP_LIMIT; a given price is only checked for positivity |
| OrderSchema.Checks | backend/app/schemas/order.py:14-46 | ten checks, one per field, in declaration order |
| OrderSchema.Validate | backend/app/schemas/order.py:14-46 | succeeds exactly when no field has an error, and otherwise fails with the non-empty list of every field's error; a validated order has the upper-cased symbol, the side and type the request names, the given quantity, and every optional field as given (none when absent or null) |
| OrderSchema.ValidatedIsWellFormed | backend/app/schemas/order.py:17-37 | every validated order meets all field constraints and has an upper-case symbol |
| OrderSchema.ValidatedHasLimitPrice | backend/app/schemas/order.py:39-46 | with the validator run on defaults, every validated LIMIT or STOP_LIMIT order has a price |
| OrderSchema.ValidateRoundTrip | backend/app/schemas/order.py:14-46 | a well-formed order, sent back as a request, validates to itself; with defaults validated this holds exactly for orders priced when limit |
| OrderSchema.ErrorsInFieldOrder | backend/app/schemas/order.py:17-37 | errors come in strictly increasing field order, at most one per field |
| OrderSchema.InvalidOrderTypeSkipsLimitCheck | backend/app/schemas/order.py:43-45 | when the order type fails, a missing price is never reported |
| OrderSchema.OmittedLimitPriceAccepted | backend/app/schemas/order.py:39-46 | as declared, a LIMIT order with the price omitted validates without a price; an explicit null is rejected, and validating defaults rejects both |
| Trading.ValidateOrder | backend/app/services/trading_service.py:170-197 | accepted exactly when notional ≤ the size limit and (fewer open positions than the cap, or a SELL); the size refusal takes priority; the cap refusal happens exactly for a BUY within the size limit at or over the cap |
| Trading.SellNeverBlockedByCap | backend/app/services/trading_service.py:188-197 | a SELL can only be refused for its size |
| Trading.UnpricedOrderPassesSizeCheck | backend/app/services/trading_service.py:180-186 | under the configured positive limit, an order without a price is never refused for its size |
| Trading.FewerOpenPositionsStillAccepted | backend/app/services/trading_service.py:188-197 | an order accepted with some number of open positions is accepted with fewer |
| Trading.InitialRecord | backend/app/models/order.py:59-67 | a stored new order has its terms, is PENDING and has 0 filled |
| Trading.LiveOutcome | backend/app/services/trading_service.py:205-249 | after placement the order is PENDING exactly when placed, with the exchange's id; it is REJECTED exactly when placement failed, with the error as its note; quantities are kept |
| Trading.LiveOutcomeAsWritten | backend/app/services/trading_service.py:215-249 | as written, reading `.value` of a plain-string side raises before the exchange is called: no call is made and the order ends REJECTED with that error |
| Trading.LiveOrderNeverPlacedAsWritten | backend/app/services/trading_service.py:215-229 | as written every live order is REJECTED without a call, while the intended placement leaves an acknowledged order PENDING with the exchange's id |
| Trading.Cancellation | backend/app/services/trading_service.py:109-143 | a successful cancel changes only the status, to CANCELLED |
| Trading.CancelOnlyPending | backend/app/services/trading_service.py:126-138 | only a PENDING order is cancelled, any other fails with its status; in paper mode, without an exchange id, or on an acknowledged cancel, a PENDING order is always cancelled |
| Trading.CancelTwiceFails | backend/app/services/trading_service.py:126-127 | an order just cancelled cannot be cancelled again |
| Trading.TradingService.constructor | backend/app/services/trading_service.py:31-40 | a new service has empty call logs |
| Trading.TradingService.CreateOrder | backend/app/services/trading_service.py:42-107 | (intended placement) a refused order fails with the risk error, is not stored, and leaves the engine's balance, dictionary and positions and the exchange untouched; otherwise the order is stored, then executed by the paper engine (`Execute`/`OrderAfter`) or placed on the exchange (`LiveOutcome`, one place call, engine untouched), then stored again |
| Trading.TradingService.RouteOrder | backend/app/services/trading_service.py:91-95 | (intended placement) in paper mode the engine executes the order; in live mode the exchange places it and the engine's balance, dictionary and positions are unchanged |
| Trading.TradingService.ExecuteLiveOrder | backend/app/services/trading_service.py:205-249 | (intended placement) one place call with the order's terms; the order becomes `LiveOutcome` of the exchange's answer |
| Trading.TradingService.CancelOrder | backend/app/services/trading_service.py:109-143 | an unknown id fails as not found; otherwise the order becomes `Cancellation`'s result, the exchange is called only in live mode for a PENDING order with an exchange id, and the order is stored only when cancelled |
| Trading.TradingService.GetPortfolioStats | backend/app/services/trading_service.py:251-268 | in paper mode the engine's statistics; in live mode the wallet's equity and unrealized P&L, 0 where absent |

## Left out

- Decimal context rounding (28 significant digits) is not modelled: `real` is exact. Neither are the `float` conversions of the statistics.
- Timestamps (`filled_at`, `closed_at`, `created_at`) are not modelled. The random hex of a paper exchange id is the parameter `paperToken`.
- Logging is not modelled: it has no effect on state.
- Concurrency between requests is not modelled, and neither are the `async` suspension points: each operation runs to completion.
- The market-data client, the exchange client and the repositories are not modelled. Their answers are parameters, and the calls made to them are appended to logs. Exceptions they raise outside the caught paths, such as a failing repository write, are not modelled.
- Dictionary iteration order is not modelled. The loops pick any unvisited symbol, and the sums are proved for every order.
- Upper-casing covers ASCII letters only. Python's full Unicode case mapping, which can change a string's length, is not modelled.
- The parsing and lax coercion pydantic performs before the constraints are checked is not modelled: numeric strings, whitespace, non-finite decimals. Neither are the texts of its error messages. The texts of the service's `ValueError` messages are replaced by the `RiskError` and `CancelError` values.
- The configuration loader is not modelled. `WithinConfigBounds` states the bounds it enforces on the two limits the service reads. The unused settings (`MAX_LEVERAGE`, the drawdown settings) are left out.
- The order enumerations are modelled by their members and values. As written they derive from the SQL column type `Enum`, not from Python's enumeration base, so their members are plain strings. The model follows that only where it changes the outcome, the live placement (third finding). How request parsing and column mapping treat such a class is not modelled.
- `get_orders` and `get_open_positions` are not modelled: they only forward to the repositories.
- The live `get_portfolio_stats` is not modelled on the raw wallet dictionary: the wallet figures enter already parsed, as `Option<real>`.
- `PaperTrading.PaperTradingEngine.GetTotalEquity` sums the unrealized P&L of every open position as a number. As written, a position the engine opened has no `unrealized_pnl` until it has been refreshed, and the sum would raise on it, for the reason given in the first finding. The model does not capture that error.
- `PaperTrading.PaperTradingEngine.GetTotalPnl` sums both P&L columns as numbers. As written, the engine never sets `realized_pnl` on a position it builds, so `get_total_pnl` raises whenever any position is open, refreshed or not (first finding). The model does not capture that error.
- `PaperTrading.PaperTradingEngine.SumPnl` adds the column values as numbers. As written, an unset column makes the sum raise, so its total exists only once every open position has both columns set, which the engine never does for `realized_pnl`.
- `PaperTrading.PaperTradingEngine.GetStatistics` computes the statistics from the two sums. As written, it calls `get_total_equity` and `get_total_pnl` first (paper_trading_engine.py:290-291), so it raises whenever any position is open. The model returns the statistics only; it captures the raise only for a zero starting balance.
- `Trading.TradingService.GetPortfolioStats` in paper mode returns the engine's statistics, so as written it inherits the raise of `get_statistics` whenever a position is open. The model does not capture that error.
- `PaperTrading.PaperTradingEngine.ExecuteOrder` uses the corrected position update `ApplyFill`. The as-written SELL on a held symbol is `Ledger.SellHeldAsWritten` (first finding).
- `PaperTrading.PaperTradingEngine.FillOrder` applies the corrected position update `ApplyFill`. As written, a SELL on a held symbol raises after the credit; that path is `Ledger.SellHeldAsWritten`, contrasted with the corrected one in `Ledger.SellHeldAsWrittenVersusIntended` (first finding).
- `PaperTrading.PaperTradingEngine.UpdatePositions` is the corrected position update too. As written, its close and reduce branches raise on the unset `realized_pnl`; the model keeps the book that the corrected update gives.
- `Trading.TradingService.RouteOrder` in live mode models the intended placement, `Trading.LiveOutcome`. As written, reading `.value` of the side raises before the exchange is called, which is `Trading.LiveOutcomeAsWritten` (third finding).
- `Trading.TradingService.ExecuteLiveOrder` and the live branch of `Trading.TradingService.CreateOrder` model the intended placement, `Trading.LiveOutcome`. The as-written placement, which never reaches the exchange, is `Trading.LiveOutcomeAsWritten` (third finding).
- `Trading.TradingService.CreateOrder` runs the risk check before it builds the order object. The source builds the object first, but nothing observable depends on this order.

## Findings

| source | as written | input that shows it | evidently intended | confidence | as-written member | corrected member |
|---|---|---|---|---|---|---|
| backend/app/services/paper_trading_engine.py:193-215 | The engine builds `Position` objects itself and never stores them. A column `default=` only fills the attribute when a row is inserted, so `realized_pnl` is still unset (None). `existing_position.realized_pnl += pnl` on a SELL of a held symbol then raises a TypeError. This happens after the balance was credited: `execute_order` marks the SELL REJECTED, the credited cash stays, and a full close leaves the position in the dictionary. | Start at 20000. BUY 0.1 BTCUSDT MARKET at 50000, then SELL 0.1 MARKET at 51000. The balance becomes 20094.95 and the LONG 0.1 remains open. | An open position starts with realized and unrealized P&L of 0. A full close realizes 94.95 and removes the position. | not executed | Ledger.ScenarioCloseAsWritten | Ledger.SellClosesFully |
| backend/app/schemas/order.py:39-46 | `price` defaults to None and its field validator is declared without default validation. Pydantic does not run a field validator on a default, so a LIMIT or STOP_LIMIT request that omits `price` passes `validate_limit_price`. Only an explicit null is rejected. | `{"symbol": "BTCUSDT", "side": "buy", "order_type": "limit", "quantity": 1}` | Every validated LIMIT or STOP_LIMIT order carries a price. | not executed | OrderSchema.OmittedLimitPriceAccepted | OrderSchema.ValidatedHasLimitPrice |
| backend/app/services/trading_service.py:215-229 | `models/order.py:9` imports `Enum` from sqlalchemy, and `OrderSide`/`OrderType` derive from it rather than from Python's `enum.Enum`. Their members are then plain class attributes of type `str`. Building the arguments of `place_order` reads `order.side.value`, which raises an AttributeError inside the `try`: the exchange is never called and every live order ends REJECTED with that error. | Live mode, any order that passes the risk check, for example BUY 0.01 BTCUSDT MARKET. | The order is placed, and ends PENDING with the exchange's id (or REJECTED only when the exchange fails). | not executed | Trading.LiveOrderNeverPlacedAsWritten | Trading.LiveOutcome |
