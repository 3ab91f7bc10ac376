/**
 * Validation of an order-creation request, as the request schema performs it:
 * each field is checked in declaration order (symbol, side, order type,
 * quantity, price, stop price, stop loss, take profit, strategy name, notes),
 * every failing field contributes one error, and the limit-price validator
 * sees the order type only when that field validated. The symbol is
 * upper-cased after its length was checked.
 */
module OrderSchema {
  import opened Models

  const SymbolMinLength: nat := 3
  const SymbolMaxLength: nat := 20
  const StrategyNameMaxLength: nat := 50
  const NotesMaxLength: nat := 500

  /** A field of the request body: absent, an explicit null, or a value. */
  datatype Input<+T> = Omitted | Null | Given(value: T)

  /** The request body before validation. The side and the order type arrive
      as their enumeration values ("buy", "limit", ...). */
  datatype OrderRequest = OrderRequest(
    symbol: Input<string>,
    side: Input<string>,
    orderType: Input<string>,
    quantity: Input<real>,
    price: Input<real>,
    stopPrice: Input<real>,
    stopLoss: Input<real>,
    takeProfit: Input<real>,
    strategyName: Input<string>,
    notes: Input<string>)

  /** A validated order-creation request. */
  datatype OrderCreate = OrderCreate(
    symbol: string,
    side: OrderSide,
    orderType: OrderType,
    quantity: real,
    price: Option<real>,
    stopPrice: Option<real>,
    stopLoss: Option<real>,
    takeProfit: Option<real>,
    strategyName: Option<string>,
    notes: Option<string>)

  datatype Field =
    | SymbolField | SideField | OrderTypeField | QuantityField | PriceField
    | StopPriceField | StopLossField | TakeProfitField | StrategyNameField | NotesField

  /** The position of a field in the schema's declaration order. */
  function FieldIndex(f: Field): nat {
    match f
    case SymbolField => 0
    case SideField => 1
    case OrderTypeField => 2
    case QuantityField => 3
    case PriceField => 4
    case StopPriceField => 5
    case StopLossField => 6
    case TakeProfitField => 7
    case StrategyNameField => 8
    case NotesField => 9
  }

  datatype ErrorKind =
    | Missing                  // a required field is absent
    | NotNullable              // a required field is null
    | TooShort(minLength: nat)
    | TooLong(maxLength: nat)
    | NotPositive              // a `gt=0` number that is not above zero
    | NotAnEnumMember          // a side or order type outside its enumeration
    | LimitPriceMissing        // "Limit orders require a price"

  datatype FieldError = FieldError(field: Field, kind: ErrorKind)

  // ---------------------------------------------------------------------------
  // Upper-casing (ASCII letters only)
  // ---------------------------------------------------------------------------

  function UpperChar(c: char): char {
    if 'a' <= c <= 'z' then (c as int - 32) as char else c
  }

  predicate IsUpper(s: string) {
    forall i :: 0 <= i < |s| ==> !('a' <= s[i] <= 'z')
  }

  /** The symbol validator's upper-casing: every lower-case ASCII letter
      becomes its capital, every other character is kept. */
  function Upper(s: string): (r: string)
    ensures |r| == |s|
    ensures forall i :: 0 <= i < |s| ==> r[i] == UpperChar(s[i])
  {
    if s == [] then [] else [UpperChar(s[0])] + Upper(s[1..])
  }

  /** Upper-casing yields an upper-case string, leaves an upper-case string as
      it is, and is therefore idempotent. */
  lemma UpperNormalizes(s: string)
    ensures IsUpper(Upper(s))
    ensures IsUpper(s) <==> Upper(s) == s
    ensures Upper(Upper(s)) == Upper(s)
  {
    if !IsUpper(s) {
      var i :| 0 <= i < |s| && 'a' <= s[i] <= 'z';
      assert Upper(s)[i] != s[i];
    }
  }

  // ---------------------------------------------------------------------------
  // Enumeration values
  // ---------------------------------------------------------------------------

  function SideValue(s: OrderSide): string {
    match s
    case Buy => "buy"
    case Sell => "sell"
  }

  function OrderTypeValue(t: OrderType): string {
    match t
    case Market => "market"
    case Limit => "limit"
    case StopMarket => "stop_market"
    case StopLimit => "stop_limit"
  }

  /** The side whose value is `v`, if any ("buy" or "sell", case-sensitive). */
  function ParseSide(v: string): (r: Option<OrderSide>)
    ensures r.Some? ==> SideValue(r.value) == v
  {
    if v == "buy" then Some(Buy) else if v == "sell" then Some(Sell) else None
  }

  /** The order type whose value is `v`, if any. */
  function ParseOrderType(v: string): (r: Option<OrderType>)
    ensures r.Some? ==> OrderTypeValue(r.value) == v
  {
    if v == "market" then Some(Market)
    else if v == "limit" then Some(Limit)
    else if v == "stop_market" then Some(StopMarket)
    else if v == "stop_limit" then Some(StopLimit)
    else None
  }

  /** Every enumeration member is parsed back from its value. */
  lemma EnumValuesRoundTrip(s: OrderSide, t: OrderType)
    ensures ParseSide(SideValue(s)) == Some(s)
    ensures ParseOrderType(OrderTypeValue(t)) == Some(t)
  {
  }

  // ---------------------------------------------------------------------------
  // Field checks, in the order the schema declares the fields
  // ---------------------------------------------------------------------------

  /** A required field: absent or null is an error. */
  function Required<T>(i: Input<T>): (r: Result<T, ErrorKind>)
    ensures r.Success? <==> i.Given?
    ensures r.Success? ==> r.value == i.value
    ensures i.Omitted? ==> r == Failure(Missing)
    ensures i.Null? ==> r == Failure(NotNullable)
  {
    match i
    case Omitted => Failure(Missing)
    case Null => Failure(NotNullable)
    case Given(v) => Success(v)
  }

  /** The symbol: 3 to 20 characters, measured before it is upper-cased. */
  function CheckSymbol(i: Input<string>): (r: Result<string, ErrorKind>)
    ensures r.Success? <==> i.Given? && SymbolMinLength <= |i.value| <= SymbolMaxLength
    ensures r.Success? ==> r.value == Upper(i.value) && IsUpper(r.value) && |r.value| == |i.value|
    ensures i.Given? && |i.value| < SymbolMinLength ==> r == Failure(TooShort(SymbolMinLength))
    ensures i.Given? && |i.value| > SymbolMaxLength ==> r == Failure(TooLong(SymbolMaxLength))
  {
    match Required(i)
    case Failure(e) => Failure(e)
    case Success(v) =>
      if |v| < SymbolMinLength then Failure(TooShort(SymbolMinLength))
      else if |v| > SymbolMaxLength then Failure(TooLong(SymbolMaxLength))
      else
        UpperNormalizes(v);
        Success(Upper(v))
  }

  function CheckSide(i: Input<string>): (r: Result<OrderSide, ErrorKind>)
    ensures r.Success? <==> i.Given? && ParseSide(i.value).Some?
    ensures r.Success? ==> SideValue(r.value) == i.value
  {
    match Required(i)
    case Failure(e) => Failure(e)
    case Success(v) => if ParseSide(v).Some? then Success(ParseSide(v).value) else Failure(NotAnEnumMember)
  }

  function CheckOrderType(i: Input<string>): (r: Result<OrderType, ErrorKind>)
    ensures r.Success? <==> i.Given? && ParseOrderType(i.value).Some?
    ensures r.Success? ==> OrderTypeValue(r.value) == i.value
  {
    match Required(i)
    case Failure(e) => Failure(e)
    case Success(v) =>
      if ParseOrderType(v).Some? then Success(ParseOrderType(v).value) else Failure(NotAnEnumMember)
  }

  /** The quantity: required and strictly positive. */
  function CheckQuantity(i: Input<real>): (r: Result<real, ErrorKind>)
    ensures r.Success? <==> i.Given? && i.value > 0.0
    ensures r.Success? ==> r.value == i.value
  {
    match Required(i)
    case Failure(e) => Failure(e)
    case Success(v) => if v > 0.0 then Success(v) else Failure(NotPositive)
  }

  /** An optional price: absent or null is `None`, a given value must be
      strictly positive. */
  function CheckOptionalPrice(i: Input<real>): (r: Result<Option<real>, ErrorKind>)
    ensures r.Failure? <==> i.Given? && i.value <= 0.0
    ensures r.Failure? ==> r.error == NotPositive
    ensures r.Success? ==> (r.value.Some? <==> i.Given?) && (i.Given? ==> r.value.value == i.value)
  {
    match i
    case Given(v) => if v > 0.0 then Success(Some(v)) else Failure(NotPositive)
    case _ => Success(None)
  }

  /** An optional text of at most `maxLength` characters. */
  function CheckOptionalText(i: Input<string>, maxLength: nat): (r: Result<Option<string>, ErrorKind>)
    ensures r.Failure? <==> i.Given? && |i.value| > maxLength
    ensures r.Failure? ==> r.error == TooLong(maxLength)
    ensures r.Success? ==> (r.value.Some? <==> i.Given?) && (i.Given? ==> r.value.value == i.value)
  {
    match i
    case Given(v) => if |v| <= maxLength then Success(Some(v)) else Failure(TooLong(maxLength))
    case _ => Success(None)
  }

  /** Order types for which the limit-price validator demands a price. */
  predicate NeedsPrice(t: OrderType) {
    t == Limit || t == StopLimit
  }

  /** The price field: the positivity constraint, then the limit-price
      validator. The validator sees the order type only when that field
      validated (`orderType` is `None` otherwise) and runs on an explicit null
      always, but on an absent price only when `validateDefault` is set: the
      schema declares the field without it, so an omitted price is never
      checked. */
  function CheckPrice(i: Input<real>, orderType: Option<OrderType>, validateDefault: bool)
    : (r: Result<Option<real>, ErrorKind>)
    ensures r == Failure(LimitPriceMissing) <==>
      !i.Given? && (i.Null? || validateDefault) && orderType.Some? && NeedsPrice(orderType.value)
    ensures r.Success? ==> (r.value.Some? <==> i.Given?) && (i.Given? ==> r.value.value == i.value > 0.0)
    ensures i.Given? ==> r == CheckOptionalPrice(i)
  {
    match CheckOptionalPrice(i)
    case Failure(e) => Failure(e)
    case Success(v) =>
      var validated := i.Given? || i.Null? || validateDefault;
      if validated && orderType.Some? && NeedsPrice(orderType.value) && v.None? then Failure(LimitPriceMissing)
      else Success(v)
  }

  // ---------------------------------------------------------------------------
  // The whole request
  // ---------------------------------------------------------------------------

  /** The outcome of one field's check. */
  datatype Check = Check(field: Field, error: Option<ErrorKind>)

  function ErrorOf<T>(r: Result<T, ErrorKind>): Option<ErrorKind> {
    if r.Failure? then Some(r.error) else None
  }

  function OkOrNone<T>(r: Result<T, ErrorKind>): Option<T> {
    if r.Success? then Some(r.value) else None
  }

  /** The field checks of a request, in declaration order. */
  function Checks(req: OrderRequest, validateDefault: bool): (cs: seq<Check>)
    ensures |cs| == 10
    ensures forall k :: 0 <= k < |cs| ==> FieldIndex(cs[k].field) == k
  {
    [ Check(SymbolField, ErrorOf(CheckSymbol(req.symbol))),
      Check(SideField, ErrorOf(CheckSide(req.side))),
      Check(OrderTypeField, ErrorOf(CheckOrderType(req.orderType))),
      Check(QuantityField, ErrorOf(CheckQuantity(req.quantity))),
      Check(PriceField, ErrorOf(CheckPrice(req.price, OkOrNone(CheckOrderType(req.orderType)), validateDefault))),
      Check(StopPriceField, ErrorOf(CheckOptionalPrice(req.stopPrice))),
      Check(StopLossField, ErrorOf(CheckOptionalPrice(req.stopLoss))),
      Check(TakeProfitField, ErrorOf(CheckOptionalPrice(req.takeProfit))),
      Check(StrategyNameField, ErrorOf(CheckOptionalText(req.strategyName, StrategyNameMaxLength))),
      Check(NotesField, ErrorOf(CheckOptionalText(req.notes, NotesMaxLength))) ]
  }

  /** The errors of the failed checks, in the checks' order. */
  function Collect(cs: seq<Check>): seq<FieldError> {
    if cs == [] then []
    else (if cs[0].error.Some? then [FieldError(cs[0].field, cs[0].error.value)] else []) + Collect(cs[1..])
  }

  /** No error is collected exactly when every check passed. */
  lemma {:induction false} CollectEmpty(cs: seq<Check>)
    ensures Collect(cs) == [] <==> forall k :: 0 <= k < |cs| ==> cs[k].error.None?
  {
    if cs != [] {
      CollectEmpty(cs[1..]);
      assert forall k :: 1 <= k < |cs| ==> cs[k] == cs[1..][k - 1];
    }
  }

  /** An error is collected exactly when some check failed with it. */
  lemma {:induction false} CollectMembers(cs: seq<Check>, x: FieldError)
    ensures x in Collect(cs) <==> exists k :: 0 <= k < |cs| && cs[k] == Check(x.field, Some(x.kind))
  {
    if cs != [] {
      CollectMembers(cs[1..], x);
      assert forall k :: 1 <= k < |cs| ==> cs[k] == cs[1..][k - 1];
      if x in Collect(cs[1..]) {
        var k :| 0 <= k < |cs[1..]| && cs[1..][k] == Check(x.field, Some(x.kind));
        assert cs[k + 1] == Check(x.field, Some(x.kind));
      }
    }
  }

  /** When exactly one check fails, its error is the only one. */
  lemma {:induction false} CollectSingle(cs: seq<Check>, k: nat)
    requires k < |cs| && cs[k].error.Some?
    requires forall j :: 0 <= j < |cs| && j != k ==> cs[j].error.None?
    ensures Collect(cs) == [FieldError(cs[k].field, cs[k].error.value)]
  {
    if k == 0 {
      CollectEmpty(cs[1..]);
    } else {
      assert cs[0].error.None?;
      CollectSingle(cs[1..], k - 1);
    }
  }

  /** Errors whose fields strictly follow declaration order. */
  predicate InFieldOrder(e: seq<FieldError>) {
    forall i, j :: 0 <= i < j < |e| ==> FieldIndex(e[i].field) < FieldIndex(e[j].field)
  }

  /** Checks in strictly increasing field order yield errors in that order,
      none about a field before the first check's. */
  lemma {:induction false} CollectInOrder(cs: seq<Check>)
    requires forall i, j :: 0 <= i < j < |cs| ==> FieldIndex(cs[i].field) < FieldIndex(cs[j].field)
    ensures InFieldOrder(Collect(cs))
    ensures cs != [] ==> forall i :: 0 <= i < |Collect(cs)| ==>
      FieldIndex(Collect(cs)[i].field) >= FieldIndex(cs[0].field)
  {
    if cs != [] {
      var tail := cs[1..];
      CollectInOrder(tail);
      var head := if cs[0].error.Some? then [FieldError(cs[0].field, cs[0].error.value)] else [];
      assert Collect(cs) == head + Collect(tail);
      if tail != [] {
        assert FieldIndex(tail[0].field) > FieldIndex(cs[0].field);
      }
    }
  }

  /** The errors of a request, field by field in declaration order. */
  function Errors(req: OrderRequest, validateDefault: bool): seq<FieldError> {
    Collect(Checks(req, validateDefault))
  }

  /** The value an optional field carries: none when absent or null. */
  function ValueOf<T>(i: Input<T>): Option<T> {
    if i.Given? then Some(i.value) else None
  }

  /** Validate a request: the validated order, or every field error.
      `validateDefault == false` is the schema as declared. A validated order
      has the upper-cased symbol, the side and type named by the request's
      values, and every other field as given. */
  function Validate(req: OrderRequest, validateDefault: bool): (r: Result<OrderCreate, seq<FieldError>>)
    ensures r.Failure? ==> r.error != [] && r.error == Errors(req, validateDefault)
    ensures r.Success? <==> Errors(req, validateDefault) == []
    ensures r.Success? ==>
      && req.symbol.Given? && r.value.symbol == Upper(req.symbol.value)
      && req.side.Given? && SideValue(r.value.side) == req.side.value
      && req.orderType.Given? && OrderTypeValue(r.value.orderType) == req.orderType.value
      && req.quantity.Given? && r.value.quantity == req.quantity.value
      && r.value.price == ValueOf(req.price)
      && r.value.stopPrice == ValueOf(req.stopPrice)
      && r.value.stopLoss == ValueOf(req.stopLoss)
      && r.value.takeProfit == ValueOf(req.takeProfit)
      && r.value.strategyName == ValueOf(req.strategyName)
      && r.value.notes == ValueOf(req.notes)
  {
    var symbol := CheckSymbol(req.symbol);
    var side := CheckSide(req.side);
    var orderType := CheckOrderType(req.orderType);
    var quantity := CheckQuantity(req.quantity);
    var price := CheckPrice(req.price, OkOrNone(orderType), validateDefault);
    var stopPrice := CheckOptionalPrice(req.stopPrice);
    var stopLoss := CheckOptionalPrice(req.stopLoss);
    var takeProfit := CheckOptionalPrice(req.takeProfit);
    var strategyName := CheckOptionalText(req.strategyName, StrategyNameMaxLength);
    var notes := CheckOptionalText(req.notes, NotesMaxLength);
    var cs := Checks(req, validateDefault);
    CollectEmpty(cs);
    assert cs[0].error.None? <==> symbol.Success?;
    assert cs[1].error.None? <==> side.Success?;
    assert cs[2].error.None? <==> orderType.Success?;
    assert cs[3].error.None? <==> quantity.Success?;
    assert cs[4].error.None? <==> price.Success?;
    assert cs[5].error.None? <==> stopPrice.Success?;
    assert cs[6].error.None? <==> stopLoss.Success?;
    assert cs[7].error.None? <==> takeProfit.Success?;
    assert cs[8].error.None? <==> strategyName.Success?;
    assert cs[9].error.None? <==> notes.Success?;
    if symbol.Success? && side.Success? && orderType.Success? && quantity.Success? && price.Success?
       && stopPrice.Success? && stopLoss.Success? && takeProfit.Success? && strategyName.Success?
       && notes.Success?
    then
      Success(OrderCreate(symbol.value, side.value, orderType.value, quantity.value, price.value,
                          stopPrice.value, stopLoss.value, takeProfit.value, strategyName.value,
                          notes.value))
    else
      Failure(Errors(req, validateDefault))
  }

  /** What every validated order satisfies, whichever way the defaults are
      treated. */
  predicate WellFormed(c: OrderCreate) {
    && SymbolMinLength <= |c.symbol| <= SymbolMaxLength && IsUpper(c.symbol)
    && c.quantity > 0.0
    && (c.price.Some? ==> c.price.value > 0.0)
    && (c.stopPrice.Some? ==> c.stopPrice.value > 0.0)
    && (c.stopLoss.Some? ==> c.stopLoss.value > 0.0)
    && (c.takeProfit.Some? ==> c.takeProfit.value > 0.0)
    && (c.strategyName.Some? ==> |c.strategyName.value| <= StrategyNameMaxLength)
    && (c.notes.Some? ==> |c.notes.value| <= NotesMaxLength)
  }

  /** The property the limit-price validator is there for. */
  predicate PricedIfLimit(c: OrderCreate) {
    NeedsPrice(c.orderType) ==> c.price.Some?
  }

  function AsInput<T>(o: Option<T>): Input<T> {
    if o.Some? then Given(o.value) else Omitted
  }

  /** The request that carries a validated order: every present field given,
      every absent one omitted. */
  function ToRequest(c: OrderCreate): OrderRequest {
    OrderRequest(Given(c.symbol), Given(SideValue(c.side)), Given(OrderTypeValue(c.orderType)),
                 Given(c.quantity), AsInput(c.price), AsInput(c.stopPrice), AsInput(c.stopLoss),
                 AsInput(c.takeProfit), AsInput(c.strategyName), AsInput(c.notes))
  }

  /** A request validates to a well-formed order. */
  lemma ValidatedIsWellFormed(req: OrderRequest, validateDefault: bool)
    requires Validate(req, validateDefault).Success?
    ensures WellFormed(Validate(req, validateDefault).value)
  {
  }

  /** With the validator applied to defaults, every limit or stop-limit order
      that validates carries a price. */
  lemma ValidatedHasLimitPrice(req: OrderRequest)
    requires Validate(req, true).Success?
    ensures PricedIfLimit(Validate(req, true).value)
  {
  }

  /** Every well-formed order, given back as a request, validates to itself;
      with the validator applied to defaults this holds exactly for the orders
      that are also priced when they are limit orders. */
  lemma ValidateRoundTrip(c: OrderCreate)
    requires WellFormed(c)
    ensures Validate(ToRequest(c), false) == Success(c)
    ensures Validate(ToRequest(c), true) == Success(c) <==> PricedIfLimit(c)
  {
    UpperNormalizes(c.symbol);
    EnumValuesRoundTrip(c.side, c.orderType);
  }

  /** The errors are reported in declaration order, at most one per field. */
  lemma ErrorsInFieldOrder(req: OrderRequest, validateDefault: bool)
    ensures InFieldOrder(Errors(req, validateDefault))
  {
    CollectInOrder(Checks(req, validateDefault));
  }

  /** An order type that fails validation hides the order type from the
      limit-price validator: a null price is then not reported. */
  lemma InvalidOrderTypeSkipsLimitCheck(req: OrderRequest, validateDefault: bool)
    requires CheckOrderType(req.orderType).Failure? && !req.price.Given?
    ensures forall e :: e in Errors(req, validateDefault) ==> e.field != PriceField
  {
    var cs := Checks(req, validateDefault);
    forall e | e in Errors(req, validateDefault)
      ensures e.field != PriceField
    {
      CollectMembers(cs, e);
      var k :| 0 <= k < |cs| && cs[k] == Check(e.field, Some(e.kind));
      assert k != 4;
    }
  }

  /** The schema as declared accepts a LIMIT order whose price is omitted: the
      limit-price validator is not run on the default. An explicit null is
      rejected. */
  lemma OmittedLimitPriceAccepted()
    ensures var req := OrderRequest(Given("BTCUSDT"), Given("buy"), Given("limit"), Given(1.0),
                                    Omitted, Omitted, Omitted, Omitted, Omitted, Omitted);
      && Validate(req, false) == Success(OrderCreate("BTCUSDT", Buy, Limit, 1.0, None, None, None, None, None, None))
      && !PricedIfLimit(Validate(req, false).value)
      && Validate(req.(price := Null), false) == Failure([FieldError(PriceField, LimitPriceMissing)])
      && Validate(req, true) == Failure([FieldError(PriceField, LimitPriceMissing)])
  {
    var req := OrderRequest(Given("BTCUSDT"), Given("buy"), Given("limit"), Given(1.0),
                            Omitted, Omitted, Omitted, Omitted, Omitted, Omitted);
    UpperNormalizes("BTCUSDT");
    assert ParseOrderType("limit") == Some(Limit);
    assert ParseSide("buy") == Some(Buy);
    assert CheckSymbol(req.symbol) == Success("BTCUSDT");
    assert CheckPrice(Omitted, Some(Limit), false) == Success(None);
    assert CheckPrice(Null, Some(Limit), false) == Failure(LimitPriceMissing);
    assert CheckPrice(Omitted, Some(Limit), true) == Failure(LimitPriceMissing);
    CollectSingle(Checks(req.(price := Null), false), 4);
    CollectSingle(Checks(req, true), 4);
  }
}
