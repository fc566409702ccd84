/**
 * The trading page: the spot order form with its two validation rules and running total,
 * the fixed futures order with its notional value and leveraged position, and the
 * confirmation record each submit leaves behind.
 */
module Trading {
  import opened Wrappers
  import opened JsText
  import opened Leverage

  datatype OrderType = Market | Limit

  datatype TradeTab = Spot | Futures | Options

  /** The spot form's values; `price` is optional in the schema. */
  datatype SpotForm = SpotForm(orderType: OrderType, price: Option<string>, amount: string)

  /** `defaultValues`: a limit order with empty price and amount. */
  const DefaultSpotForm: SpotForm := SpotForm(Limit, Some(""), "")

  const TradingPair: string := "BTC/USDT"

  /** The slider bounds the page passes, and the leverage it starts with. */
  const MinLeverage: real := 1.0
  const MaxLeverage: real := 125.0
  const InitialLeverage: real := 10.0

  // ---------------------------------------------------------------------------
  // Validation
  // ---------------------------------------------------------------------------

  /** One failed refinement: the field it is reported on and its message. */
  datatype Issue = Issue(path: string, message: string)

  const AmountIssue: Issue := Issue("amount", "Amount must be a positive number.")
  const PriceIssue: Issue := Issue("price", "Price is required for limit orders and must be positive.")

  /** The amount refinement: the text parses to a number and that number is positive. */
  predicate AmountValid(amount: string)
  {
    ParseFloat(amount).Some? && ParseFloat(amount).value > 0.0
  }

  /** A JavaScript string that is truthy: present and not empty. */
  predicate Truthy(s: Option<string>)
  {
    s.Some? && s.value != ""
  }

  /** The object refinement: a limit order needs a price that parses to a positive number. */
  predicate PriceValid(f: SpotForm)
  {
    f.orderType == Limit ==> Truthy(f.price) && AmountValid(f.price.value)
  }

  /** The issues the schema reports for a form; the form is submitted only when there are none. */
  function Validate(f: SpotForm): (r: seq<Issue>)
    ensures r == [] <==> AmountValid(f.amount) && PriceValid(f)
    ensures AmountIssue in r <==> !AmountValid(f.amount)
    ensures PriceIssue in r <==> !PriceValid(f)
    ensures |r| <= 2
  {
    (if AmountValid(f.amount) then [] else [AmountIssue])
    + (if PriceValid(f) then [] else [PriceIssue])
  }

  /** A number written out by `toString` is a valid amount iff it is positive. */
  lemma AmountOfNumber(d: Decimal)
    ensures AmountValid(NumberToString(d)) <==> Value(d) > 0.0
  {
    ParseFloatOfNumberToString(d);
  }

  /** An empty or blank amount is never valid. */
  lemma BlankAmountInvalid(amount: string)
    requires forall i :: 0 <= i < |amount| ==> IsJsSpace(amount[i])
    ensures !AmountValid(amount)
  {
    ParseBlank(amount);
  }

  /** A market order passes the price rule whatever the price text. */
  lemma MarketIgnoresPrice(f: SpotForm, p: Option<string>)
    requires f.orderType == Market
    ensures PriceValid(f) && Validate(f.(price := p)) == Validate(f)
  {
  }

  /** A limit order without a price text is rejected on the price field. */
  lemma LimitNeedsPrice(f: SpotForm)
    requires f.orderType == Limit && !Truthy(f.price)
    ensures PriceIssue in Validate(f)
  {
  }

  /** The untouched form reports both issues: the amount and the limit price are empty. */
  lemma DefaultFormRejected()
    ensures Validate(DefaultSpotForm) == [AmountIssue, PriceIssue]
  {
    BlankAmountInvalid("");
  }

  // ---------------------------------------------------------------------------
  // Totals
  // ---------------------------------------------------------------------------

  /** `watch(field) || "0"`: a missing or empty field reads as "0". */
  function FieldText(s: Option<string>): string
  {
    if Truthy(s) then s.value else "0"
  }

  /** `parseFloat(text) || 0`: NaN (and 0 itself) become 0. */
  function NumberOr0(text: string): real
  {
    ParseFloat(text).GetOr(0.0)
  }

  /** A field's contribution to a product: its parsed value, 0 when missing, empty or NaN. */
  function FieldNumber(s: Option<string>): real
  {
    if Truthy(s) then NumberOr0(s.value) else 0.0
  }

  /** `spotCalculatedTotal`. */
  function SpotTotal(f: SpotForm): real
  {
    Times(FieldNumber(f.price), FieldNumber(Some(f.amount)))
  }

  lemma ParseZero()
    ensures ParseFloat("0") == Some(0.0)
  {
    assert DigitsValue("0") == 0 && AllDigits("0");
    assert PointText("0", "") == "0";
    ParseFloatOfPoint("0", "", 0, 0, 1, 0.0);
  }

  /** `FieldNumber` is the page's `parseFloat(watch(field) || "0") || 0`. */
  lemma FieldNumberIsFallback(s: Option<string>)
    ensures FieldNumber(s) == NumberOr0(FieldText(s))
  {
    if !Truthy(s) {
      ParseZero();
    }
  }

  /** A field that is missing, empty or not a number contributes 0. */
  lemma FieldZero(s: Option<string>)
    requires !Truthy(s) || ParseFloat(s.value).None?
    ensures FieldNumber(s) == 0.0
  {
  }

  /** The total is 0 as soon as either field is missing, empty or not a number. */
  lemma SpotTotalMissing(f: SpotForm)
    requires !Truthy(f.price) || ParseFloat(f.price.value).None?
          || f.amount == "" || ParseFloat(f.amount).None?
    ensures SpotTotal(f) == 0.0
  {
    if !Truthy(f.price) || ParseFloat(f.price.value).None? {
      FieldZero(f.price);
    } else {
      FieldZero(Some(f.amount));
    }
  }

  /** Two fields that parse give the product of their values as the total. */
  lemma SpotTotalOfParsed(f: SpotForm, p: real, a: real)
    requires Truthy(f.price) && ParseFloat(f.price.value) == Some(p)
    requires f.amount != "" && ParseFloat(f.amount) == Some(a)
    ensures SpotTotal(f) == p * a
  {
    FieldOfParsed(f.price, p);
    FieldOfParsed(Some(f.amount), a);
  }

  /** A field that parses contributes its value. */
  lemma FieldOfParsed(s: Option<string>, v: real)
    requires Truthy(s) && ParseFloat(s.value) == Some(v)
    ensures FieldNumber(s) == v
  {
  }

  /** A field holding a number's text contributes that number. */
  lemma FieldOfNumber(d: Decimal)
    ensures FieldNumber(Some(NumberToString(d))) == Value(d)
  {
    NumberToStringNotEmpty(d);
    ParseFloatOfNumberToString(d);
  }

  /** Price and amount written out as numbers give their product as the total. */
  lemma SpotTotalOfNumbers(t: OrderType, price: Decimal, amount: Decimal)
    ensures SpotTotal(SpotForm(t, Some(NumberToString(price)), NumberToString(amount)))
      == Value(price) * Value(amount)
  {
    FieldOfNumber(price);
    FieldOfNumber(amount);
  }

  // ---------------------------------------------------------------------------
  // Futures
  // ---------------------------------------------------------------------------

  /** The futures form's fixed example price and amount. */
  const FuturesPriceText: string := "29500.50"
  const FuturesAmountText: string := "0.1"

  /** `futuresCalculatedNotional`, the cost of the position without leverage, from the form's texts. */
  function Notional(priceText: string, amountText: string): real
  {
    Times(NumberOr0(priceText), NumberOr0(amountText))
  }

  /** The position after leverage: the value shown as the maximum and given to the slider. */
  function MaxPosition(notional: real, leverage: real): real
  {
    notional * leverage
  }

  /** The example texts read as 29500.5 and 0.1, so the cost is 2950.05. */
  lemma FuturesNotionalValue()
    ensures Notional(FuturesPriceText, FuturesAmountText) == 2950.05
  {
    PriceTextValue();
    AmountTextValue();
  }

  lemma PriceTextValue()
    ensures ParseFloat(FuturesPriceText) == Some(29500.5)
  {
    PriceDigits();
    assert FuturesPriceText == PointText("29500", "50");
    ParseFloatOfPoint("29500", "50", 29500, 50, 100, 29500.5);
  }

  lemma PriceDigits()
    ensures AllDigits("29500") && DigitsValue("29500") == 29500
    ensures AllDigits("50") && DigitsValue("50") == 50
  {
    assert "29500"[..4] == "2950" && "2950"[..3] == "295" && "295"[..2] == "29" && "29"[..1] == "2";
    assert "50"[..1] == "5";
  }

  lemma AmountTextValue()
    ensures ParseFloat(FuturesAmountText) == Some(0.1)
  {
    assert DigitsValue("0") == 0 && DigitsValue("1") == 1;
    assert AllDigits("0") && AllDigits("1");
    assert FuturesAmountText == PointText("0", "1");
    ParseFloatOfPoint("0", "1", 0, 1, 10, 0.1);
  }

  /** The slider, given the leveraged position, reports the unleveraged cost as the margin. */
  lemma SliderMarginIsCost(notional: real, leverage: real)
    requires leverage > 0.0
    ensures MarginRequired(MaxPosition(notional, leverage), leverage) == notional
  {
    var m := MarginRequired(MaxPosition(notional, leverage), leverage);
    assert m * leverage == notional * leverage;
    CancelFactor(m, notional, leverage);
  }

  lemma CancelFactor(a: real, b: real, c: real)
    requires c != 0.0 && a * c == b * c
    ensures a == b
  {
    assert (a - b) * c == 0.0;
  }

  /**
   * At every leverage the slider allows, the example position is shown with its size, and
   * its margin is the example cost.
   */
  lemma PositionShownOnSlider(leverage: real)
    requires MinLeverage <= leverage <= MaxLeverage
    ensures var n := Notional(FuturesPriceText, FuturesAmountText);
      ShowPositionSize(MaxPosition(n, leverage), leverage)
      && MarginRequired(MaxPosition(n, leverage), leverage) == n
  {
    FuturesNotionalValue();
    SliderMarginIsCost(Notional(FuturesPriceText, FuturesAmountText), leverage);
  }

  // ---------------------------------------------------------------------------
  // Submitting
  // ---------------------------------------------------------------------------

  /** The confirmation record `submittedOrderData`. */
  datatype OrderRecord =
    | SpotOrder(orderType: OrderType, price: Option<string>, amount: string, pair: string)
    | FuturesOrder(pair: string, leverage: real, futuresPrice: string, futuresAmount: string)

  datatype TradeState = TradeState(
    tab: TradeTab,
    confirmOpen: bool,
    submitted: Option<OrderRecord>,
    leverage: real,
    form: SpotForm)

  const InitialTradeState: TradeState := TradeState(Spot, false, None, InitialLeverage, DefaultSpotForm)

  /**
   * A spot submit: `handleSubmit` calls `handleSpotSubmit` only for a form without issues,
   * which records the order, opens the dialog and resets the form.
   */
  function SubmitSpot(s: TradeState): (r: TradeState)
    ensures Validate(s.form) == [] ==>
      r == s.(submitted := Some(SpotOrder(s.form.orderType, s.form.price, s.form.amount, TradingPair)),
              confirmOpen := true, form := DefaultSpotForm)
    ensures Validate(s.form) != [] ==> r == s
  {
    if Validate(s.form) == [] then
      s.(submitted := Some(SpotOrder(s.form.orderType, s.form.price, s.form.amount, TradingPair)),
         confirmOpen := true, form := DefaultSpotForm)
    else s
  }

  /** `handleFuturesSubmit`: a market order of 0.1 at the current leverage. */
  function SubmitFutures(s: TradeState): (r: TradeState)
    ensures r.confirmOpen && r.submitted == Some(FuturesOrder(TradingPair, s.leverage, "Market", "0.1"))
    ensures r.(confirmOpen := s.confirmOpen, submitted := s.submitted) == s
  {
    s.(submitted := Some(FuturesOrder(TradingPair, s.leverage, "Market", "0.1")), confirmOpen := true)
  }

  /** `onLeverageChange` from the slider. */
  function SetLeverage(s: TradeState, value: seq<real>): (r: TradeState)
    requires |value| >= 1
    ensures r.leverage == value[0] && r.(leverage := s.leverage) == s
  {
    s.(leverage := HandleSliderChange(value))
  }

  /** A spot record is only ever made from a valid form, and the form is then blank again. */
  lemma SpotRecordValid(s: TradeState)
    requires SubmitSpot(s).submitted != s.submitted
    ensures var o := SubmitSpot(s).submitted.value;
      o.SpotOrder? && AmountValid(o.amount) && PriceValid(SpotForm(o.orderType, o.price, o.amount))
    ensures SubmitSpot(s).form == DefaultSpotForm
  {
  }

  /** A second spot submit straight after a successful one changes nothing: the reset form is rejected. */
  lemma ResetFormBlocksResubmit(s: TradeState)
    requires Validate(s.form) == []
    ensures SubmitSpot(SubmitSpot(s)) == SubmitSpot(s)
  {
    DefaultFormRejected();
  }

  /** The futures record carries the leverage the slider last reported. */
  lemma FuturesCarriesLeverage(s: TradeState, value: seq<real>)
    requires |value| >= 1
    ensures SubmitFutures(SetLeverage(s, value)).submitted.value.leverage == value[0]
  {
  }
}
