/**
 * The earn page's APY calculator: the APY text it starts with, the guard on its three
 * inputs and the estimated earnings, and the staking products that prefill it.
 */
module Earn {
  import opened Wrappers
  import opened JsText

  /** The parsed inputs handed to `onCalculate`. */
  datatype CalcDetails = CalcDetails(amount: real, apy: real, duration: int)

  /**
   * What one press of "Calculate" leaves behind: the value given to
   * `setCalculatedEarnings` (`None` is `null`) and the details `onCalculate` was called
   * with (`None` when it was not called).
   */
  datatype CalcOutcome = CalcOutcome(earnings: Option<real>, reported: Option<CalcDetails>)

  /** The `defaultApy` prop, 0 when the caller omits it. */
  function DefaultApy(defaultApy: Option<Decimal>): Decimal
  {
    defaultApy.GetOr(Decimal(0, 0))
  }

  /** The initial `apy` text: `defaultApy.toString()` when it is truthy (not 0), else empty. */
  function InitialApyText(defaultApy: Option<Decimal>): string
  {
    var d := DefaultApy(defaultApy);
    if Value(d) != 0.0 then NumberToString(d) else ""
  }

  /** Simple interest: `amount * (apy / 100) * (duration / 365)`. */
  function Earnings(amount: real, apy: real, duration: int): real
  {
    Times(Times(amount, apy / 100.0), duration as real / 365.0)
  }

  /** The guard of `handleCalculate`: all three inputs parse and the duration is positive. */
  predicate InputsValid(amount: string, apy: string, duration: string)
  {
    ParseFloat(amount).Some? && ParseFloat(apy).Some? && ParseInt(duration).Some?
    && ParseInt(duration).value > 0
  }

  /**
   * `handleCalculate` on the three input texts: amount and APY through `parseFloat`, the
   * duration through `parseInt(duration, 10)`.
   */
  function HandleCalculate(amount: string, apy: string, duration: string): (r: CalcOutcome)
    ensures r.earnings.Some? <==> InputsValid(amount, apy, duration)
    ensures r.reported.Some? <==> r.earnings.Some?
    ensures r.reported.Some? ==>
      var d := r.reported.value;
      Some(d.amount) == ParseFloat(amount) && Some(d.apy) == ParseFloat(apy)
      && Some(d.duration) == ParseInt(duration)
      && r.earnings == Some(Earnings(d.amount, d.apy, d.duration))
  {
    if InputsValid(amount, apy, duration) then
      var d := CalcDetails(ParseFloat(amount).value, ParseFloat(apy).value, ParseInt(duration).value);
      CalcOutcome(Some(Earnings(d.amount, d.apy, d.duration)), Some(d))
    else
      CalcOutcome(None, None)
  }

  /** The earnings are `amount * apy * duration / 36500`. */
  lemma EarningsFormula(amount: real, apy: real, duration: int)
    ensures Earnings(amount, apy, duration) == amount * apy * duration as real / 36500.0
  {
  }

  /** Nothing is earned on a zero amount or over a zero rate. */
  lemma EarningsZero(amount: real, apy: real, duration: int)
    requires amount == 0.0 || apy == 0.0
    ensures Earnings(amount, apy, duration) == 0.0
  {
  }

  /** Amount and APY are not sign-checked: a negative amount at a positive rate loses money. */
  lemma NegativeAmountLoses(amount: real, apy: real, duration: int)
    requires amount < 0.0 && apy > 0.0 && duration > 0
    ensures Earnings(amount, apy, duration) < 0.0
  {
    var rate := apy / 100.0;
    var years := duration as real / 365.0;
    NegativeTimesPositive(amount, rate);
    NegativeTimesPositive(Times(amount, rate), years);
  }

  lemma NegativeTimesPositive(a: real, b: real)
    requires a < 0.0 && b > 0.0
    ensures Times(a, b) < 0.0
  {
    assert -Times(a, b) == (-a) * b;
  }

  /** A positive amount at a positive rate earns something. */
  lemma PositiveInputsEarn(amount: real, apy: real, duration: int)
    requires amount > 0.0 && apy > 0.0 && duration > 0
    ensures Earnings(amount, apy, duration) > 0.0
  {
    var rate := apy / 100.0;
    var years := duration as real / 365.0;
    PositiveTimesPositive(amount, rate);
    PositiveTimesPositive(Times(amount, rate), years);
  }

  lemma PositiveTimesPositive(a: real, b: real)
    requires a > 0.0 && b > 0.0
    ensures Times(a, b) > 0.0
  {
  }

  /** A zero duration is rejected: no earnings and no report. */
  lemma ZeroDurationRejected(amount: string, apy: string)
    ensures HandleCalculate(amount, apy, "0") == CalcOutcome(None, None)
  {
    ParseIntOfNatDigits(0);
    assert NatDigits(0) == "0";
  }

  /** An empty or blank input is rejected: no earnings and no report. */
  lemma BlankInputRejected(amount: string, apy: string, duration: string)
    requires (forall i :: 0 <= i < |amount| ==> IsJsSpace(amount[i]))
          || (forall i :: 0 <= i < |apy| ==> IsJsSpace(apy[i]))
          || (forall i :: 0 <= i < |duration| ==> IsJsSpace(duration[i]))
    ensures HandleCalculate(amount, apy, duration) == CalcOutcome(None, None)
  {
    if forall i :: 0 <= i < |amount| ==> IsJsSpace(amount[i]) {
      ParseBlank(amount);
    } else if forall i :: 0 <= i < |apy| ==> IsJsSpace(apy[i]) {
      ParseBlank(apy);
    } else {
      ParseBlank(duration);
    }
  }

  /** A fractional duration counts as its whole days: `n.rest` gives the same outcome as `n`. */
  lemma DurationTruncated(amount: string, apy: string, n: nat, rest: string)
    ensures HandleCalculate(amount, apy, NatDigits(n) + "." + rest)
         == HandleCalculate(amount, apy, NatDigits(n))
  {
    ParseIntTruncates(n, rest);
    ParseIntOfNatDigits(n);
  }

  /**
   * Numbers typed as they print and a whole number of days are accepted exactly when the
   * duration is positive, and the earnings are those of the typed numbers.
   */
  lemma CalculateOfNumbers(amount: Decimal, apy: Decimal, days: nat)
    ensures var r := HandleCalculate(NumberToString(amount), NumberToString(apy), NatDigits(days));
      (r.earnings.Some? <==> days > 0)
      && (days > 0 ==> r.reported == Some(CalcDetails(Value(amount), Value(apy), days))
                       && r.earnings == Some(Earnings(Value(amount), Value(apy), days)))
  {
    ParseFloatOfNumberToString(amount);
    ParseFloatOfNumberToString(apy);
    ParseIntOfNatDigits(days);
  }

  /** Without a (truthy) `defaultApy` the APY field starts empty. */
  lemma NoDefaultApyIsEmpty(defaultApy: Option<Decimal>)
    requires defaultApy.None? || Value(defaultApy.value) == 0.0
    ensures InitialApyText(defaultApy) == ""
  {
  }

  /** A non-zero `defaultApy` is prefilled as text that reads back as that rate. */
  lemma DefaultApyRoundTrip(d: Decimal)
    requires Value(d) != 0.0
    ensures InitialApyText(Some(d)) == NumberToString(d)
    ensures ParseFloat(InitialApyText(Some(d))) == Some(Value(d))
  {
    ParseFloatOfNumberToString(d);
  }

  // ---------------------------------------------------------------------------
  // Staking products
  // ---------------------------------------------------------------------------

  /** A staking product as the calculator sees it: its id and its APY. */
  datatype StakingProduct = StakingProduct(id: string, apy: Decimal)

  /** `stakingProducts`: 5.5, 12.0 and 7.2 percent. */
  const StakingProducts: seq<StakingProduct> := [
    StakingProduct("eth2", Decimal(55, 1)),
    StakingProduct("atom", Decimal(12, 0)),
    StakingProduct("sol", Decimal(72, 1))
  ]

  /** Every staking product's calculator starts with its own APY, readable as a number. */
  lemma StakingApyPrefilled(i: nat)
    requires i < |StakingProducts|
    ensures var d := StakingProducts[i].apy;
      InitialApyText(Some(d)) != "" && ParseFloat(InitialApyText(Some(d))) == Some(Value(d))
  {
    var d := StakingProducts[i].apy;
    assert Pow10(1) == 10;
    assert Value(d) > 0.0;
    DefaultApyRoundTrip(d);
    NumberToStringNotEmpty(d);
  }
}
