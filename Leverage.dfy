/**
 * The leverage slider: the margin a leveraged position needs, the four risk tiers with
 * their alert texts, the position-size line and the badge that shows the leverage.
 */
module Leverage {
  import opened Wrappers
  import opened JsText

  /** The component's defaults for the props the caller may omit. */
  const DefaultMinLeverage: real := 1.0
  const DefaultMaxLeverage: real := 100.0
  const DefaultStep: real := 1.0
  const DefaultAssetSymbol: string := "USDT"

  /** `marginRequired`: the position value divided by the leverage; 0 for a leverage that is not positive. */
  function MarginRequired(notional: real, leverage: real): (r: real)
    ensures leverage > 0.0 ==> r * leverage == notional
    ensures leverage <= 0.0 ==> r == 0.0
  {
    if leverage > 0.0 then notional / leverage else 0.0
  }

  /** With a leverage of at least 1 the margin never exceeds the position and keeps its sign. */
  lemma MarginBounds(notional: real, leverage: real)
    requires leverage >= 1.0 && notional >= 0.0
    ensures 0.0 <= MarginRequired(notional, leverage) <= notional
  {
    var m := MarginRequired(notional, leverage);
    ProductBounds(m, leverage, notional);
  }

  /** If `m * l == n` with `l >= 1` and `n >= 0`, then `m` lies between 0 and `n`. */
  lemma ProductBounds(m: real, l: real, n: real)
    requires l >= 1.0 && n >= 0.0 && m * l == n
    ensures 0.0 <= m <= n
  {
    assert n - m == m * (l - 1.0);
  }

  // ---------------------------------------------------------------------------
  // Risk profile
  // ---------------------------------------------------------------------------

  datatype RiskLevel = Low | Medium | High | Extreme

  datatype AlertVariant = DefaultAlert | DestructiveAlert

  /** The variant `None` shows the green box instead of an alert. */
  datatype RiskProfile = RiskProfile(level: RiskLevel, title: string, description: string, variant: Option<AlertVariant>)

  /** The tier chain of `getRiskProfile`: at most 10, 25 and 75, else extreme. */
  function Tier(leverage: real): RiskLevel
  {
    if leverage <= 10.0 then Low
    else if leverage <= 25.0 then Medium
    else if leverage <= 75.0 then High
    else Extreme
  }

  /** Tiers in order of increasing risk. */
  function Rank(level: RiskLevel): nat
  {
    match level
    case Low => 0
    case Medium => 1
    case High => 2
    case Extreme => 3
  }

  /** The fixed text before `${leverage}` in each tier's description. */
  function Lead(level: RiskLevel): string
  {
    match level
    case Low => "Leverage at "
    case Medium => "Leverage of "
    case High => "At "
    case Extreme => "Trading with "
  }

  const LowTail := ". Prudent leverage can enhance capital efficiency. Always manage your risk."
  const MediumTail := " magnifies both potential gains and losses. Ensure proper risk management."
  const HighTail := " leverage, market volatility can significantly impact your margin. Risk of liquidation is substantial."
  const ExtremeTail := " leverage is highly speculative and carries an extreme risk of rapid liquidation with minor price fluctuations. Proceed with utmost caution."

  /** The fixed text after `${leverage}x`. */
  function Tail(level: RiskLevel): string
  {
    match level
    case Low => LowTail
    case Medium => MediumTail
    case High => HighTail
    case Extreme => ExtremeTail
  }

  function Title(level: RiskLevel): string
  {
    match level
    case Low => "Low Risk"
    case Medium => "Moderate Risk"
    case High => "High Risk"
    case Extreme => "Extreme Risk - Liquidation Danger!"
  }

  function Variant(level: RiskLevel): Option<AlertVariant>
  {
    match level
    case Low => None
    case Medium => Some(DefaultAlert)
    case High => Some(DestructiveAlert)
    case Extreme => Some(DestructiveAlert)
  }

  /** The record `getRiskProfile` returns for a tier, with `shown` in place of `${leverage}`. */
  function ProfileFor(level: RiskLevel, shown: string): RiskProfile
  {
    RiskProfile(level, Title(level), Lead(level) + (shown + "x") + Tail(level), Variant(level))
  }

  /**
   * `getRiskProfile(leverage)`. The leverage is a finite decimal, so its `${leverage}` text
   * in the description is `NumberToString`.
   */
  function GetRiskProfile(leverage: Decimal): RiskProfile
  {
    ProfileFor(Tier(Value(leverage)), NumberToString(leverage))
  }

  /** Each tier covers exactly its interval of leverage. */
  lemma TierIntervals(leverage: real)
    ensures Tier(leverage) == Low <==> leverage <= 10.0
    ensures Tier(leverage) == Medium <==> 10.0 < leverage <= 25.0
    ensures Tier(leverage) == High <==> 25.0 < leverage <= 75.0
    ensures Tier(leverage) == Extreme <==> 75.0 < leverage
  {
  }

  /** More leverage never means a lower tier. */
  lemma TierMonotone(a: real, b: real)
    requires a <= b
    ensures Rank(Tier(a)) <= Rank(Tier(b))
  {
  }

  /** No alert for low risk, the default alert for medium risk and the destructive one above. */
  lemma VariantRule(leverage: Decimal)
    ensures var r := GetRiskProfile(leverage);
      r.level == Tier(Value(leverage))
      && (r.variant == None <==> r.level == Low)
      && (r.variant == Some(DefaultAlert) <==> r.level == Medium)
      && (r.variant == Some(DestructiveAlert) <==> r.level == High || r.level == Extreme)
  {
    ProfileRule(Tier(Value(leverage)), NumberToString(leverage));
  }

  lemma ProfileRule(level: RiskLevel, shown: string)
    ensures var r := ProfileFor(level, shown);
      r.level == level
      && (r.variant == None <==> level == Low)
      && (r.variant == Some(DefaultAlert) <==> level == Medium)
      && (r.variant == Some(DestructiveAlert) <==> level == High || level == Extreme)
  {
    var r := ProfileFor(level, shown);
    assert r.level == level && r.variant == Variant(level);
    VariantIff(level);
  }

  lemma VariantIff(level: RiskLevel)
    ensures Variant(level) == None <==> level == Low
    ensures Variant(level) == Some(DefaultAlert) <==> level == Medium
    ensures Variant(level) == Some(DestructiveAlert) <==> level == High || level == Extreme
  {
  }

  /** An alert replaces the green box exactly when the leverage is above 10. */
  lemma AlertShownIff(leverage: Decimal)
    ensures GetRiskProfile(leverage).variant.Some? <==> Value(leverage) > 10.0
  {
    ProfileRule(Tier(Value(leverage)), NumberToString(leverage));
  }

  /** Every description names the leverage as it is written, followed by `x`. */
  lemma DescriptionNamesLeverage(leverage: Decimal)
    ensures Includes(GetRiskProfile(leverage).description, NumberToString(leverage) + "x")
  {
    DescriptionNames(Tier(Value(leverage)), NumberToString(leverage));
  }

  lemma DescriptionNames(level: RiskLevel, shown: string)
    ensures Includes(ProfileFor(level, shown).description, shown + "x")
  {
    IncludesMiddle(Lead(level), shown + "x", Tail(level));
  }

  /** A string includes whatever sits in its middle. */
  lemma IncludesMiddle(a: string, b: string, c: string)
    ensures Includes(a + b + c, b)
  {
    var s := a + b + c;
    assert s[|a|..|a| + |b|] == b;
    assert OccursAt(s, b, |a|);
    IncludesIff(s, b);
  }

  // ---------------------------------------------------------------------------
  // Position size, slider and badge
  // ---------------------------------------------------------------------------

  /** The "For a position size of …" line is rendered when both numbers are positive. */
  predicate ShowPositionSize(notional: real, leverage: real)
  {
    notional > 0.0 && leverage > 0.0
  }

  /** When the position-size line is shown, the margin above it is positive. */
  lemma PositionSizeMeansMargin(notional: real, leverage: real)
    requires ShowPositionSize(notional, leverage)
    ensures MarginRequired(notional, leverage) > 0.0
  {
    var m := MarginRequired(notional, leverage);
    if m <= 0.0 {
      NonPositiveTimesPositive(m, leverage);
    }
  }

  lemma NonPositiveTimesPositive(m: real, l: real)
    requires m <= 0.0 && l > 0.0
    ensures m * l <= 0.0
  {
  }

  /**
   * `handleSliderChange`: the slider has one thumb and reports one value per thumb; the
   * handler passes the first on.
   */
  function HandleSliderChange(value: seq<real>): (r: real)
    requires |value| >= 1
    ensures r in value
  {
    value[0]
  }

  /** The first thumb's value is the one passed on, whatever the slider reports after it. */
  lemma ForwardsFirst(first: real, rest: seq<real>)
    ensures HandleSliderChange([first] + rest) == first
  {
  }

  /** The slider is given `[currentLeverage]`, so reporting that value back keeps the leverage. */
  lemma SliderRoundTrip(current: real)
    ensures HandleSliderChange([current]) == current
  {
  }

  /** `leverage % 1` with JavaScript's remainder, whose sign follows the dividend. */
  function JsRemOne(x: real): real
  {
    if x >= 0.0 then x - x.Floor as real else x + (-x).Floor as real
  }

  /** The remainder is zero exactly for whole numbers. */
  lemma RemOneZeroIff(x: real)
    ensures JsRemOne(x) == 0.0 <==> x == x.Floor as real
  {
    if x < 0.0 {
      var k := (-x).Floor;
      if x + k as real == 0.0 {
        assert x == (-k) as real;
        assert x.Floor == -k;
      }
      if x == x.Floor as real {
        assert -x == (-x.Floor) as real;
        assert (-x).Floor == -x.Floor;
      }
    }
  }

  /** The badge's `toFixed` digits: none for a whole leverage, one otherwise. */
  function BadgePrecision(leverage: real): (r: nat)
    ensures r == 0 <==> leverage == leverage.Floor as real
    ensures r <= 1
  {
    RemOneZeroIff(leverage);
    if JsRemOne(leverage) == 0.0 then 0 else 1
  }
}
