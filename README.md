# Crypto app rules, in Dafny

This project models the deterministic rules inside a mock cryptocurrency trading app built with
React. It does not model the rendering. The rules are:

- **Markets list.** Favourites are toggled in a set. The coin list is marked with its favourites,
  then filtered by the all / favourites / gainers / losers buttons (gainers and losers are also
  sorted), then searched by name or symbol, ignoring case.
- **Wallet.** The allocation chart data and the case-insensitive transaction search.
  Each row's amount sign (+ or -) and its status badge.
  The deposit and withdraw dialogs, and the expression that disables Confirm Withdraw.
- **Trading.** The spot order schema's two refinements, the running spot total, the fixed
  futures example with its notional value, the leveraged position handed to the slider, and the
  confirmation record each submit leaves behind.
- **Leverage slider.** The required margin, the four risk tiers with their alert variants and
  texts, the position-size line, the change handler, and the precision of the leverage badge.
- **Earn.** The APY calculator's initial APY text, its input guard, the earnings formula and the
  triple it reports, and the staking products that prefill it.
- **Tab bar.** The five tabs and the rule that highlights the tab of the current location.
- **Particle background.** Particles are spawned from random draws. Each frame sets every
  particle's vertical velocity from the market trend, applies the pointer's repulsion and the
  speed cap (both given as functions), moves the particle and reflects it off the walls with
  clamping. The field is a class holding an array that the frame updates in place.

Shared modules:

- `Wrappers` holds `Option`.
- `JsText` holds the JavaScript built-ins the rules rely on. `toLowerCase` is ASCII lowering.
  `includes` and `startsWith` are substring tests. `parseFloat` and `parseInt` return
  `Option`, with `None` standing for `NaN`; every comparison with it is false (`NumLe`,
  `NumGt`). `Number#toString` is modelled for finite decimals, with its round trip through
  `parseFloat` proved.
- `Seqs` holds an order-preserving filter and a stable insertion sort. Both are proved to keep
  membership and multiplicity.

Numbers are exact `real`s. A product of two parsed values goes through `JsText.Times`, which
is plain multiplication.

The particle code has no zero-area guard: a canvas of zero width and height still gets
`particleCount` particles, all at the origin (`Particles.ZeroAreaStillSpawns`).

## Model

| member | source | states |
|---|---|---|
| Markets.Toggled | src/pages/MarketsPage.tsx:50-60 | the toggled id is a favourite iff it was not one before, and no other id changes |
| Markets.ToggleFavorite | src/pages/MarketsPage.tsx:50-60 | copying the set and then deleting or adding the id yields exactly `Toggled(prev, id)` |
| Markets.ToggleTwice | src/pages/MarketsPage.tsx:52-58 | toggling the same id twice restores the original favourites |
| Markets.MarkFavorites | src/pages/MarketsPage.tsx:63 | same length and order; each coin's `isFavorite` is the membership of its id, and no other field changes |
| Markets.SetActiveFilter | src/pages/MarketsPage.tsx:135-138 | a selected value becomes the filter; an empty selection keeps the current one |
| Markets.FavoritesAreMembers | src/pages/MarketsPage.tsx:63-66 | on marked coins, the favourites filter equals the order-preserving filter by membership in the favourites set |
| Markets.GainersExact | src/pages/MarketsPage.tsx:67-68 | gainers are exactly the coins with a positive change, with the same multiplicities, sorted by non-increasing change |
| Markets.LosersExact | src/pages/MarketsPage.tsx:69-70 | losers are exactly the coins with a negative change, with the same multiplicities, sorted by non-decreasing change |
| Markets.UnchangedInNeither | src/pages/MarketsPage.tsx:67-70 | a coin with zero change is neither a gainer nor a loser |
| Markets.SearchKeeps | src/pages/MarketsPage.tsx:73-78 | a non-empty search keeps a coin iff its lower-cased name or symbol includes the lower-cased term |
| Markets.EmptySearch | src/pages/MarketsPage.tsx:73 | an empty term leaves the list unchanged |
| Markets.FilteredSubMultiset | src/pages/MarketsPage.tsx:62-80 | the pipeline's result is a sub-multiset of the marked coin list, for every filter and term |
| Seqs.Filter | src/pages/MarketsPage.tsx:66 | the filter keeps exactly the elements satisfying the predicate, as an order-preserving subsequence |
| Seqs.SortBy | src/pages/MarketsPage.tsx:68 | the result is sorted by the key and is a permutation of the input |
| Seqs.FilterMember | src/pages/WalletManagementPage.tsx:100-104 | an element is in the filtered list iff it is in the list and satisfies the predicate |
| Seqs.FilterSubMultiset | src/pages/MarketsPage.tsx:74-77 | filtering never adds or duplicates an element |
| Wallet.AssetAllocation | src/pages/WalletManagementPage.tsx:92-96 | one entry per asset, in order, with name = symbol, value = valueUSD and fill = color |
| Wallet.AllocationAddsUp | src/pages/WalletManagementPage.tsx:68-74 | the fixture slices add up to the total balance the page shows |
| Wallet.EmptyTxSearch | src/pages/WalletManagementPage.tsx:99 | an empty term returns the transaction list unchanged |
| Wallet.TxSearchKeeps | src/pages/WalletManagementPage.tsx:98-105 | the result is an order-preserving subsequence; with a term, a transaction is kept iff its lower-cased symbol, type or status includes the lower-cased term |
| Wallet.AmountSignRule | src/pages/WalletManagementPage.tsx:249-250 | the sign is '+' iff the type is Deposit or TradeBuy; Withdrawal, TradeSell and StakingReward get '-' |
| Wallet.BadgeAgrees | src/pages/WalletManagementPage.tsx:255-260 | Completed is `default` and green, Pending is `secondary` and yellow, and only Failed is `destructive` |
| Wallet.HandleDeposit | src/pages/WalletManagementPage.tsx:107-110 | selects the asset and opens the deposit dialog; nothing else changes |
| Wallet.HandleWithdraw | src/pages/WalletManagementPage.tsx:112-117 | selects the asset, clears amount and address and opens the withdraw dialog; nothing else changes |
| Wallet.ConfirmWithdraw | src/pages/WalletManagementPage.tsx:337 | closes the withdraw dialog and changes nothing else |
| Wallet.ConfirmEnabledIff | src/pages/WalletManagementPage.tsx:339 | Confirm is enabled iff address and amount are non-empty and the amount is NaN or lies in (0, balance] |
| Wallet.NoAssetDisables | src/pages/WalletManagementPage.tsx:339 | with no asset selected the balance is 0, so any positive amount disables Confirm |
| Wallet.NotANumberEnables | src/pages/WalletManagementPage.tsx:339 | a non-empty amount that parses to NaN fails both comparisons, so the amount checks do not disable Confirm |
| Wallet.NotANumberExample | src/pages/WalletManagementPage.tsx:328-339 | such an amount exists: "e5" with an address leaves Confirm enabled |
| Wallet.WithdrawStartsDisabled | src/pages/WalletManagementPage.tsx:112-117 | Confirm is disabled right after `handleWithdraw` |
| Trading.Validate | src/pages/TradingInterfacePage.tsx:27-41 | no issues iff both refinements hold; the amount issue is reported iff the amount is invalid, the price issue iff the price rule fails |
| Trading.AmountOfNumber | src/pages/TradingInterfacePage.tsx:30-32 | a number written out as text is a valid amount iff it is positive |
| Trading.BlankAmountInvalid | src/pages/TradingInterfacePage.tsx:30 | an empty or blank amount is invalid |
| Trading.MarketIgnoresPrice | src/pages/TradingInterfacePage.tsx:33-37 | a market order passes the price rule, and its issues do not depend on the price text |
| Trading.LimitNeedsPrice | src/pages/TradingInterfacePage.tsx:34-35 | a limit order without a price text gets the price issue |
| Trading.DefaultFormRejected | src/pages/TradingInterfacePage.tsx:66-70 | the default form (limit, empty price and amount) reports both issues |
| Trading.FieldNumberIsFallback | src/pages/TradingInterfacePage.tsx:73-75 | a field's factor is what the page computes: an empty or missing field reads as "0", and NaN then counts as 0 |
| Trading.FieldZero | src/pages/TradingInterfacePage.tsx:73-75 | a missing, empty or unparsable field contributes 0 |
| Trading.SpotTotalMissing | src/pages/TradingInterfacePage.tsx:73-75 | the total is 0 when either field is missing, empty or not a number |
| Trading.SpotTotalOfParsed | src/pages/TradingInterfacePage.tsx:75 | two fields that parse give the product of their values |
| Trading.FieldOfNumber | src/pages/TradingInterfacePage.tsx:73-75 | a field holding a number's text contributes that number |
| Trading.SpotTotalOfNumbers | src/pages/TradingInterfacePage.tsx:75 | prices and amounts written out as numbers give their product as the total |
| Trading.FuturesNotionalValue | src/pages/TradingInterfacePage.tsx:185-187 | the example texts "29500.50" and "0.1" give a notional of 2950.05 |
| Trading.SliderMarginIsCost | src/pages/TradingInterfacePage.tsx:217 | for a positive leverage, the slider's margin for the leveraged position is the unleveraged notional |
| Trading.PositionShownOnSlider | src/pages/TradingInterfacePage.tsx:214-230 | for every leverage in [1, 125], the slider shows the position-size line and its margin is the example notional |
| Trading.SubmitSpot | src/pages/TradingInterfacePage.tsx:77-82 | a form without issues is recorded for BTC/USDT, the dialog opens and the form resets; a form with issues changes nothing |
| Trading.SubmitFutures | src/pages/TradingInterfacePage.tsx:85-90 | records a market order of 0.1 at the current leverage and opens the dialog; nothing else changes |
| Trading.SetLeverage | src/pages/TradingInterfacePage.tsx:216 | the leverage becomes the slider's first value; nothing else changes |
| Trading.SpotRecordValid | src/pages/TradingInterfacePage.tsx:77-81 | a new spot record always satisfies both refinements, and the form is then the default |
| Trading.ResetFormBlocksResubmit | src/pages/TradingInterfacePage.tsx:81 | a second submit straight after a successful one changes nothing |
| Trading.FuturesCarriesLeverage | src/pages/TradingInterfacePage.tsx:88 | the futures record carries the leverage the slider last reported |
| Leverage.MarginRequired | src/components/AdvancedLeverageSlider.tsx:38 | for leverage > 0, margin × leverage = notional; otherwise the margin is 0 |
| Leverage.MarginBounds | src/components/AdvancedLeverageSlider.tsx:38 | for leverage ≥ 1 and a non-negative notional, the margin lies in [0, notional] |
| Leverage.TierIntervals | src/components/AdvancedLeverageSlider.tsx:40-71 | low iff ≤ 10, medium iff in (10, 25], high iff in (25, 75], extreme iff > 75 |
| Leverage.TierMonotone | src/components/AdvancedLeverageSlider.tsx:41-70 | more leverage never gives a lower tier |
| Leverage.VariantRule | src/components/AdvancedLeverageSlider.tsx:46-69 | the variant is null iff low, `default` iff medium, `destructive` iff high or extreme |
| Leverage.AlertShownIff | src/components/AdvancedLeverageSlider.tsx:113-129 | an alert replaces the green box iff the leverage is above 10 |
| Leverage.DescriptionNamesLeverage | src/components/AdvancedLeverageSlider.tsx:45-68 | every description contains the leverage as `toString` writes it, followed by `x` |
| Leverage.PositionSizeMeansMargin | src/components/AdvancedLeverageSlider.tsx:106 | when the position-size line is shown, the margin is positive |
| Leverage.HandleSliderChange | src/components/AdvancedLeverageSlider.tsx:34-36 | the handler passes on a value the slider reported |
| Leverage.ForwardsFirst | src/components/AdvancedLeverageSlider.tsx:34-36 | the value passed on is the first one reported, whatever follows it |
| Leverage.SliderRoundTrip | src/components/AdvancedLeverageSlider.tsx:34-36 | the slider gets `[currentLeverage]`, and handing that back keeps the leverage |
| Leverage.RemOneZeroIff | src/components/AdvancedLeverageSlider.tsx:83 | `leverage % 1`, with JavaScript's truncating remainder, is 0 iff the leverage is whole |
| Leverage.BadgePrecision | src/components/AdvancedLeverageSlider.tsx:83 | the badge shows no decimals iff the leverage is whole, and at most one otherwise |
| Earn.HandleCalculate | src/pages/EarnSectionPage.tsx:36-50 | earnings are set iff all three inputs parse and the duration is positive; `onCalculate` is called iff they are; the reported triple is the parsed values, and the earnings are computed from it |
| Earn.EarningsFormula | src/pages/EarnSectionPage.tsx:42 | the earnings equal amount × apy × duration / 36500 |
| Earn.EarningsZero | src/pages/EarnSectionPage.tsx:42 | a zero amount or a zero rate earns nothing |
| Earn.NegativeAmountLoses | src/pages/EarnSectionPage.tsx:41-43 | signs are not checked: a negative amount at a positive rate over a positive duration gives negative earnings |
| Earn.PositiveInputsEarn | src/pages/EarnSectionPage.tsx:42 | positive inputs give positive earnings |
| Earn.ZeroDurationRejected | src/pages/EarnSectionPage.tsx:41-48 | a duration of "0" gives null earnings and no report |
| Earn.BlankInputRejected | src/pages/EarnSectionPage.tsx:37-48 | an empty or blank input gives null earnings and no report |
| Earn.DurationTruncated | src/pages/EarnSectionPage.tsx:39 | a fractional duration `n.rest` gives the same outcome as `n` |
| Earn.CalculateOfNumbers | src/pages/EarnSectionPage.tsx:36-44 | numbers typed as they print are accepted iff the day count is positive, and the triple and the earnings are those numbers' |
| Earn.NoDefaultApyIsEmpty | src/pages/EarnSectionPage.tsx:30-32 | an omitted or zero `defaultApy` starts the APY text empty |
| Earn.DefaultApyRoundTrip | src/pages/EarnSectionPage.tsx:32-38 | a non-zero `defaultApy` is shown as its `toString`, which `parseFloat` reads back as that rate |
| Earn.StakingApyPrefilled | src/pages/EarnSectionPage.tsx:82-86 | every staking product's calculator starts with a non-empty APY text that reads back as its APY |
| TabBar.ActiveTabs | src/components/layout/AppBottomTabBar.tsx:27-29 | the highlighted indices are exactly the tabs whose `isActive` holds |
| TabBar.PathsDistinct | src/components/layout/AppBottomTabBar.tsx:12-18 | no two tabs share a path |
| TabBar.NonRootActiveIff | src/components/layout/AppBottomTabBar.tsx:29 | a tab other than Home is active iff the pathname equals its path |
| TabBar.HomeActive | src/components/layout/AppBottomTabBar.tsx:29 | Home is active on "/" and on every pathname starting with "/#" |
| TabBar.HashPathOnlyHome | src/components/layout/AppBottomTabBar.tsx:12-29 | a pathname starting with "/#" highlights Home and nothing else |
| TabBar.AtMostOneActive | src/components/layout/AppBottomTabBar.tsx:12-29 | at most one tab is highlighted for any pathname |
| TabBar.UnknownPathNoTab | src/components/layout/AppBottomTabBar.tsx:29 | a pathname that is no tab's path and does not start with "/#" highlights nothing |
| Particles.Spawned | src/components/ParticleEffectBackgroundView.tsx:50-71 | one particle per draw |
| Particles.SpawnRecords | src/components/ParticleEffectBackgroundView.tsx:60-69 | a new particle has the base color, and it remembers its starting y and vy |
| Particles.SpawnSize | src/components/ParticleEffectBackgroundView.tsx:52 | with a draw in [0, 1), the size lies in [sizeMin, sizeMax) |
| Particles.SpawnOnCanvas | src/components/ParticleEffectBackgroundView.tsx:53-54 | with draws in [0, 1), a new particle starts at 0 ≤ x < width and 0 ≤ y < height |
| Particles.ZeroAreaStillSpawns | src/components/ParticleEffectBackgroundView.tsx:48-54 | a zero-area canvas still gets one particle per draw, all at the zero position |
| Particles.TrendVY | src/components/ParticleEffectBackgroundView.tsx:136-141 | up subtracts the strength from originalVY, down adds it, and neutral keeps it |
| Particles.TrendOverrides | src/components/ParticleEffectBackgroundView.tsx:136-142 | the step does not depend on the incoming vy, and the next frame's trend velocity equals this frame's |
| Particles.ReflectRule | src/components/ParticleEffectBackgroundView.tsx:172-179 | on a wall crossing, the axis velocity is negated and the position is clamped to max(size, min(pos, limit − size)); otherwise both are unchanged |
| Particles.ReflectBounds | src/components/ParticleEffectBackgroundView.tsx:174-178 | after a reflection, pos ≥ size, and pos ≤ limit − size when limit ≥ 2·size |
| Particles.ReflectSettles | src/components/ParticleEffectBackgroundView.tsx:172-179 | when the particle fits, a reflected axis crosses no wall, so a second reflection changes nothing |
| Particles.StepBounds | src/components/ParticleEffectBackgroundView.tsx:168-179 | after a frame step, x ≥ size and y ≥ size, and x ≤ width − size and y ≤ height − size where the particle fits |
| Particles.StepKeeps | src/components/ParticleEffectBackgroundView.tsx:134-185 | a step never changes size, color, originalY or originalVY |
| Particles.NoPointerNoRepulsion | src/components/ParticleEffectBackgroundView.tsx:145 | without both pointer coordinates there is no repulsion |
| Particles.StepWithoutPointer | src/components/ParticleEffectBackgroundView.tsx:145 | without a pointer, the step is trend, cap, move and bounce alone |
| Particles.StepAll | src/components/ParticleEffectBackgroundView.tsx:134 | stepping the field keeps the particle count |
| Particles.StepAllPointwise | src/components/ParticleEffectBackgroundView.tsx:134-185 | each particle is stepped on its own, independently of the others |
| Particles.ParticleField.constructor | src/components/ParticleEffectBackgroundView.tsx:39-43 | the field starts at 0 × 0, with no particles and no pointer |
| Particles.ParticleField.InitParticles | src/components/ParticleEffectBackgroundView.tsx:45-72 | without a canvas nothing changes; otherwise the field becomes a new array holding one spawned particle per draw |
| Particles.ParticleField.Resize | src/components/ParticleEffectBackgroundView.tsx:79-86 | the canvas takes the rect's size as unsigned 32-bit whole pixels, `dimensions` keeps the exact size, and the particles are re-spawned on the canvas; the pointer is kept |
| Particles.CanvasDimension | src/components/ParticleEffectBackgroundView.tsx:81-82 | the stored canvas length is below 2^32 |
| Particles.CanvasDimensionDropsFraction | src/components/ParticleEffectBackgroundView.tsx:81-82 | a rect length in [0, 2^32) is stored as its whole part, which lies within one pixel below it |
| Particles.FractionalRectExample | src/components/ParticleEffectBackgroundView.tsx:80-83 | a 300.5 × 200.5 rect gives a 300 × 200 canvas, the area particles spawn and bounce in |
| Particles.ParticleField.MouseMove | src/components/ParticleEffectBackgroundView.tsx:94-102 | with a canvas, the pointer becomes the client position minus the canvas's top-left corner; without one it is kept |
| Particles.ParticleField.MouseLeave | src/components/ParticleEffectBackgroundView.tsx:104-106 | the pointer becomes absent |
| Particles.ParticleField.Animate | src/components/ParticleEffectBackgroundView.tsx:131-185 | after the loop, the array in place holds `StepAll` of its old contents |
| JsText.IncludesIff | src/pages/MarketsPage.tsx:75-76 | `includes` holds iff the needle occurs at some index of the text |
| JsText.LowerIdempotent | src/pages/MarketsPage.tsx:75-76 | lower-casing twice is lower-casing once |
| JsText.ParseFloatOfNumberToString | src/pages/EarnSectionPage.tsx:32 | `parseFloat` reads `toString`'s text of a decimal back as that decimal's value |
| JsText.ParseIntTruncates | src/pages/EarnSectionPage.tsx:39 | `parseInt` stops at the decimal point |
| JsText.ParseBlank | src/pages/TradingInterfacePage.tsx:30 | `parseFloat` and `parseInt` read an empty or blank text as NaN |

## Left out

- Rendering, routing, styling, icons and every component that only lays out other components.
- React's hook lifecycle. Each state update is modelled as a function from the old state to the new one.
- Clipboard copies, QR image URLs, `window.open` and console logging. These are I/O with no effect on the rules.
- The saved address book. It is a constant list that is only displayed.
- `toLocaleString` and `toFixed`, which only format text for display.
  `Leverage.BadgePrecision` models the digit count passed to `toFixed`, not the text it produces.
- The animated number tween and every motion-library transform.
- Floating-point rounding. Numbers are exact reals, so a product such as 29500.5 × 0.1 is exactly 2950.05 here.
- `parseFloat` of "Infinity". It reads as `None` here, not as an infinite number.
- JsText.NumberToString: always writes plain notation. JavaScript switches to exponent form below 1e-6 and at 1e21 or above, so for such values `Leverage.DescriptionNamesLeverage` and `Earn.InitialApyText` describe a plain text the page would not show.
- Unicode case mapping. `toLowerCase` lowers only ASCII letters.
- Zod's behaviour beyond the two refinements: its message objects, its error ordering across nested paths, and the required-enum check. The order type is a datatype here, so that check always passes.
- Seqs.SortBy: says the result is sorted and a permutation, but not that the sort is stable. `Array#sort` is stable, so the relative order of coins with equal change is not stated.
- Particles.Repel and Particles.Cap: the pointer's repulsion and the speed cap appear only as the function parameters `kick` and `cap`. The real ones use `Math.sqrt` and divide by the distance, which is 0 when the pointer sits on the particle.
- Canvas drawing, `ResizeObserver`, `requestAnimationFrame` scheduling and the event listeners. Only the handlers are modelled.
- `Math.random`, `Math.cos` and `Math.sin`. Each particle's random numbers, and the cosine and sine of its angle, come in as a `Draw`.
- Particles.ParticleField.InitParticles: requires one draw per particle (`|draws| == count`). The draws stand for the calls to `Math.random`.
- Particles.ParticleField.Resize: requires a canvas. `updateDimensions` is only installed after the effect has found one.
- Particles.StartsAnimation is the start condition of the animation (both sides of `dimensions` positive). It reads the exact rect size (`ParticleField.Animating`), not the whole-pixel canvas size. It is a predicate with no lemma about it.
- Particles.CanvasDimension: a NaN or infinite rect length, which the conversion turns into 0, cannot occur among reals.
- Leverage.HandleSliderChange: requires a non-empty value array. The slider has one thumb, so it never reports an empty one. JavaScript would pass `undefined` on.
- Leverage.HandleSliderChange: its contract states only that the result is one of the reported values. `Leverage.ForwardsFirst` and `Trading.SetLeverage` state that the first value is the one passed on.
- Wallet.NotANumberExample: the amount field is a number input, whose browser clean-up of invalid text (such as "e5", which it turns into "") is not modelled. The lemma holds of the disabling expression; where the browser clears such text, the page's state never holds it.
- The options tab is a placeholder with no rule.
- The confirmation dialog's open state after it closes, and the futures form's fixed price field.
