# Pricing strategies, modelled in Dafny

This project models the pricing-strategy engine of a small shopping-cart
pricer and the factory that builds its strategies from a kind name.

- `wrappers.dfy` (module `Wrappers`): `Option` for the optional incoming
  total and for absent factory options; `Result` for values whose
  construction can fail.
- `pricing.dfy` (module `Pricing`): the immutable `LineItem`, the subtotal,
  and the closed family of four strategies (`NoDiscount`,
  `PercentageDiscount`, `BulkItemDiscount`, `CompositeStrategy`) behind one
  operation, `Calculate(strategy, items, currentTotal)`. `Chain` is the
  composite's fold over its stages. `Apply` is the backwards-compatible
  wrapper. `NewPercentageDiscount` is the range-checked constructor. The
  source runs the bulk rule and the composite as loops. Those loops are the
  methods `ComputeBulk` and `ComputeComposite`, and `Compute` is the dynamic
  dispatch between them. Each method is proved to return what `Calculate`
  specifies.
- `bootstrap.dfy` (module `Bootstrap`): `ChooseStrategy`, the dispatch on
  the kind names `"none"`, `"percent"`, `"bulk"` and `"composite"`, with
  the source's defaults (`0.0`, `""`, `0`, `0`) for absent options and an
  error for any other kind.

Modelling decisions:

- Amounts are integer cents. On cents, `round(x, 2)` changes nothing, so
  the rounding that every variant applies to its output is the identity.
  The one exception is the percentage stage, whose exact result can be a
  fraction of a cent. There the model rounds to the nearest cent, a tie
  going to the even neighbour (`RoundHalfEven`). Ties are decided on the
  exact value, not on its binary floating-point approximation (see
  "## Left out").
- The percent is a `real`, an exact rational, as the source's float
  parameter allows fractional percents.
- The optional `current_total` is an `Option<int>`. Passing `Some(0)` means
  an incoming total of zero, just as in the source, where only `None` means
  "absent".
- The source raises `ValueError` for an out-of-range percent and for an
  unknown kind. The model keeps the two causes apart as the variants
  `PercentOutOfRange` and `UnknownStrategyKind` of one `ValueError` type.
- The factory follows the code: an absent option silently takes its
  default, and `"composite"` always builds a percentage stage followed by a
  bulk stage, whichever options are given.

## Model

| member | source | states |
|---|---|---|
| `Pricing.Subtotal` | domain/pricing.py:85-86 | the subtotal of a cart without negative quantities or prices is never negative |
| `Pricing.LineTotal` | domain/pricing.py:86 | one line's contribution to the subtotal: `unit_price * qty` |
| `Pricing.Base` | domain/pricing.py:50 | the starting amount of every variant: the incoming total when given, otherwise the subtotal of the items (also lines 37-39, 64 and 79) |
| `Pricing.DiscountOf` | domain/pricing.py:51 | the exact discount `base * (percent / 100)` |
| `Pricing.PercentOff` | domain/pricing.py:51-52 | a percentage stage: the discount taken off the base and the difference rounded to whole cents, ties to even |
| `Pricing.PercentageTieGoesToEven` | domain/pricing.py:50-52 | 50% of 5.35 is the exact tie 2.675, which the model rounds to 2.68 |
| `Pricing.Qualifies` | domain/pricing.py:66 | a line earns the bulk deduction exactly when its sku is the target one and its quantity is at least the threshold |
| `Pricing.LineDeduction` | domain/pricing.py:66-67 | a qualifying line takes off `qty * per_item_off`, any other line nothing |
| `Pricing.Deduction` | domain/pricing.py:65-68 | the sum of the line deductions over all items, in order |
| `Pricing.Calculate` | domain/pricing.py:35-82 | the price of each variant: the base passed through, the percentage stage, the base less the bulk deduction, or the stages chained from the base |
| `Pricing.Chain` | domain/pricing.py:80-81 | the stages applied in list order, each stage's result the next stage's incoming total, the same items passed to every stage |
| `Pricing.Apply` | domain/pricing.py:24-31 | `calculate` with the given subtotal as incoming total |
| `Pricing.SubtotalSnoc` | domain/pricing.py:85-86 | the subtotal of no items is 0, and appending a line adds `qty * unit_price` to it (the sum accumulates left to right) |
| `Pricing.SubtotalConcat` | domain/pricing.py:85-86 | the subtotal of two carts joined is the sum of their subtotals |
| `Pricing.RoundHalfEven` | domain/pricing.py:52 | the result is a whole number within half a unit of its argument, and an exact tie goes to the even neighbour |
| `Pricing.NewPercentageDiscount` | domain/pricing.py:43-46 | construction succeeds if and only if 0 <= percent <= 100 (both ends accepted), yields a valid strategy, and otherwise fails with the out-of-range error |
| `Pricing.SeedDefaultsToSubtotal` | domain/pricing.py:50 | for every strategy, leaving the incoming total out gives the same price as passing the cart's subtotal |
| `Pricing.ApplyIsSeededCalculate` | domain/pricing.py:24-31 | `apply(subtotal, items)` equals `calculate(items, subtotal)`, and with the cart's own subtotal it equals an unseeded `calculate` |
| `Pricing.NoDiscountPassesThrough` | domain/pricing.py:35-39 | `NoDiscount` returns the incoming total when given, and otherwise the subtotal |
| `Pricing.NoDiscountIsNeutral` | domain/pricing.py:34-39 | inserting `NoDiscount` anywhere in a composite does not change its result |
| `Pricing.PercentageRoundsExactValue` | domain/pricing.py:50-52 | a percentage stage yields the cent amount nearest to `base * (100 - percent) / 100`, ties to even |
| `Pricing.PercentageZeroIsIdentity` | domain/pricing.py:50-52 | 0 percent returns the base unchanged |
| `Pricing.PercentageHundredIsFree` | domain/pricing.py:50-52 | 100 percent returns 0 |
| `Pricing.PercentageMovesTowardZero` | domain/pricing.py:50-52 | for a percent in [0, 100], a non-negative base gives a result in [0, base] and a negative base a result in [base, 0] |
| `Pricing.DeductionConcat` | domain/pricing.py:65-68 | the bulk deductions of two carts joined add up |
| `Pricing.BulkSumsDeductions` | domain/pricing.py:64-69 | the bulk rule subtracts from its base the sum of the deductions of every qualifying line, not only the first |
| `Pricing.BulkThresholdInclusive` | domain/pricing.py:66-68 | a line whose quantity equals the threshold earns `qty * per_item_off` off; one unit below the threshold, or another sku, earns nothing |
| `Pricing.NothingQualifiesNothingDeducted` | domain/pricing.py:65-68 | when no line has the target sku with a quantity at or above the threshold, nothing is deducted |
| `Pricing.BulkWithoutQualifyingLinesIsIdentity` | domain/pricing.py:64-69 | with no qualifying line the bulk rule returns its base |
| `Pricing.ZeroOffDeductsNothing` | domain/pricing.py:67-68 | a per-item amount of 0 deducts nothing whatever the lines |
| `Pricing.DeductionAtLeastLine` | domain/pricing.py:65-68 | with non-negative quantities and per-item amount, the total deduction is non-negative and at least that of any single line |
| `Pricing.BulkNotClamped` | domain/pricing.py:64-69 | there is no clamp at zero: with non-negative quantities and per-item amount, a qualifying line whose deduction `qty * per_item_off` exceeds a non-negative base makes the total negative |
| `Pricing.BulkTwoMatchingLines` | domain/pricing.py:64-69 | two lines (A, 5, 10.00) with threshold 5 and 1.00 off per item: subtotal 100.00, total 90.00 |
| `Pricing.ComputeBulk` | domain/pricing.py:62-69 | the loop that subtracts each qualifying line's deduction from the running total returns exactly the bulk rule's price |
| `Pricing.ChainConcat` | domain/pricing.py:80-81 | running the stages `xs + ys` is running `ys` on the result of running `xs` |
| `Pricing.CompositeEmptyReturnsSeed` | domain/pricing.py:79-82 | an empty composite returns its seed: the incoming total, else the subtotal |
| `Pricing.CompositeIsLeftFold` | domain/pricing.py:79-82 | appending a stage feeds the composite's previous result to it as incoming total, with the same items |
| `Pricing.CompositeSingleton` | domain/pricing.py:79-82 | a one-stage composite prices as its stage, seeded or not |
| `Pricing.CompositeFlattens` | domain/pricing.py:72-82 | a nested composite can be spliced into its parent without changing the price |
| `Pricing.CompositeOrderMatters` | domain/pricing.py:79-82 | on one line (A, 2, 10.00), 50% then 1.00 off per item gives 8.00, the reverse order 9.00 |
| `Pricing.ComputeComposite` | domain/pricing.py:77-82 | the loop that passes each stage's result to the next returns exactly the composite's price |
| `Pricing.Compute` | domain/pricing.py:35-82 | dispatching `calculate` on any strategy, through the loop methods, returns exactly the price the strategy specifies |
| `Pricing.NeverRaises` | domain/pricing.py:48-82 | a strategy of in-range percentages and non-negative per-item amounts, on a cart without negative quantities, never ends above its starting amount (or above 0 when that amount is negative) |
| `Pricing.ChainNeverRaises` | domain/pricing.py:79-81 | the same bound for a sequence of such stages |
| `Bootstrap.PercentOption` | application/bootstrap.py:13 | the percent option, 0.0 when absent (also line 21) |
| `Bootstrap.BulkFrom` | application/bootstrap.py:16-19 | the bulk rule built from the sku, threshold and per-item options, defaulting to `""`, 0 and 0 (also lines 22-26) |
| `Bootstrap.ChooseStrategy` | application/bootstrap.py:5-29 | `"none"`, `"percent"`, `"bulk"` and `"composite"` yield their strategies with the defaults 0.0, `""`, 0 and 0, the composite being percentage first; the result fails exactly for an unknown kind (unknown-kind error) or for `"percent"`/`"composite"` with a percent outside [0, 100] (out-of-range error); every strategy it yields is valid |
| `Bootstrap.CompositeRunsPercentThenBulk` | application/bootstrap.py:20-27 | a factory-built composite prices as the bulk rule applied to the percentage's result |
| `Bootstrap.DefaultsChangeNothing` | application/bootstrap.py:10-27 | every known kind succeeds with no options given, and the strategy it yields returns its starting amount unchanged |
| `Bootstrap.PercentEndToEnd` | application/bootstrap.py:12-14 | items (A, 3, 10.00) and (B, 1, 5.00) with kind `"percent"` and percent 10: subtotal 35.00, final total 31.50 |

## Left out

- Binary floating point: amounts are integer cents and the percent is an exact rational. Results where binary floats would differ from the exact value in the last cent are not modelled. For example, 50% of 5.35 is 2.67 in the source, because the float nearest 2.675 lies just below it, but 2.68 in the model (`PercentageTieGoesToEven`).
- `Apply` takes a whole subtotal, so the source's `apply(None, items)`, which behaves as an unseeded `calculate`, is not modelled through `Apply`. It is `Calculate(s, items, None)`.
- Aliasing and mutation of strategy objects: `CompositeStrategy` keeps the caller's list by reference, so later changes to that list change the composite. `PercentageDiscount.percent` is a plain attribute that can be reassigned after the range check. Strategies here are immutable values, so neither effect is modelled.
- A NaN or non-numeric percent, which the source's comparison would reject, cannot arise with `real`.
- The abstract base class and `abstractmethod` are replaced by the closed datatype `Strategy` and the single function `Calculate`.
- `PercentageDiscount`'s range invariant is not part of its type: the datatype constructor accepts any percent. `NewPercentageDiscount` is the checked constructor, and `ValidStrategy` says which strategies construction can produce. `Calculate` is total and does not require validity.
- The keyword-argument mechanism of `choose_strategy` (`**kwargs` and `kwargs.get`) is modelled as a record of optional fields with the same defaults. Values of the wrong type are not modelled.
- `presentation/cli.py` is not part of this model. It does argument parsing, JSON decoding of line items and printing, which are input and output.
- Concurrency: the source has none, and every strategy is an immutable value here.
