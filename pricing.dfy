/** The pricing-strategy engine: line items, their subtotal, and the closed
    family of four strategies that turn a cart (and optionally an incoming
    total) into a final price.

    Amounts are integer cents. Rounding an amount to two decimals is then the
    identity, except where a percentage produces a fraction of a cent; that
    one place rounds half to even, to the nearest cent. */
module Pricing {
  import opened Wrappers

  /** One cart line: `unitPrice` is in cents. Neither `qty` nor `unitPrice`
      is validated, so either may be negative. */
  datatype LineItem = LineItem(sku: string, qty: int, unitPrice: int)

  /** The four variants of the strategy abstraction. `PercentageDiscount`
      should only be built through `NewPercentageDiscount`, which checks its
      range; the other three have no construction-time check. */
  datatype Strategy =
    | NoDiscount
    | PercentageDiscount(percent: real)
    | BulkItemDiscount(sku: string, threshold: int, perItemOff: int)
    | CompositeStrategy(strategies: seq<Strategy>)

  /** The source raises `ValueError` for both of these; the variants keep the
      two causes apart. */
  datatype ValueError =
    | PercentOutOfRange(percent: real)
    | UnknownStrategyKind(kind: string)

  // ---------------------------------------------------------------------
  // Subtotal

  function LineTotal(it: LineItem): int {
    it.unitPrice * it.qty
  }

  predicate NonNegativeLines(items: seq<LineItem>) {
    forall i :: 0 <= i < |items| ==> items[i].qty >= 0 && items[i].unitPrice >= 0
  }

  /** The sum of `qty * unitPrice` over the items; a cart without negative
      quantities or prices never has a negative subtotal. */
  function Subtotal(items: seq<LineItem>): (r: int)
    ensures NonNegativeLines(items) ==> r >= 0
  {
    if items == [] then 0
    else
      assert NonNegativeLines(items) ==> NonNegativeLines(items[1..]) by {
        if NonNegativeLines(items) {
          forall i | 0 <= i < |items[1..]|
            ensures items[1..][i].qty >= 0 && items[1..][i].unitPrice >= 0
          {
            assert items[1..][i] == items[i + 1];
          }
        }
      }
      LineTotal(items[0]) + Subtotal(items[1..])
  }

  /** The starting amount of every strategy: the incoming total when one is
      given, otherwise the subtotal of the items. */
  function Base(items: seq<LineItem>, currentTotal: Option<int>): int {
    match currentTotal
    case Some(t) => t
    case None => Subtotal(items)
  }

  // ---------------------------------------------------------------------
  // Rounding

  /** The whole number nearest to `x`; a tie goes to the even neighbour. */
  function RoundHalfEven(x: real): (r: int)
    ensures x - 0.5 <= r as real <= x + 0.5
    ensures (r as real == x + 0.5 || r as real == x - 0.5) ==> r % 2 == 0
  {
    var f := x.Floor;
    var frac := x - f as real;
    if frac < 0.5 then f
    else if frac > 0.5 then f + 1
    else if f % 2 == 0 then f
    else f + 1
  }

  // ---------------------------------------------------------------------
  // Strategies

  /** Construction of a percentage discount: accepted exactly when the
      percent lies in [0, 100], both ends included. */
  function NewPercentageDiscount(percent: real): (r: Result<Strategy, ValueError>)
    ensures r.Ok? <==> 0.0 <= percent <= 100.0
    ensures r.Ok? ==> r.value == PercentageDiscount(percent) && ValidStrategy(r.value)
    ensures r.Err? ==> r.error == PercentOutOfRange(percent)
  {
    if 0.0 <= percent <= 100.0 then Ok(PercentageDiscount(percent))
    else Err(PercentOutOfRange(percent))
  }

  /** A strategy that construction can produce: every percentage inside it,
      however deeply nested, lies in [0, 100]. */
  predicate ValidStrategy(s: Strategy)
    decreases s
  {
    match s
    case NoDiscount => true
    case PercentageDiscount(p) => 0.0 <= p <= 100.0
    case BulkItemDiscount(_, _, _) => true
    case CompositeStrategy(ss) => forall i :: 0 <= i < |ss| ==> ValidStrategy(ss[i])
  }

  /** A percentage stage on `base`: the discount `base * percent / 100` is
      taken off and the difference is rounded to whole cents. */
  function PercentOff(base: int, percent: real): int {
    RoundHalfEven(base as real - DiscountOf(base, percent))
  }

  /** The exact amount `percent` percent of `base` comes to. */
  function DiscountOf(base: int, percent: real): real {
    base as real * (percent / 100.0)
  }

  /** Whether a line earns the bulk deduction: its sku is the target one and
      its quantity reaches the threshold (inclusive). */
  predicate Qualifies(it: LineItem, sku: string, threshold: int) {
    it.sku == sku && it.qty >= threshold
  }

  /** What one line takes off under a bulk rule. */
  function LineDeduction(it: LineItem, sku: string, threshold: int, perItemOff: int): int {
    if Qualifies(it, sku, threshold) then it.qty * perItemOff else 0
  }

  /** The total a bulk rule takes off: one deduction per qualifying line. */
  function Deduction(items: seq<LineItem>, sku: string, threshold: int, perItemOff: int): int {
    if items == [] then 0
    else LineDeduction(items[0], sku, threshold, perItemOff) + Deduction(items[1..], sku, threshold, perItemOff)
  }

  /** The price a strategy produces from `items` and an optional incoming
      total. */
  function Calculate(s: Strategy, items: seq<LineItem>, currentTotal: Option<int>): int
    decreases s
  {
    match s
    case NoDiscount => Base(items, currentTotal)
    case PercentageDiscount(p) => PercentOff(Base(items, currentTotal), p)
    case BulkItemDiscount(sku, threshold, off) =>
      Base(items, currentTotal) - Deduction(items, sku, threshold, off)
    case CompositeStrategy(ss) => Chain(ss, items, Base(items, currentTotal))
  }

  /** The stages applied in order, each one's output the next one's
      incoming total, with the same items passed to every stage. */
  function Chain(stages: seq<Strategy>, items: seq<LineItem>, total: int): int
    decreases stages
  {
    if stages == [] then total
    else Chain(stages[1..], items, Calculate(stages[0], items, Some(total)))
  }

  /** The backwards-compatible wrapper: `calculate` seeded with `subtotal`. */
  function Apply(s: Strategy, subtotal: int, items: seq<LineItem>): int {
    Calculate(s, items, Some(subtotal))
  }

  // ---------------------------------------------------------------------
  // The loops of the source, proved against `Calculate`

  /** The bulk rule as the source runs it: one pass over the items,
      subtracting each qualifying line's deduction from a running total. */
  method ComputeBulk(sku: string, threshold: int, perItemOff: int, items: seq<LineItem>, currentTotal: Option<int>)
      returns (subtotal: int)
    ensures subtotal == Calculate(BulkItemDiscount(sku, threshold, perItemOff), items, currentTotal)
  {
    subtotal := Base(items, currentTotal);
    ghost var base := subtotal;
    for i := 0 to |items|
      invariant subtotal == base - Deduction(items[..i], sku, threshold, perItemOff)
    {
      var item := items[i];
      if item.sku == sku && item.qty >= threshold {
        var discount := item.qty * perItemOff;
        subtotal := subtotal - discount;
      }
      DeductionConcat(items[..i], [item], sku, threshold, perItemOff);
      assert items[..i + 1] == items[..i] + [item];
    }
    assert items[..|items|] == items;
  }

  /** The composite as the source runs it: a loop over the stages, each
      stage's result becoming the running total. */
  method ComputeComposite(stages: seq<Strategy>, items: seq<LineItem>, currentTotal: Option<int>)
      returns (total: int)
    ensures total == Calculate(CompositeStrategy(stages), items, currentTotal)
    decreases stages
  {
    total := Base(items, currentTotal);
    var i := 0;
    while i < |stages|
      invariant 0 <= i <= |stages|
      invariant Chain(stages[i..], items, total) == Calculate(CompositeStrategy(stages), items, currentTotal)
    {
      assert stages[i..][1..] == stages[i + 1..];
      total := Compute(stages[i], items, Some(total));
      i := i + 1;
    }
  }

  /** The dynamic dispatch `strategy.calculate(items, current_total)`. */
  method Compute(s: Strategy, items: seq<LineItem>, currentTotal: Option<int>) returns (total: int)
    ensures total == Calculate(s, items, currentTotal)
    decreases s
  {
    match s
    case NoDiscount =>
      total := Base(items, currentTotal);
    case PercentageDiscount(p) =>
      total := PercentOff(Base(items, currentTotal), p);
    case BulkItemDiscount(sku, threshold, off) =>
      total := ComputeBulk(sku, threshold, off, items, currentTotal);
    case CompositeStrategy(ss) =>
      total := ComputeComposite(ss, items, currentTotal);
  }

  // ---------------------------------------------------------------------
  // Subtotal properties

  lemma {:induction false} SubtotalConcat(xs: seq<LineItem>, ys: seq<LineItem>)
    ensures Subtotal(xs + ys) == Subtotal(xs) + Subtotal(ys)
  {
    if xs == [] {
      assert xs + ys == ys;
    } else {
      assert (xs + ys)[1..] == xs[1..] + ys;
      SubtotalConcat(xs[1..], ys);
    }
  }

  /** The sum accumulates left to right: appending a line adds its total. */
  lemma SubtotalSnoc(xs: seq<LineItem>, it: LineItem)
    ensures Subtotal([]) == 0
    ensures Subtotal(xs + [it]) == Subtotal(xs) + LineTotal(it)
  {
    SubtotalConcat(xs, [it]);
    assert [it][1..] == [];
    assert Subtotal([it]) == LineTotal(it) + Subtotal([]);
  }

  // ---------------------------------------------------------------------
  // The incoming total

  /** Leaving the incoming total out is the same as passing the subtotal. */
  lemma SeedDefaultsToSubtotal(s: Strategy, items: seq<LineItem>)
    ensures Calculate(s, items, None) == Calculate(s, items, Some(Subtotal(items)))
  {
  }

  /** `apply(subtotal, items)` is `calculate(items, subtotal)`, and with the
      cart's own subtotal it agrees with an unseeded `calculate`. */
  lemma ApplyIsSeededCalculate(s: Strategy, subtotal: int, items: seq<LineItem>)
    ensures Apply(s, subtotal, items) == Calculate(s, items, Some(subtotal))
    ensures Apply(s, Subtotal(items), items) == Calculate(s, items, None)
  {
  }

  // ---------------------------------------------------------------------
  // NoDiscount

  lemma NoDiscountPassesThrough(items: seq<LineItem>, t: int)
    ensures Calculate(NoDiscount, items, Some(t)) == t
    ensures Calculate(NoDiscount, items, None) == Subtotal(items)
  {
  }

  // ---------------------------------------------------------------------
  // PercentageDiscount

  /** Whatever the incoming amount, the percentage stage gives the whole
      number of cents nearest to `base * (100 - percent) / 100`, a tie going
      to the even neighbour. */
  lemma PercentageRoundsExactValue(p: real, items: seq<LineItem>, seed: Option<int>)
    ensures var b := Base(items, seed);
            var r := Calculate(PercentageDiscount(p), items, seed);
            var exact := b as real * (100.0 - p) / 100.0;
            exact - 0.5 <= r as real <= exact + 0.5 &&
            ((r as real == exact + 0.5 || r as real == exact - 0.5) ==> r % 2 == 0)
  {
  }

  lemma PercentageZeroIsIdentity(items: seq<LineItem>, seed: Option<int>)
    ensures Calculate(PercentageDiscount(0.0), items, seed) == Base(items, seed)
  {
  }

  lemma PercentageHundredIsFree(items: seq<LineItem>, seed: Option<int>)
    ensures Calculate(PercentageDiscount(100.0), items, seed) == 0
  {
  }

  /** Fifty percent of 5.35: the exact 2.675 is a tie, which goes to the even
      cent, 2.68. */
  lemma PercentageTieGoesToEven()
    ensures Calculate(PercentageDiscount(50.0), [], Some(535)) == 268
  {
    assert PercentOff(535, 50.0) == RoundHalfEven(267.5);
  }

  /** Taking `p` percent off an amount, for `p` in [0, 100], leaves a value
      between zero and the amount. */
  lemma PercentOffBetween(base: int, p: real)
    requires 0.0 <= p <= 100.0
    ensures base >= 0 ==> 0.0 <= base as real - DiscountOf(base, p) <= base as real
    ensures base < 0 ==> base as real <= base as real - DiscountOf(base, p) <= 0.0
  {
    var b := base as real;
    var q := p / 100.0;
    var m := b * q;
    if base >= 0 {
      assert 0.0 <= m <= b;
    } else {
      assert b <= m <= 0.0;
    }
  }

  /** Rounding never leaves an interval with whole-number ends. */
  lemma RoundStaysBetween(x: real, lo: int, hi: int)
    requires lo as real <= x <= hi as real
    ensures lo <= RoundHalfEven(x) <= hi
  {
  }

  /** A percentage in [0, 100] moves the amount towards zero and never past
      it: a non-negative amount stays in [0, base], a negative one in
      [base, 0]. */
  lemma PercentageMovesTowardZero(p: real, items: seq<LineItem>, seed: Option<int>)
    requires 0.0 <= p <= 100.0
    ensures var b := Base(items, seed);
            var r := Calculate(PercentageDiscount(p), items, seed);
            (b >= 0 ==> 0 <= r <= b) && (b < 0 ==> b <= r <= 0)
  {
    var b := Base(items, seed);
    var x := b as real - DiscountOf(b, p);
    PercentOffBetween(b, p);
    if b >= 0 {
      RoundStaysBetween(x, 0, b);
    } else {
      RoundStaysBetween(x, b, 0);
    }
  }

  // ---------------------------------------------------------------------
  // BulkItemDiscount

  lemma {:induction false} DeductionConcat(xs: seq<LineItem>, ys: seq<LineItem>, sku: string, threshold: int, perItemOff: int)
    ensures Deduction(xs + ys, sku, threshold, perItemOff)
            == Deduction(xs, sku, threshold, perItemOff) + Deduction(ys, sku, threshold, perItemOff)
  {
    if xs == [] {
      assert xs + ys == ys;
    } else {
      assert (xs + ys)[1..] == xs[1..] + ys;
      DeductionConcat(xs[1..], ys, sku, threshold, perItemOff);
    }
  }

  /** The bulk rule subtracts, from its base, the sum of `qty * perItemOff`
      over every qualifying line, however many there are; the deductions of
      two carts' lines add up. */
  lemma BulkSumsDeductions(sku: string, threshold: int, off: int, xs: seq<LineItem>, ys: seq<LineItem>, t: int)
    ensures Calculate(BulkItemDiscount(sku, threshold, off), xs + ys, Some(t))
            == t - Deduction(xs, sku, threshold, off) - Deduction(ys, sku, threshold, off)
  {
    DeductionConcat(xs, ys, sku, threshold, off);
  }

  /** The threshold is inclusive on a single line: a quantity equal to it
      earns the deduction, one below it does not, nor does another sku. */
  lemma BulkThresholdInclusive(sku: string, threshold: int, off: int, price: int, other: string, t: int)
    requires other != sku
    ensures Calculate(BulkItemDiscount(sku, threshold, off), [LineItem(sku, threshold, price)], Some(t))
            == t - threshold * off
    ensures Calculate(BulkItemDiscount(sku, threshold, off), [LineItem(sku, threshold - 1, price)], Some(t)) == t
    ensures Calculate(BulkItemDiscount(sku, threshold, off), [LineItem(other, threshold, price)], Some(t)) == t
  {
    var hit := LineItem(sku, threshold, price);
    assert [hit][1..] == [];
    assert Deduction([hit], sku, threshold, off) == LineDeduction(hit, sku, threshold, off) == threshold * off;
    assert [LineItem(sku, threshold - 1, price)][1..] == [];
    assert [LineItem(other, threshold, price)][1..] == [];
  }

  /** Lines of another sku, or below the threshold, contribute nothing. */
  lemma {:induction false} NothingQualifiesNothingDeducted(sku: string, threshold: int, off: int, items: seq<LineItem>)
    requires forall i :: 0 <= i < |items| ==> !Qualifies(items[i], sku, threshold)
    ensures Deduction(items, sku, threshold, off) == 0
  {
    if items != [] {
      assert forall i :: 0 <= i < |items[1..]| ==> items[1..][i] == items[i + 1];
      NothingQualifiesNothingDeducted(sku, threshold, off, items[1..]);
    }
  }

  lemma BulkWithoutQualifyingLinesIsIdentity(sku: string, threshold: int, off: int, items: seq<LineItem>, seed: Option<int>)
    requires forall i :: 0 <= i < |items| ==> !Qualifies(items[i], sku, threshold)
    ensures Calculate(BulkItemDiscount(sku, threshold, off), items, seed) == Base(items, seed)
  {
    NothingQualifiesNothingDeducted(sku, threshold, off, items);
  }

  /** A bulk rule worth nothing per item deducts nothing. */
  lemma {:induction false} ZeroOffDeductsNothing(sku: string, threshold: int, items: seq<LineItem>)
    ensures Deduction(items, sku, threshold, 0) == 0
  {
    if items != [] {
      ZeroOffDeductsNothing(sku, threshold, items[1..]);
    }
  }

  /** With non-negative quantities and a non-negative per-item amount, every
      line's deduction is non-negative, and the total deduction is at least
      the deduction of any one line. */
  lemma {:induction false} DeductionAtLeastLine(sku: string, threshold: int, off: int, items: seq<LineItem>, k: int)
    requires off >= 0
    requires forall i :: 0 <= i < |items| ==> items[i].qty >= 0
    ensures Deduction(items, sku, threshold, off) >= 0
    ensures 0 <= k < |items| ==> Deduction(items, sku, threshold, off) >= LineDeduction(items[k], sku, threshold, off)
  {
    if items != [] {
      assert forall i :: 0 <= i < |items[1..]| ==> items[1..][i] == items[i + 1];
      assert items[0].qty * off >= 0;
      DeductionAtLeastLine(sku, threshold, off, items[1..], k - 1);
    }
  }

  /** No clamp at zero: once a qualifying line's deduction `qty * perItemOff`
      exceeds a non-negative base, the bulk rule yields a negative total. */
  lemma BulkNotClamped(sku: string, threshold: int, off: int, items: seq<LineItem>, t: int, k: int)
    requires off >= 0
    requires forall i :: 0 <= i < |items| ==> items[i].qty >= 0
    requires 0 <= k < |items| && Qualifies(items[k], sku, threshold)
    requires 0 <= t < items[k].qty * off
    ensures Calculate(BulkItemDiscount(sku, threshold, off), items, Some(t)) < 0
  {
    DeductionAtLeastLine(sku, threshold, off, items, k);
  }

  /** Two lines of sku "A", 5 at 10.00 each, threshold 5, 1.00 off per item:
      100.00 less 5.00 + 5.00 is 90.00. */
  lemma BulkTwoMatchingLines()
    ensures var items := [LineItem("A", 5, 1000), LineItem("A", 5, 1000)];
            Subtotal(items) == 10000 &&
            Calculate(BulkItemDiscount("A", 5, 100), items, None) == 9000
  {
  }

  // ---------------------------------------------------------------------
  // CompositeStrategy

  lemma {:induction false} ChainConcat(xs: seq<Strategy>, ys: seq<Strategy>, items: seq<LineItem>, t: int)
    ensures Chain(xs + ys, items, t) == Chain(ys, items, Chain(xs, items, t))
    decreases xs
  {
    if xs == [] {
      assert xs + ys == ys;
    } else {
      assert (xs + ys)[1..] == xs[1..] + ys;
      ChainConcat(xs[1..], ys, items, Calculate(xs[0], items, Some(t)));
    }
  }

  lemma CompositeEmptyReturnsSeed(items: seq<LineItem>, seed: Option<int>)
    ensures Calculate(CompositeStrategy([]), items, seed) == Base(items, seed)
  {
  }

  /** The composite is a left fold: appending a stage feeds the composite's
      previous result into it, with the same items. */
  lemma CompositeIsLeftFold(ss: seq<Strategy>, s: Strategy, items: seq<LineItem>, seed: Option<int>)
    ensures Calculate(CompositeStrategy(ss + [s]), items, seed)
            == Calculate(s, items, Some(Calculate(CompositeStrategy(ss), items, seed)))
  {
    var b := Base(items, seed);
    ChainConcat(ss, [s], items, b);
    assert [s][1..] == [];
  }

  /** A one-stage composite behaves as its stage. */
  lemma CompositeSingleton(s: Strategy, items: seq<LineItem>, seed: Option<int>)
    ensures Calculate(CompositeStrategy([s]), items, seed) == Calculate(s, items, seed)
  {
    var b := Base(items, seed);
    assert [s][1..] == [];
    assert Chain([s], items, b) == Chain([], items, Calculate(s, items, Some(b)));
    SeedDefaultsToSubtotal(s, items);
  }

  /** `NoDiscount` is the identity of composition wherever it stands. */
  lemma NoDiscountIsNeutral(pre: seq<Strategy>, post: seq<Strategy>, items: seq<LineItem>, seed: Option<int>)
    ensures Calculate(CompositeStrategy(pre + [NoDiscount] + post), items, seed)
            == Calculate(CompositeStrategy(pre + post), items, seed)
  {
    var b := Base(items, seed);
    ChainConcat(pre + [NoDiscount], post, items, b);
    ChainConcat(pre, [NoDiscount], items, b);
    assert [NoDiscount][1..] == [];
    ChainConcat(pre, post, items, b);
  }

  /** A nested composite can be spliced into its parent. */
  lemma CompositeFlattens(pre: seq<Strategy>, mid: seq<Strategy>, post: seq<Strategy>, items: seq<LineItem>, seed: Option<int>)
    ensures Calculate(CompositeStrategy(pre + [CompositeStrategy(mid)] + post), items, seed)
            == Calculate(CompositeStrategy(pre + mid + post), items, seed)
  {
    var b := Base(items, seed);
    ChainConcat(pre + [CompositeStrategy(mid)], post, items, b);
    ChainConcat(pre, [CompositeStrategy(mid)], items, b);
    assert [CompositeStrategy(mid)][1..] == [];
    ChainConcat(pre + mid, post, items, b);
    ChainConcat(pre, mid, items, b);
  }

  /** Order matters: on one line (sku "A", 2 at 10.00), 50% then 1.00 off
      per item gives 8.00, the reverse order gives 9.00. */
  lemma CompositeOrderMatters()
    ensures var items := [LineItem("A", 2, 1000)];
            var half := PercentageDiscount(50.0);
            var bulk := BulkItemDiscount("A", 1, 100);
            Calculate(CompositeStrategy([half, bulk]), items, None) == 800 &&
            Calculate(CompositeStrategy([bulk, half]), items, None) == 900
  {
    var items := [LineItem("A", 2, 1000)];
    var half := PercentageDiscount(50.0);
    var bulk := BulkItemDiscount("A", 1, 100);
    assert items[1..] == [];
    assert Subtotal(items) == 2000;
    assert Calculate(half, items, Some(2000)) == 1000;
    assert Calculate(bulk, items, Some(1000)) == 800;
    assert [half, bulk][1..] == [bulk];
    assert [bulk][1..] == [];
    assert Chain([half, bulk], items, 2000) == Chain([bulk], items, 1000) == Chain([], items, 800);
    assert Calculate(bulk, items, Some(2000)) == 1800;
    assert Calculate(half, items, Some(1800)) == 900;
    assert [bulk, half][1..] == [half];
    assert [half][1..] == [];
    assert Chain([bulk, half], items, 2000) == Chain([half], items, 1800) == Chain([], items, 900);
  }

  // ---------------------------------------------------------------------
  // No strategy raises a price

  /** Every per-item amount inside the strategy, however deeply nested, is
      non-negative. */
  predicate NonNegativeOffs(s: Strategy)
    decreases s
  {
    match s
    case NoDiscount => true
    case PercentageDiscount(_) => true
    case BulkItemDiscount(_, _, off) => off >= 0
    case CompositeStrategy(ss) => forall i :: 0 <= i < |ss| ==> NonNegativeOffs(ss[i])
  }

  /** A strategy construction can produce whose bulk rules only take money
      off. */
  predicate OnlyDiscounts(s: Strategy) {
    ValidStrategy(s) && NonNegativeOffs(s)
  }

  function Max0(t: int): int {
    if t >= 0 then t else 0
  }

  /** A strategy made only of discounts, applied to a cart without negative
      quantities, never ends above its starting amount (or above zero, when
      that amount is negative). */
  lemma {:induction false} NeverRaises(s: Strategy, items: seq<LineItem>, t: int)
    requires OnlyDiscounts(s)
    requires forall i :: 0 <= i < |items| ==> items[i].qty >= 0
    ensures Calculate(s, items, Some(t)) <= Max0(t)
    decreases s, 1
  {
    match s
    case NoDiscount =>
    case PercentageDiscount(p) =>
      PercentageMovesTowardZero(p, items, Some(t));
    case BulkItemDiscount(sku, threshold, off) =>
      DeductionAtLeastLine(sku, threshold, off, items, 0);
    case CompositeStrategy(ss) =>
      ChainNeverRaises(ss, items, t);
  }

  lemma {:induction false} ChainNeverRaises(stages: seq<Strategy>, items: seq<LineItem>, t: int)
    requires forall i :: 0 <= i < |stages| ==> OnlyDiscounts(stages[i])
    requires forall i :: 0 <= i < |items| ==> items[i].qty >= 0
    ensures Chain(stages, items, t) <= Max0(t)
    decreases stages, 0
  {
    if stages != [] {
      var next := Calculate(stages[0], items, Some(t));
      NeverRaises(stages[0], items, t);
      assert forall i :: 0 <= i < |stages[1..]| ==> stages[1..][i] == stages[i + 1];
      ChainNeverRaises(stages[1..], items, next);
    }
  }
}
