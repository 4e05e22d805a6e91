/** The strategy factory: builds a pricing strategy from a kind name and the
    options given for it, filling in fixed defaults for absent options. */
module Bootstrap {
  import opened Wrappers
  import opened Pricing

  /** The options the factory looks up; each may be absent. */
  datatype Options = Options(percent: Option<real>, sku: Option<string>, threshold: Option<int>, perItemOff: Option<int>)

  /** No option given at all. */
  const NoOptions := Options(None, None, None, None)

  /** The kind names the factory recognises. */
  predicate KnownKind(kind: string) {
    kind == "none" || kind == "percent" || kind == "bulk" || kind == "composite"
  }

  /** The percent option, 0.0 when absent. */
  function PercentOption(opts: Options): real {
    opts.percent.GetOr(0.0)
  }

  /** The bulk rule the options describe, with defaults `""`, 0 and 0. */
  function BulkFrom(opts: Options): Strategy {
    BulkItemDiscount(opts.sku.GetOr(""), opts.threshold.GetOr(0), opts.perItemOff.GetOr(0))
  }

  /** Selection of a strategy by kind name. */
  function ChooseStrategy(kind: string, opts: Options): (r: Result<Strategy, ValueError>)
    ensures r.Ok? ==> ValidStrategy(r.value)
    ensures r.Err? <==> !KnownKind(kind) || ((kind == "percent" || kind == "composite") && !(0.0 <= PercentOption(opts) <= 100.0))
    ensures r.Err? ==> r.error == if KnownKind(kind) then PercentOutOfRange(PercentOption(opts)) else UnknownStrategyKind(kind)
    ensures kind == "none" ==> r == Ok(NoDiscount)
    ensures kind == "percent" && r.Ok? ==> r.value == PercentageDiscount(PercentOption(opts))
    ensures kind == "bulk" ==> r == Ok(BulkFrom(opts))
    ensures kind == "composite" && r.Ok? ==> r.value == CompositeStrategy([PercentageDiscount(PercentOption(opts)), BulkFrom(opts)])
  {
    if kind == "none" then Ok(NoDiscount)
    else if kind == "percent" then NewPercentageDiscount(PercentOption(opts))
    else if kind == "bulk" then Ok(BulkFrom(opts))
    else if kind == "composite" then
      match NewPercentageDiscount(PercentOption(opts))
      case Err(e) => Err(e)
      case Ok(percentStrategy) => Ok(CompositeStrategy([percentStrategy, BulkFrom(opts)]))
    else Err(UnknownStrategyKind(kind))
  }

  /** A composite built by the factory takes the percentage first and then
      the bulk rule, the bulk rule starting from the percentage's result. */
  lemma CompositeRunsPercentThenBulk(opts: Options, items: seq<LineItem>, seed: Option<int>)
    requires 0.0 <= PercentOption(opts) <= 100.0
    ensures ChooseStrategy("composite", opts).Ok?
    ensures Calculate(ChooseStrategy("composite", opts).value, items, seed)
            == Calculate(BulkFrom(opts), items, Some(Calculate(PercentageDiscount(PercentOption(opts)), items, seed)))
  {
    var percentStage := PercentageDiscount(PercentOption(opts));
    var stages := [percentStage, BulkFrom(opts)];
    var b := Base(items, seed);
    var afterPercent := Calculate(percentStage, items, Some(b));
    assert stages[1..] == [BulkFrom(opts)];
    assert stages[1..][1..] == [];
    assert Chain(stages, items, b) == Chain([BulkFrom(opts)], items, afterPercent)
                                   == Chain([], items, Calculate(BulkFrom(opts), items, Some(afterPercent)));
    SeedDefaultsToSubtotal(percentStage, items);
  }

  /** With every option left at its default, whichever known kind is chosen
      prices every cart at its starting amount. */
  lemma DefaultsChangeNothing(kind: string, items: seq<LineItem>, seed: Option<int>)
    requires KnownKind(kind)
    ensures ChooseStrategy(kind, NoOptions).Ok?
    ensures Calculate(ChooseStrategy(kind, NoOptions).value, items, seed) == Base(items, seed)
  {
    ZeroOffDeductsNothing("", 0, items);
    if kind == "composite" {
      CompositeRunsPercentThenBulk(NoOptions, items, seed);
    }
  }

  /** Items A (3 at 10.00) and B (1 at 5.00) with kind "percent" and
      percent 10: subtotal 35.00, total 31.50. */
  lemma PercentEndToEnd()
    ensures var items := [LineItem("A", 3, 1000), LineItem("B", 1, 500)];
            var r := ChooseStrategy("percent", Options(Some(10.0), None, None, None));
            Subtotal(items) == 3500 && r.Ok? && Apply(r.value, Subtotal(items), items) == 3150
  {
  }
}
