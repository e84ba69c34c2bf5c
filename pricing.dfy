/**
 * The eBay pricing calculator's formula (`calculatePricing`) and the width
 * rule of its profit bar chart. Costs are in MYR, prices and fees in USD.
 */
module Pricing {
  import opened Js

  /** One set of calculator inputs, already coerced by `Number(...)`. */
  datatype PricingInputs = PricingInputs(
    productCost: real,     // MYR
    shipping: real,        // MYR
    conversionRate: real,  // MYR per USD
    markupPercent: real,
    ebayFeePercent: real,
    adFeePercent: real)

  /** `defaultValues`: the inputs the calculator starts from and clears back to. */
  const DefaultValues := PricingInputs(3.0, 40.0, 4.0, 60.0, 13.0, 0.0)

  /** The intermediate quantities `calculatePricing` computes, at full precision. */
  datatype Breakdown = Breakdown(
    totalCostMYR: real,
    totalCostUSD: real,
    markup: real,
    suggestedPrice: real,
    ebayFee: real,
    adFee: real,
    netProfit: real)

  /**
   * What `calculatePricing` returns. `totalCostMYR` is the unrounded sum; every
   * other field holds the value of the two-decimal text `toFixed(2)` produced.
   */
  datatype PricingResult = PricingResult(
    totalCostMYR: real,
    totalCostUSD: real,
    markup: real,
    suggestedPrice: real,
    ebayFee: real,
    adFee: real,
    netProfit: real)

  /**
   * The straight-line formula. The source divides by the rate without a guard,
   * so a zero rate is excluded here.
   */
  function Compute(i: PricingInputs): (b: Breakdown)
    requires i.conversionRate != 0.0
    ensures b.totalCostMYR == i.productCost + i.shipping
    ensures b.totalCostUSD * i.conversionRate == b.totalCostMYR
    ensures b.markup == i.markupPercent / 100.0 * b.totalCostUSD
    ensures b.suggestedPrice == b.totalCostUSD * (1.0 + i.markupPercent / 100.0)
    ensures b.ebayFee == i.ebayFeePercent / 100.0 * b.suggestedPrice
    ensures b.adFee == i.adFeePercent / 100.0 * b.suggestedPrice
    ensures b.netProfit == b.markup - b.ebayFee - b.adFee
    ensures b.ebayFee + b.adFee == (i.ebayFeePercent + i.adFeePercent) / 100.0 * b.suggestedPrice
    ensures b.netProfit == b.totalCostUSD * (i.markupPercent / 100.0
                             - (1.0 + i.markupPercent / 100.0) * (i.ebayFeePercent + i.adFeePercent) / 100.0)
  {
    var totalCostMYR := i.productCost + i.shipping;
    var totalCostUSD := totalCostMYR / i.conversionRate;
    var markup := (i.markupPercent / 100.0) * totalCostUSD;
    var suggestedPrice := totalCostUSD + markup;
    var ebayFee := (i.ebayFeePercent / 100.0) * suggestedPrice;
    var adFee := (i.adFeePercent / 100.0) * suggestedPrice;
    var netProfit := suggestedPrice - totalCostUSD - ebayFee - adFee;
    assert suggestedPrice == totalCostUSD * (1.0 + i.markupPercent / 100.0);
    assert ebayFee + adFee == (i.ebayFeePercent + i.adFeePercent) / 100.0 * suggestedPrice;
    Breakdown(totalCostMYR, totalCostUSD, markup, suggestedPrice, ebayFee, adFee, netProfit)
  }

  /** Two reals that agree to within half a cent. */
  predicate WithinHalfCent(shown: real, exact: real) {
    -0.005 <= shown - exact <= 0.005
  }

  /**
   * `calculatePricing`: the breakdown with every USD figure rounded for display.
   * Each shown figure is a whole number of cents within half a cent of the
   * full-precision value.
   */
  function CalculatePricing(i: PricingInputs): (r: PricingResult)
    requires i.conversionRate != 0.0
    ensures r.totalCostMYR == i.productCost + i.shipping
    ensures IsCents(r.totalCostUSD) && WithinHalfCent(r.totalCostUSD, (i.productCost + i.shipping) / i.conversionRate)
    ensures IsCents(r.markup) && WithinHalfCent(r.markup, Compute(i).markup)
    ensures IsCents(r.suggestedPrice) && WithinHalfCent(r.suggestedPrice, Compute(i).suggestedPrice)
    ensures IsCents(r.ebayFee) && WithinHalfCent(r.ebayFee, Compute(i).ebayFee)
    ensures IsCents(r.adFee) && WithinHalfCent(r.adFee, Compute(i).adFee)
    ensures IsCents(r.netProfit) && WithinHalfCent(r.netProfit, Compute(i).netProfit)
  {
    var b := Compute(i);
    PricingResult(b.totalCostMYR, Round2(b.totalCostUSD), Round2(b.markup), Round2(b.suggestedPrice),
                  Round2(b.ebayFee), Round2(b.adFee), Round2(b.netProfit))
  }

  /**
   * With positive costs and rate, the listing makes a profit exactly when the
   * markup rate exceeds the fee share of the marked-up price.
   */
  lemma ProfitableIff(i: PricingInputs)
    requires i.conversionRate > 0.0 && i.productCost + i.shipping > 0.0
    ensures Compute(i).netProfit > 0.0 <==>
            i.markupPercent > (1.0 + i.markupPercent / 100.0) * (i.ebayFeePercent + i.adFeePercent)
  {
    var b := Compute(i);
    var k := i.markupPercent / 100.0 - (1.0 + i.markupPercent / 100.0) * (i.ebayFeePercent + i.adFeePercent) / 100.0;
    assert b.totalCostUSD > 0.0 by {
      assert b.totalCostUSD * i.conversionRate > 0.0;
    }
    assert b.netProfit == b.totalCostUSD * k;
    if k > 0.0 {
      assert b.totalCostUSD * k > 0.0;
    } else {
      assert b.totalCostUSD * k <= 0.0;
    }
  }

  /** The calculator's figures for `defaultValues`, exact and as displayed. */
  lemma DefaultExample()
    ensures Compute(DefaultValues) == Breakdown(43.0, 10.75, 6.45, 17.2, 2.236, 0.0, 4.214)
    ensures CalculatePricing(DefaultValues) == PricingResult(43.0, 10.75, 6.45, 17.2, 2.24, 0.0, 4.21)
  {
    assert (2.236 * 100.0 + 0.5).Floor == 224;
    assert (4.214 * 100.0 + 0.5).Floor == 421;
    assert (10.75 * 100.0 + 0.5).Floor == 1075;
    assert (6.45 * 100.0 + 0.5).Floor == 645;
    assert (17.2 * 100.0 + 0.5).Floor == 1720;
    assert (0.0 * 100.0 + 0.5).Floor == 0;
  }

  /** The five figures the bar chart draws, in drawing order. */
  function BarValues(r: PricingResult): seq<real> {
    [r.suggestedPrice, r.totalCostUSD, r.ebayFee, r.adFee, r.netProfit]
  }

  /** `Math.max` over a non-empty list of numbers. */
  function Max(xs: seq<real>): (m: real)
    requires |xs| > 0
    ensures m in xs
    ensures forall k :: 0 <= k < |xs| ==> xs[k] <= m
  {
    if |xs| == 1 then xs[0]
    else
      var rest := Max(xs[1..]);
      assert forall k :: 1 <= k < |xs| ==> xs[k] == xs[1..][k - 1];
      if xs[0] >= rest then xs[0] else rest
  }

  /** One bar's width in percent: its figure's share of the maximum. */
  function Share(x: real, max: real): real
    requires max != 0.0
  {
    (x / max) * 100.0
  }

  /**
   * The width rule of `ProfitBarChart`: each bar's width in percent is
   * `val / max * 100`, with `max` the largest of the figures. The source has no
   * guard for a zero maximum, so one is excluded here.
   */
  function Widths(vs: seq<real>): (w: seq<real>)
    requires |vs| > 0 && Max(vs) != 0.0
    ensures |w| == |vs|
    ensures forall k :: 0 <= k < |vs| ==> w[k] == Share(vs[k], Max(vs))
  {
    var max := Max(vs);
    seq(|vs|, k requires 0 <= k < |vs| => Share(vs[k], max))
  }

  /**
   * The five bars of `ProfitBarChart`, in drawing order: suggested price, total
   * cost, eBay fee, ad fee and net profit, each as its share of the largest.
   */
  function BarWidths(r: PricingResult): (w: seq<real>)
    requires Max(BarValues(r)) != 0.0
    ensures |w| == 5
    ensures var m := Max([r.suggestedPrice, r.totalCostUSD, r.ebayFee, r.adFee, r.netProfit]);
            && w[0] == Share(r.suggestedPrice, m) && w[1] == Share(r.totalCostUSD, m)
            && w[2] == Share(r.ebayFee, m) && w[3] == Share(r.adFee, m) && w[4] == Share(r.netProfit, m)
  {
    Widths(BarValues(r))
  }

  /**
   * The largest figure fills its track; when the maximum is positive, no bar
   * overflows and no non-negative figure draws a negative width.
   */
  lemma WidthsFit(vs: seq<real>)
    requires |vs| > 0 && Max(vs) != 0.0
    ensures exists k :: 0 <= k < |vs| && Widths(vs)[k] == 100.0
    ensures Max(vs) > 0.0 ==> forall k :: 0 <= k < |vs| ==> Widths(vs)[k] <= 100.0
    ensures Max(vs) > 0.0 ==> forall k :: 0 <= k < |vs| && vs[k] >= 0.0 ==> Widths(vs)[k] >= 0.0
  {
    var max := Max(vs);
    var w := Widths(vs);
    forall k | 0 <= k < |vs|
      ensures vs[k] == max ==> w[k] == 100.0
      ensures max > 0.0 ==> w[k] <= 100.0 && (vs[k] >= 0.0 ==> w[k] >= 0.0)
    {
      ShareOfMax(vs[k], max);
    }
    var j :| 0 <= j < |vs| && vs[j] == max;
    assert w[j] == 100.0;
  }

  /** How a figure's share of a non-zero maximum behaves. */
  lemma ShareOfMax(x: real, max: real)
    requires max != 0.0
    ensures x == max ==> Share(x, max) == 100.0
    ensures max > 0.0 && x <= max ==> Share(x, max) <= 100.0
    ensures max > 0.0 && x >= 0.0 ==> Share(x, max) >= 0.0
  {
    var q := x / max;
    assert q * max == x;
    if max > 0.0 && x <= max {
      assert q * max <= 1.0 * max;
    }
  }
}
