/**
 * The portfolio figures of `ProductStats`: left folds over the product list
 * (`reduce` with initial value 0) and the top seller of a sorted copy.
 */
module Stats {
  import opened Js
  import opened Products

  /** `ps.reduce((sum, p) => sum + f(p), 0)` for a contribution that is always a number. */
  function SumBy(ps: seq<Product>, f: Product -> real): real
    decreases |ps|
  {
    if |ps| == 0 then 0.0 else SumBy(ps[..|ps| - 1], f) + f(ps[|ps| - 1])
  }

  /** The same fold with JavaScript's `+`: one NaN contribution makes the sum NaN. */
  function JsSumBy(ps: seq<Product>, f: Product -> JsNumber): JsNumber
    decreases |ps|
  {
    if |ps| == 0 then Num(0.0) else Add(JsSumBy(ps[..|ps| - 1], f), f(ps[|ps| - 1]))
  }

  /** Every contribution survives numeric coercion. */
  predicate AllNumeric(ps: seq<Product>, f: Product -> JsNumber) {
    forall k :: 0 <= k < |ps| ==> ToNumber(f(ps[k])).Some?
  }

  /** The contribution as a number, null read as 0. */
  function Coerced(f: Product -> JsNumber): Product -> real {
    p => ToNumber(f(p)).GetOr(0.0)
  }

  // ---------------------------------------------------------------------------
  // The sums, against their reference definitions

  /** A sum over a concatenation is the sum of the two sums. */
  lemma {:induction false} SumByAppend(a: seq<Product>, b: seq<Product>, f: Product -> real)
    ensures SumBy(a + b, f) == SumBy(a, f) + SumBy(b, f)
    decreases |b|
  {
    if |b| == 0 {
      assert a + b == a;
    } else {
      var n := |b| - 1;
      assert (a + b)[..|a + b| - 1] == a + b[..n];
      assert (a + b)[|a + b| - 1] == b[n];
      SumByAppend(a, b[..n], f);
    }
  }

  /** A sum does not depend on the order of the products. */
  lemma {:induction false} SumByPermutation(a: seq<Product>, b: seq<Product>, f: Product -> real)
    requires multiset(a) == multiset(b)
    ensures SumBy(a, f) == SumBy(b, f)
    decreases |a|
  {
    if |a| == 0 {
      assert |b| == |multiset(b)| == 0;
    } else {
      var n := |a| - 1;
      var x := a[n];
      assert a == a[..n] + [x];
      assert x in multiset(b);
      var k :| 0 <= k < |b| && b[k] == x;
      var rest := b[..k] + b[k + 1..];
      assert multiset(a[..n]) == multiset(rest) by {
        assert multiset(a) == multiset(a[..n]) + multiset{x};
        MultisetWithout(b, k);
      }
      SumByPermutation(a[..n], rest, f);
      SumByWithout(b, k, f);
    }
  }

  lemma MultisetWithout(b: seq<Product>, k: nat)
    requires k < |b|
    ensures multiset(b[..k] + b[k + 1..]) == multiset(b) - multiset{b[k]}
  {
    assert b == b[..k] + [b[k]] + b[k + 1..];
  }

  /** Taking one product out of a sum takes out its contribution. */
  lemma SumByWithout(b: seq<Product>, k: nat, f: Product -> real)
    requires k < |b|
    ensures SumBy(b, f) == SumBy(b[..k] + b[k + 1..], f) + f(b[k])
  {
    var pre, x, post := b[..k], b[k], b[k + 1..];
    assert b == pre + ([x] + post);
    SumByAppend(pre, [x] + post, f);
    SumByAppend([x], post, f);
    SumBySingle(x, f);
    SumByAppend(pre, post, f);
  }

  lemma SumBySingle(x: Product, f: Product -> real)
    ensures SumBy([x], f) == f(x)
  {
    assert [x][..0] == [];
  }

  /**
   * The JavaScript fold is the numeric sum of the coerced contributions when
   * every contribution is a number (or null), and NaN otherwise.
   */
  lemma {:induction false} JsSumCoerced(ps: seq<Product>, f: Product -> JsNumber)
    ensures JsSumBy(ps, f) == if AllNumeric(ps, f) then Num(SumBy(ps, Coerced(f))) else NaN
    decreases |ps|
  {
    if |ps| > 0 {
      var n := |ps| - 1;
      JsSumCoerced(ps[..n], f);
      assert AllNumeric(ps, f) <==> AllNumeric(ps[..n], f) && ToNumber(f(ps[n])).Some? by {
        assert forall k :: 0 <= k < n ==> ps[..n][k] == ps[k];
      }
    }
  }

  /** Each sum is bounded by the bounds of its contributions times the count. */
  lemma {:induction false} SumByBounds(ps: seq<Product>, f: Product -> real, lo: real, hi: real)
    requires forall k :: 0 <= k < |ps| ==> lo <= f(ps[k]) <= hi
    ensures lo * |ps| as real <= SumBy(ps, f) <= hi * |ps| as real
    decreases |ps|
  {
    if |ps| > 0 {
      var n := |ps| - 1;
      assert forall k :: 0 <= k < n ==> ps[..n][k] == ps[k];
      SumByBounds(ps[..n], f, lo, hi);
      assert lo * |ps| as real == lo * n as real + lo;
      assert hi * |ps| as real == hi * n as real + hi;
    }
  }

  // ---------------------------------------------------------------------------
  // The figures

  function SoldOf(p: Product): JsNumber { p.sold }

  function ValueOf(p: Product): JsNumber { Mul(p.price, p.sold) }

  function RatingOf(p: Product): real { OrZero(p.rating) }

  /** `(p.price - (p.cost_price || 0)) * (p.sold || 0)`, before the NaN guard. */
  function RawProfit(p: Product): JsNumber {
    Mul(Sub(p.price, Num(OrZero(p.costPrice))), Num(OrZero(p.sold)))
  }

  /**
   * One product's part of `totalProfit`: the raw profit, or 0 when it is NaN.
   * Postage, the MYR cost and the exchange rate play no part.
   */
  function ProfitOf(p: Product): (r: real)
    ensures ToNumber(p.price).Some? ==> r == (ToNumber(p.price).value - OrZero(p.costPrice)) * OrZero(p.sold)
    ensures ToNumber(p.price).None? ==> r == 0.0
  {
    var profit := RawProfit(p);
    if IsNaN(profit) then 0.0 else ToNumber(profit).value
  }

  /** `totalSold`: the sum of `sold`, NaN as soon as one `sold` is missing or NaN. */
  function TotalSold(ps: seq<Product>): (r: JsNumber)
    ensures |ps| == 0 ==> r == Num(0.0)
  {
    JsSumBy(ps, SoldOf)
  }

  /** `totalValue`: the sum of `price * sold`. */
  function TotalValue(ps: seq<Product>): (r: JsNumber)
    ensures |ps| == 0 ==> r == Num(0.0)
  {
    JsSumBy(ps, ValueOf)
  }

  /** A total shared equally over `n` items. */
  function Mean(total: real, n: nat): (m: real)
    requires n > 0
    ensures m * n as real == total
  {
    total / n as real
  }

  /**
   * `averageRating`: the sum of `rating || 0` over the count; for an empty list
   * the quotient 0/0 is NaN and `|| 0` turns it into 0.
   */
  function AverageRating(ps: seq<Product>): (r: real)
    ensures |ps| == 0 ==> r == 0.0
    ensures |ps| > 0 ==> r * |ps| as real == SumBy(ps, RatingOf)
  {
    if |ps| == 0 then 0.0 else Mean(SumBy(ps, RatingOf), |ps|)
  }

  /** `totalProfit`: the guarded sum of the per-product profits. */
  function TotalProfit(ps: seq<Product>): real {
    SumBy(ps, ProfitOf)
  }

  /** `avgProfit`: total profit per product, 0 for an empty list. */
  function AvgProfit(ps: seq<Product>): (r: real)
    ensures |ps| == 0 ==> r == 0.0
    ensures |ps| > 0 ==> r == Mean(TotalProfit(ps), |ps|)
  {
    if |ps| > 0 then Mean(TotalProfit(ps), |ps|) else 0.0
  }

  /**
   * The position of the first product with the largest `sold`: what a stable
   * descending sort by `sold` puts first.
   */
  function TopSellerIndex(ps: seq<Product>): (i: nat)
    requires |ps| > 0
    ensures i < |ps|
    ensures forall k :: 0 <= k < |ps| ==> SoldNumber(ps[k]) <= SoldNumber(ps[i])
    ensures forall k :: 0 <= k < i ==> SoldNumber(ps[k]) < SoldNumber(ps[i])
    decreases |ps|
  {
    if |ps| == 1 then 0
    else
      var n := |ps| - 1;
      var k := TopSellerIndex(ps[..n]);
      assert forall j :: 0 <= j < n ==> ps[..n][j] == ps[j];
      if SoldNumber(ps[n]) > SoldNumber(ps[k]) then n else k
  }

  /**
   * `topSeller`: the head of a descending sort of a copy by `sold`, undefined
   * for an empty list. The comparator `b.sold - a.sold` is only consistent when
   * every `sold` is a number or null, so that is required.
   */
  function TopSeller(ps: seq<Product>): (r: Option<Product>)
    requires forall k :: 0 <= k < |ps| ==> SoldComparable(ps[k])
    ensures r.None? <==> |ps| == 0
    ensures r.Some? ==> r.value in ps
    ensures r.Some? ==> forall k :: 0 <= k < |ps| ==> SoldNumber(ps[k]) <= SoldNumber(r.value)
    ensures r.Some? ==> exists i :: 0 <= i < |ps| && ps[i] == r.value &&
                          forall k :: 0 <= k < i ==> SoldNumber(ps[k]) < SoldNumber(ps[i])
  {
    if |ps| == 0 then None else Some(ps[TopSellerIndex(ps)])
  }

  /** The figures the component shows; `totalProducts` is `products.length`. */
  datatype Summary = Summary(
    totalProducts: nat,
    totalSold: JsNumber,
    totalValue: JsNumber,
    averageRating: real,
    topSeller: Option<Product>,
    totalProfit: real,
    avgProfit: real)

  function Summarize(ps: seq<Product>): (s: Summary)
    requires forall k :: 0 <= k < |ps| ==> SoldComparable(ps[k])
    ensures s.totalProducts == |ps|
    ensures |ps| == 0 ==> s == Summary(0, Num(0.0), Num(0.0), 0.0, None, 0.0, 0.0)
  {
    Summary(|ps|, TotalSold(ps), TotalValue(ps), AverageRating(ps), TopSeller(ps),
            TotalProfit(ps), AvgProfit(ps))
  }

  // ---------------------------------------------------------------------------
  // Properties of the figures

  /** With every `sold` a number or null, `totalSold` is the plain sum of those numbers. */
  lemma TotalSoldIsSum(ps: seq<Product>)
    ensures AllNumeric(ps, SoldOf) ==> TotalSold(ps) == Num(SumBy(ps, Coerced(SoldOf)))
    ensures !AllNumeric(ps, SoldOf) ==> TotalSold(ps) == NaN
  {
    JsSumCoerced(ps, SoldOf);
  }

  /** Ratings on the form's 0 to 5 scale average to a value on the same scale. */
  lemma AverageRatingInRange(ps: seq<Product>)
    requires forall k :: 0 <= k < |ps| ==> 0.0 <= RatingOf(ps[k]) <= 5.0
    ensures 0.0 <= AverageRating(ps) <= 5.0
  {
    SumByBounds(ps, RatingOf, 0.0, 5.0);
    if |ps| > 0 {
      var n := |ps| as real;
      var avg := AverageRating(ps);
      assert avg * n <= 5.0 * n;
      assert 0.0 <= avg * n;
    }
  }

  /** Products that agree on price, cost price and sold give the same total profit. */
  lemma {:induction false} TotalProfitUsesPriceCostSold(a: seq<Product>, b: seq<Product>)
    requires |a| == |b|
    requires forall k :: 0 <= k < |a| ==>
               a[k].price == b[k].price && a[k].costPrice == b[k].costPrice && a[k].sold == b[k].sold
    ensures TotalProfit(a) == TotalProfit(b)
    decreases |a|
  {
    if |a| > 0 {
      var n := |a| - 1;
      assert forall k :: 0 <= k < n ==> a[..n][k] == a[k] && b[..n][k] == b[k];
      TotalProfitUsesPriceCostSold(a[..n], b[..n]);
      SameProfit(a[n], b[n]);
      TotalProfitStep(a);
      TotalProfitStep(b);
    }
  }

  lemma SameProfit(p: Product, q: Product)
    requires p.price == q.price && p.costPrice == q.costPrice && p.sold == q.sold
    ensures ProfitOf(p) == ProfitOf(q)
  {
    assert RawProfit(p) == RawProfit(q);
  }

  lemma TotalProfitStep(a: seq<Product>)
    requires |a| > 0
    ensures TotalProfit(a) == TotalProfit(a[..|a| - 1]) + ProfitOf(a[|a| - 1])
  {
  }

  /**
   * The profit rule does not normalise MYR costs and does not subtract postage:
   * a product sold 5 times at 20 with a cost of 47 MYR at 4.7 and postage 1 but
   * no `cost_price` counts 100, and with `cost_price` 10 it counts 50.
   */
  lemma ProfitIgnoresMyrCostAndPostage()
    ensures var p := Product("item", Num(20.0), Num(5.0), Null, Null, Num(1.0), Num(47.0), Null, Num(4.7),
                             None, None, None, 0.0);
            ProfitOf(p) == 100.0 && ProfitOf(p.(costPrice := Num(10.0))) == 50.0
  {
    var p := Product("item", Num(20.0), Num(5.0), Null, Null, Num(1.0), Num(47.0), Null, Num(4.7),
                     None, None, None, 0.0);
    assert RawProfit(p) == Mul(Num(20.0), Num(5.0)) == Num(100.0);
    var q := p.(costPrice := Num(10.0));
    assert RawProfit(q) == Mul(Num(10.0), Num(5.0)) == Num(50.0);
  }

  /**
   * The totals do not depend on the order of the products, and the top
   * seller's `sold` does not either (which product it is may differ on ties).
   */
  lemma SummaryIgnoresOrder(a: seq<Product>, b: seq<Product>)
    requires multiset(a) == multiset(b)
    requires forall k :: 0 <= k < |a| ==> SoldComparable(a[k])
    ensures forall k :: 0 <= k < |b| ==> SoldComparable(b[k])
    ensures Summarize(a).totalProducts == Summarize(b).totalProducts
    ensures Summarize(a).totalSold == Summarize(b).totalSold
    ensures Summarize(a).totalValue == Summarize(b).totalValue
    ensures Summarize(a).averageRating == Summarize(b).averageRating
    ensures Summarize(a).totalProfit == Summarize(b).totalProfit
    ensures Summarize(a).avgProfit == Summarize(b).avgProfit
    ensures Summarize(a).topSeller.Some? ==>
              (Summarize(b).topSeller.Some? &&
               SoldNumber(Summarize(a).topSeller.value) == SoldNumber(Summarize(b).topSeller.value))
  {
    assert |a| == |multiset(a)| == |multiset(b)| == |b|;
    forall k | 0 <= k < |b| ensures SoldComparable(b[k]) {
      assert b[k] in multiset(a);
    }
    SamePermutationSums(a, b, SoldOf);
    SamePermutationSums(a, b, ValueOf);
    SumByPermutation(a, b, RatingOf);
    SumByPermutation(a, b, ProfitOf);
    if |a| > 0 {
      var ta := TopSeller(a).value;
      var tb := TopSeller(b).value;
      assert ta in multiset(b) && tb in multiset(a);
    }
  }

  lemma SamePermutationSums(a: seq<Product>, b: seq<Product>, f: Product -> JsNumber)
    requires multiset(a) == multiset(b)
    ensures JsSumBy(a, f) == JsSumBy(b, f)
  {
    JsSumCoerced(a, f);
    JsSumCoerced(b, f);
    SumByPermutation(a, b, Coerced(f));
    assert AllNumeric(a, f) <==> AllNumeric(b, f) by {
      if AllNumeric(a, f) {
        forall k | 0 <= k < |b| ensures ToNumber(f(b[k])).Some? {
          assert b[k] in multiset(a);
        }
      }
      if AllNumeric(b, f) {
        forall k | 0 <= k < |a| ensures ToNumber(f(a[k])).Some? {
          assert a[k] in multiset(b);
        }
      }
    }
  }
}
