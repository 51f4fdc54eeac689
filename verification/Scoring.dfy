/**
 * The explainable score of app/recommendations/scoring.py. Decimals are reals with the source's explicit
 * quantization; `log` stands for log1p.
 */
module Scoring {
  import opened Common

  /** log1p: zero at zero, nondecreasing, positive from one on. */
  ghost predicate LogLike(log: nat -> real) {
    log(0) == 0.0 && log(1) > 0.0 && forall m: nat, n: nat :: m <= n ==> log(m) <= log(n)
  }

  const RATING_WEIGHT := 0.30
  const ORDERS_WEIGHT := 0.20
  const DISCOUNT_WEIGHT := 0.15
  const PRICE_WEIGHT := 0.10
  const COMMISSION_WEIGHT := 0.25

  /** A product's scored attributes; None is a missing value. */
  datatype Attributes = Attributes(
    rating: Option<real>, sales: Option<int>, discount: Option<real>, price: Option<real>, commission: Option<real>)

  /** The candidate-set-relative inputs. */
  datatype Market = Market(maxSales: int, minPrice: real, maxPrice: real)

  /** One row of the breakdown; `normalized` and `contribution` are already quantized. */
  datatype Factor = Factor(normalized: real, weight: real, contribution: real, missing: bool)

  datatype Score = Score(total: real, rating: Factor, orders: Factor, discount: Factor, price: Factor, commission: Factor)

  /** `quantize(0.0001, ROUND_HALF_UP)`: the nearest multiple, ties away from zero. */
  function Quantize(x: real): real {
    if x >= 0.0 then (x * 10000.0 + 0.5).Floor as real / 10000.0
    else -((-x * 10000.0 + 0.5).Floor as real / 10000.0)
  }

  function Clamp(x: real): (c: real)
    ensures 0.0 <= c <= 1.0
  {
    if x < 0.0 then 0.0 else if x > 1.0 then 1.0 else x
  }

  function RatingScore(rating: Option<real>): (c: real)
    ensures 0.0 <= c <= 1.0
  {
    if rating.None? then 0.0 else Clamp(rating.value / 5.0)
  }

  function AtLeastZero(n: int): nat {
    if n < 0 then 0 else n
  }

  /** Division that is total, for use where the divisor is known to be nonzero. */
  function Ratio(x: real, y: real): real {
    if y == 0.0 then 0.0 else x / y
  }

  function OrdersScore(log: nat -> real, sales: Option<int>, maxSales: int): (c: real)
    ensures 0.0 <= c <= 1.0
  {
    if sales.None? || maxSales <= 0 then 0.0
    else Clamp(Ratio(log(AtLeastZero(sales.value)), log(maxSales)))
  }

  function PercentScore(percent: Option<real>): (c: real)
    ensures 0.0 <= c <= 1.0
  {
    if percent.None? then 0.0 else Clamp(percent.value / 100.0)
  }

  function PriceScore(price: Option<real>, minPrice: real, maxPrice: real): (c: real)
    ensures 0.0 <= c <= 1.0
  {
    if price.None? then 0.0
    else if maxPrice == minPrice then 1.0
    else Clamp((maxPrice - price.value) / (maxPrice - minPrice))
  }

  /** `_factor`. */
  function MakeFactor(normalized: real, weight: real, missing: bool): Factor {
    Factor(Quantize(normalized), weight, Quantize(normalized * weight * 100.0), missing)
  }

  function ContributionSum(s: Score): real {
    s.rating.contribution + s.orders.contribution + s.discount.contribution + s.price.contribution + s.commission.contribution
  }

  function WithTotal(rating: Factor, orders: Factor, discount: Factor, price: Factor, commission: Factor): Score {
    var sum := rating.contribution + orders.contribution + discount.contribution + price.contribution + commission.contribution;
    Score(Quantize(sum), rating, orders, discount, price, commission)
  }

  /** `calculate_recommendation_score`. */
  function Calculate(log: nat -> real, a: Attributes, m: Market): Score {
    WithTotal(
      MakeFactor(RatingScore(a.rating), RATING_WEIGHT, a.rating.None?),
      MakeFactor(OrdersScore(log, a.sales, m.maxSales), ORDERS_WEIGHT, a.sales.None?),
      MakeFactor(PercentScore(a.discount), DISCOUNT_WEIGHT, a.discount.None?),
      MakeFactor(PriceScore(a.price, m.minPrice, m.maxPrice), PRICE_WEIGHT, a.price.None?),
      MakeFactor(PercentScore(a.commission), COMMISSION_WEIGHT, a.commission.None?))
  }

  // ---- Quantization ----

  lemma FloorMonotone(x: real, y: real)
    requires x <= y
    ensures x.Floor <= y.Floor
  {
  }

  lemma {:induction false} QuantizeMonotone(x: real, y: real)
    requires 0.0 <= x <= y
    ensures 0.0 <= Quantize(x) <= Quantize(y)
  {
    FloorMonotone(x * 10000.0 + 0.5, y * 10000.0 + 0.5);
  }

  /** The nonnegative multiples of the quantum are fixed points. */
  lemma QuantizeFixed(k: nat)
    ensures Quantize(k as real / 10000.0) == k as real / 10000.0
  {
    var x := k as real / 10000.0;
    assert x * 10000.0 + 0.5 == k as real + 0.5;
    assert (k as real + 0.5).Floor == k;
  }

  lemma QuantizeIsQuantum(x: real) returns (k: nat)
    requires x >= 0.0
    ensures Quantize(x) == k as real / 10000.0
  {
    k := (x * 10000.0 + 0.5).Floor;
  }

  /** A sum of quantized values needs no further rounding. */
  lemma {:induction false} QuantizeSum(x1: real, x2: real, x3: real, x4: real, x5: real)
    requires x1 >= 0.0 && x2 >= 0.0 && x3 >= 0.0 && x4 >= 0.0 && x5 >= 0.0
    ensures var sum := Quantize(x1) + Quantize(x2) + Quantize(x3) + Quantize(x4) + Quantize(x5);
      Quantize(sum) == sum
  {
    hide Quantize;
    var k1 := QuantizeIsQuantum(x1);
    var k2 := QuantizeIsQuantum(x2);
    var k3 := QuantizeIsQuantum(x3);
    var k4 := QuantizeIsQuantum(x4);
    var k5 := QuantizeIsQuantum(x5);
    QuantizeFixed(k1 + k2 + k3 + k4 + k5);
    assert (k1 + k2 + k3 + k4 + k5) as real
        == k1 as real + k2 as real + k3 as real + k4 as real + k5 as real;
  }

  // ---- The score ----

  lemma ContributionBounds(n: real, weight: real, cap: nat)
    requires 0.0 <= n <= 1.0 && weight >= 0.0 && weight * 100.0 == cap as real / 10000.0
    ensures 0.0 <= n * weight * 100.0
    ensures 0.0 <= Quantize(n * weight * 100.0) <= cap as real / 10000.0
  {
    assert 0.0 <= n * weight <= weight;
    QuantizeMonotone(n * weight * 100.0, weight * 100.0);
    QuantizeFixed(cap);
  }

  /** The total lies in 0..100 and is exactly the sum of the contributions shown. */
  lemma {:induction false} TotalIsSum(log: nat -> real, a: Attributes, m: Market)
    ensures var s := Calculate(log, a, m);
      && s.total == ContributionSum(s)
      && 0.0 <= s.total <= 100.0
      && 0.0 <= s.rating.contribution <= 30.0 && 0.0 <= s.orders.contribution <= 20.0
      && 0.0 <= s.discount.contribution <= 15.0 && 0.0 <= s.price.contribution <= 10.0
      && 0.0 <= s.commission.contribution <= 25.0
  {
    hide Quantize, RatingScore, OrdersScore, PercentScore, PriceScore;
    var s := Calculate(log, a, m);
    var n1, n2, n3 := RatingScore(a.rating), OrdersScore(log, a.sales, m.maxSales), PercentScore(a.discount);
    var n4, n5 := PriceScore(a.price, m.minPrice, m.maxPrice), PercentScore(a.commission);
    ContributionBounds(n1, RATING_WEIGHT, 300000);
    ContributionBounds(n2, ORDERS_WEIGHT, 200000);
    ContributionBounds(n3, DISCOUNT_WEIGHT, 150000);
    ContributionBounds(n4, PRICE_WEIGHT, 100000);
    ContributionBounds(n5, COMMISSION_WEIGHT, 250000);
    QuantizeSum(n1 * RATING_WEIGHT * 100.0, n2 * ORDERS_WEIGHT * 100.0, n3 * DISCOUNT_WEIGHT * 100.0,
                n4 * PRICE_WEIGHT * 100.0, n5 * COMMISSION_WEIGHT * 100.0);
  }

  // ---- Monotonicity ----

  lemma DivideMonotone(x: real, y: real, d: real)
    requires x <= y && d > 0.0
    ensures x / d <= y / d
  {
    var inverse := 1.0 / d;
    assert x / d == x * inverse && y / d == y * inverse;
  }

  lemma ContributionMonotone(x: real, y: real, weight: real)
    requires 0.0 <= x <= y && weight >= 0.0
    ensures 0.0 <= Quantize(x * weight * 100.0) <= Quantize(y * weight * 100.0)
  {
    assert 0.0 <= x * weight <= y * weight;
    QuantizeMonotone(x * weight * 100.0, y * weight * 100.0);
  }

  /**
   * `b` is at least as good as `a` in every scored attribute; a missing value is lowest, and a
   * commission that is not positive scores like a missing one.
   */
  predicate Dominates(b: Attributes, a: Attributes) {
    && AtLeast(b.rating, a.rating) && AtLeastInt(b.sales, a.sales) && AtLeast(b.discount, a.discount)
    && (a.price.Some? ==> b.price.Some? && b.price.value <= a.price.value)
    && (a.commission.Some? && a.commission.value > 0.0 ==> AtLeast(b.commission, a.commission))
  }

  predicate AtLeast(y: Option<real>, x: Option<real>) {
    x.Some? ==> y.Some? && x.value <= y.value
  }

  predicate AtLeastInt(y: Option<int>, x: Option<int>) {
    x.Some? ==> y.Some? && x.value <= y.value
  }

  lemma NormalizedMonotone(log: nat -> real, a: Attributes, b: Attributes, m: Market)
    requires LogLike(log) && m.minPrice <= m.maxPrice && Dominates(b, a)
    ensures RatingScore(a.rating) <= RatingScore(b.rating)
    ensures OrdersScore(log, a.sales, m.maxSales) <= OrdersScore(log, b.sales, m.maxSales)
    ensures PercentScore(a.discount) <= PercentScore(b.discount)
    ensures PriceScore(a.price, m.minPrice, m.maxPrice) <= PriceScore(b.price, m.minPrice, m.maxPrice)
    ensures PercentScore(a.commission) <= PercentScore(b.commission)
  {
    if a.sales.Some? && m.maxSales > 0 {
      var x, y := AtLeastZero(a.sales.value), AtLeastZero(b.sales.value);
      assert log(x) <= log(y) && log(1) <= log(m.maxSales);
      DivideMonotone(log(x), log(y), log(m.maxSales));
    }
    if a.price.Some? && m.minPrice < m.maxPrice {
      DivideMonotone(m.maxPrice - a.price.value, m.maxPrice - b.price.value, m.maxPrice - m.minPrice);
    }
  }

  /** Rounding included, a product at least as good in everything never scores lower. */
  lemma {:induction false} ScoreMonotone(log: nat -> real, a: Attributes, b: Attributes, m: Market)
    requires LogLike(log) && m.minPrice <= m.maxPrice && Dominates(b, a)
    ensures Calculate(log, a, m).total <= Calculate(log, b, m).total
  {
    hide Quantize, RatingScore, OrdersScore, PercentScore, PriceScore, LogLike;
    NormalizedMonotone(log, a, b, m);
    ContributionMonotone(RatingScore(a.rating), RatingScore(b.rating), RATING_WEIGHT);
    ContributionMonotone(OrdersScore(log, a.sales, m.maxSales), OrdersScore(log, b.sales, m.maxSales), ORDERS_WEIGHT);
    ContributionMonotone(PercentScore(a.discount), PercentScore(b.discount), DISCOUNT_WEIGHT);
    ContributionMonotone(
      PriceScore(a.price, m.minPrice, m.maxPrice), PriceScore(b.price, m.minPrice, m.maxPrice), PRICE_WEIGHT);
    ContributionMonotone(PercentScore(a.commission), PercentScore(b.commission), COMMISSION_WEIGHT);
    QuantizeMonotone(ContributionSum(Calculate(log, a, m)), ContributionSum(Calculate(log, b, m)));
  }

  // ---- What the score measures ----

  /** Rounding moves a value by at most half a quantum. */
  lemma QuantizeClose(x: real)
    requires x >= 0.0
    ensures x - 0.00005 <= Quantize(x) <= x + 0.00005
  {
    var y := x * 10000.0 + 0.5;
    assert y - 1.0 < y.Floor as real <= y;
  }

  predicate Close(x: real, y: real, error: real) {
    y - error <= x <= y + error
  }

  /** A sound product in its market: rating 0..5, percentages 0..100, price and sales within the market's. */
  predicate Sound(a: Attributes, m: Market) {
    && a.rating.Some? && 0.0 <= a.rating.value <= 5.0
    && a.sales.Some? && 0 <= a.sales.value <= m.maxSales && m.maxSales > 0
    && a.discount.Some? && 0.0 <= a.discount.value <= 100.0
    && a.price.Some? && m.minPrice <= a.price.value <= m.maxPrice && m.minPrice < m.maxPrice
    && (a.commission.Some? ==> 0.0 <= a.commission.value <= 100.0)
  }

  lemma RatioBounds(x: real, y: real)
    requires 0.0 <= x <= y && y > 0.0
    ensures 0.0 <= x / y <= 1.0
  {
  }

  lemma FactorClose(n: real, weight: real, missing: bool, exact: real)
    requires 0.0 <= n && weight >= 0.0 && exact == n * weight * 100.0
    ensures Close(MakeFactor(n, weight, missing).contribution, exact, 0.00005)
    ensures Close(MakeFactor(n, weight, missing).normalized, n, 0.00005)
  {
    assert 0.0 <= n * weight;
    QuantizeClose(n * weight * 100.0);
    QuantizeClose(n);
  }

  /** The weighted sum that the total rounds. */
  function Exact(log: nat -> real, a: Attributes, m: Market): real
    requires Sound(a, m)
  {
    6.0 * a.rating.value + (if log(m.maxSales) == 0.0 then 0.0 else 20.0 * (log(a.sales.value) / log(m.maxSales)))
    + 0.15 * a.discount.value + (if a.commission.Some? then 0.25 * a.commission.value else 0.0)
    + 10.0 * ((m.maxPrice - a.price.value) / (m.maxPrice - m.minPrice))
  }

  /**
   * A sound product earns, up to rounding, six points per rating star, 0.15 per percent of discount, 0.25 per
   * percent of commission, ten for the lowest price down to none for the highest, and twenty times its share
   * of the top sales on the logarithmic scale. The total is within 0.00025 of the exact sum.
   */
  lemma {:induction false} ScoreMeasures(log: nat -> real, a: Attributes, m: Market)
    requires LogLike(log) && Sound(a, m)
    ensures var s := Calculate(log, a, m);
      var rating, discount := 6.0 * a.rating.value, 0.15 * a.discount.value;
      var commission := if a.commission.Some? then 0.25 * a.commission.value else 0.0;
      var price := 10.0 * ((m.maxPrice - a.price.value) / (m.maxPrice - m.minPrice));
      var orders := if log(m.maxSales) == 0.0 then 0.0 else 20.0 * (log(a.sales.value) / log(m.maxSales));
      && Close(s.rating.contribution, rating, 0.00005) && Close(s.discount.contribution, discount, 0.00005)
      && Close(s.commission.contribution, commission, 0.00005) && Close(s.price.contribution, price, 0.00005)
      && Close(s.orders.contribution, orders, 0.00005)
      && Close(s.total, Exact(log, a, m), 0.00025)
  {
    hide Quantize, MakeFactor, Clamp;
    var s := Calculate(log, a, m);
    var share := (m.maxPrice - a.price.value) / (m.maxPrice - m.minPrice);
    RatioBounds(m.maxPrice - a.price.value, m.maxPrice - m.minPrice);
    assert log(0) <= log(a.sales.value) <= log(m.maxSales) && log(1) <= log(m.maxSales);
    var top := log(a.sales.value) / log(m.maxSales);
    RatioBounds(log(a.sales.value), log(m.maxSales));
    ClampInside(a.rating.value / 5.0);
    ClampInside(a.discount.value / 100.0);
    ClampInside(share);
    ClampInside(top);
    var commission := if a.commission.Some? then a.commission.value / 100.0 else 0.0;
    ClampInside(commission);
    FactorClose(a.rating.value / 5.0, RATING_WEIGHT, false, 6.0 * a.rating.value);
    FactorClose(a.discount.value / 100.0, DISCOUNT_WEIGHT, false, 0.15 * a.discount.value);
    FactorClose(share, PRICE_WEIGHT, false, 10.0 * share);
    FactorClose(top, ORDERS_WEIGHT, false, 20.0 * top);
    FactorClose(commission, COMMISSION_WEIGHT, a.commission.None?, 25.0 * commission);
    TotalIsSum(log, a, m);
  }

  lemma ClampInside(x: real)
    ensures 0.0 <= x <= 1.0 ==> Clamp(x) == x
  {
  }

  /** A missing or worthless attribute earns nothing and is reported missing only if it is; a full one earns its weight. */
  lemma {:induction false} ScoreEnds(log: nat -> real, a: Attributes, m: Market)
    ensures var s := Calculate(log, a, m);
      && s.rating.missing == a.rating.None? && s.orders.missing == a.sales.None? && s.discount.missing == a.discount.None?
      && s.price.missing == a.price.None? && s.commission.missing == a.commission.None?
      && (a.rating.None? || a.rating.value <= 0.0 ==> s.rating.contribution == 0.0)
      && (a.rating.Some? && a.rating.value >= 5.0 ==> s.rating.contribution == 30.0)
      && (a.sales.None? || m.maxSales <= 0 ==> s.orders.contribution == 0.0)
      && (a.discount.None? || a.discount.value <= 0.0 ==> s.discount.contribution == 0.0)
      && (a.discount.Some? && a.discount.value >= 100.0 ==> s.discount.contribution == 15.0)
      && (a.price.None? ==> s.price.contribution == 0.0)
      && (a.price.Some? && m.maxPrice == m.minPrice ==> s.price.contribution == 10.0)
      && (a.commission.None? || a.commission.value <= 0.0 ==> s.commission.contribution == 0.0)
      && (a.commission.Some? && a.commission.value >= 100.0 ==> s.commission.contribution == 25.0)
  {
    hide Quantize;
    QuantizeFixed(0);
    QuantizeFixed(300000);
    QuantizeFixed(150000);
    QuantizeFixed(100000);
    QuantizeFixed(250000);
  }
}
