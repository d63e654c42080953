/** The markets analytics (apps/web/lib/markets/analytics.ts): the spread of
 *  two price series joined on their date, the arbitrage z-score test, the
 *  parametric and historical value at risk, the stress test and the emission
 *  estimate. Reals are exact; `Math.sqrt` is a parameter. */
module MarketsAnalytics {
  import opened Strings
  import opened Seqs
  import opened Sorting
  import opened MarketTypes

  datatype SpreadPoint = SpreadPoint(ts: string, value: real)

  function Abs(x: real): real {
    if x < 0.0 then -x else x
  }

  // ------------------------------------------------------------ spreads

  /** `ts.split('T')[0]`: the date part of a timestamp. */
  function DateKey(ts: string): (r: string)
    ensures 'T' !in r && StartsWith(ts, r)
  {
    BeforeIsFirstPart(ts, 'T');
    Split(ts, 'T')[0]
  }

  /** `new Map(seriesB.map(p => [dateKey, p.price]))`: every date of the
   *  series, with the price of its last point on that date. */
  function DatePrices(b: seq<PricePoint>): (r: map<string, real>)
    ensures forall k :: k in r <==> exists i :: 0 <= i < |b| && DateKey(b[i].ts) == k
    decreases |b|
  {
    if |b| == 0 then map[]
    else
      var n := |b| - 1;
      var r := DatePrices(b[..n]);
      assert forall i :: 0 <= i < n ==> b[..n][i] == b[i];
      r[DateKey(b[n].ts) := b[n].price]
  }

  /** A point of series A has a partner in B. */
  function Quoted(prices: map<string, real>): PricePoint -> bool {
    (p: PricePoint) => DateKey(p.ts) in prices
  }

  /** `(pA.price * multiplierA) - (priceB * multiplierB)`. */
  function SpreadValue(priceA: real, multiplierA: real, priceB: real, multiplierB: real): real {
    priceA * multiplierA - priceB * multiplierB
  }

  /** The spread, as `computeSpread`'s loop builds it point by point over
   *  series A. */
  function Spread(a: seq<PricePoint>, prices: map<string, real>, multiplierA: real, multiplierB: real)
    : (r: seq<SpreadPoint>)
    decreases |a|
  {
    if |a| == 0 then []
    else
      var n := |a| - 1;
      var rest := Spread(a[..n], prices, multiplierA, multiplierB);
      var key := DateKey(a[n].ts);
      if key in prices then rest + [SpreadPoint(a[n].ts, SpreadValue(a[n].price, multiplierA, prices[key], multiplierB))]
      else rest
  }

  lemma SpreadStep(a: seq<PricePoint>, i: nat, prices: map<string, real>, multiplierA: real, multiplierB: real)
    requires i < |a|
    ensures Spread(a[..i + 1], prices, multiplierA, multiplierB) ==
      var rest := Spread(a[..i], prices, multiplierA, multiplierB);
      var key := DateKey(a[i].ts);
      if key in prices then rest + [SpreadPoint(a[i].ts, SpreadValue(a[i].price, multiplierA, prices[key], multiplierB))]
      else rest
  {
    assert a[..i + 1][..i] == a[..i];
    assert a[..i + 1][i] == a[i];
  }

  /** `computeSpread`: for each point of A whose date B quotes, the point's
   *  time and `priceA * multiplierA - priceB * multiplierB`. */
  method ComputeSpread(seriesA: seq<PricePoint>, seriesB: seq<PricePoint>, multiplierA: real, multiplierB: real)
    returns (spread: seq<SpreadPoint>)
    ensures spread == Spread(seriesA, DatePrices(seriesB), multiplierA, multiplierB)
  {
    var mapB := DatePrices(seriesB);
    spread := [];
    var i := 0;
    while i < |seriesA|
      invariant 0 <= i <= |seriesA|
      invariant spread == Spread(seriesA[..i], mapB, multiplierA, multiplierB)
    {
      SpreadStep(seriesA, i, mapB, multiplierA, multiplierB);
      var key := DateKey(seriesA[i].ts);
      if key in mapB {
        var priceB := mapB[key];
        spread := spread + [SpreadPoint(seriesA[i].ts, SpreadValue(seriesA[i].price, multiplierA, priceB, multiplierB))];
      }
      i := i + 1;
    }
    assert seriesA[..|seriesA|] == seriesA;
  }

  /** The spread point of one quoted point of A. */
  function SpreadOf(p: PricePoint, prices: map<string, real>, multiplierA: real, multiplierB: real): SpreadPoint
    requires DateKey(p.ts) in prices
  {
    SpreadPoint(p.ts, SpreadValue(p.price, multiplierA, prices[DateKey(p.ts)], multiplierB))
  }

  /** One more point of A: a quoted point adds itself to the filtered points
   *  and its spread point to the spread; any other point adds nothing. */
  lemma SpreadFilterStep(a: seq<PricePoint>, prices: map<string, real>, multiplierA: real, multiplierB: real)
    requires |a| > 0
    ensures var n := |a| - 1;
      var p := Quoted(prices);
      && (p(a[n]) ==> Filter(a, p) == Filter(a[..n], p) + [a[n]]
                      && Spread(a, prices, multiplierA, multiplierB)
                         == Spread(a[..n], prices, multiplierA, multiplierB) + [SpreadOf(a[n], prices, multiplierA, multiplierB)])
      && (!p(a[n]) ==> Filter(a, p) == Filter(a[..n], p)
                       && Spread(a, prices, multiplierA, multiplierB) == Spread(a[..n], prices, multiplierA, multiplierB))
  {
    FilterInit(a, Quoted(prices));
  }

  /** The spread is exactly the quoted points of A, in A's order, each mapped
   *  to its spread point. */
  lemma {:induction false} SpreadIsQuotedPoints(a: seq<PricePoint>, prices: map<string, real>,
                                               multiplierA: real, multiplierB: real)
    ensures var q := Filter(a, Quoted(prices));
      var r := Spread(a, prices, multiplierA, multiplierB);
      && |r| == |q|
      && forall i :: 0 <= i < |r| ==> r[i] == SpreadOf(q[i], prices, multiplierA, multiplierB)
    decreases |a|
  {
    if |a| > 0 {
      var n := |a| - 1;
      SpreadIsQuotedPoints(a[..n], prices, multiplierA, multiplierB);
      SpreadFilterStep(a, prices, multiplierA, multiplierB);
      if Quoted(prices)(a[n]) {
        SpreadPointsSnoc(Filter(a[..n], Quoted(prices)), Spread(a[..n], prices, multiplierA, multiplierB),
                         a[n], prices, multiplierA, multiplierB);
      }
    }
  }

  /** Appending a quoted point and its spread point keeps the two sequences
   *  aligned. */
  lemma SpreadPointsSnoc(q: seq<PricePoint>, r: seq<SpreadPoint>, x: PricePoint,
                         prices: map<string, real>, multiplierA: real, multiplierB: real)
    requires DateKey(x.ts) in prices
    requires forall i :: 0 <= i < |q| ==> DateKey(q[i].ts) in prices
    requires |r| == |q|
    requires forall i :: 0 <= i < |r| ==> r[i] == SpreadOf(q[i], prices, multiplierA, multiplierB)
    ensures var q' := q + [x];
      var r' := r + [SpreadOf(x, prices, multiplierA, multiplierB)];
      && |r'| == |q'|
      && forall i :: 0 <= i < |r'| ==> r'[i] == SpreadOf(q'[i], prices, multiplierA, multiplierB)
  {
  }

  /** The spread is no longer than A and each of its times is the time of a
   *  point of A. */
  lemma SpreadKeepsSeriesATimes(a: seq<PricePoint>, b: seq<PricePoint>, multiplierA: real, multiplierB: real)
    ensures var r := Spread(a, DatePrices(b), multiplierA, multiplierB);
      |r| <= |a| && forall i :: 0 <= i < |r| ==> exists j :: 0 <= j < |a| && a[j].ts == r[i].ts
  {
    var prices := DatePrices(b);
    SpreadIsQuotedPoints(a, prices, multiplierA, multiplierB);
    var q := Filter(a, Quoted(prices));
    var r := Spread(a, prices, multiplierA, multiplierB);
    forall i | 0 <= i < |r| ensures exists j :: 0 <= j < |a| && a[j].ts == r[i].ts {
      assert q[i] in a;
    }
  }

  /** When several points of B fall on one date, the last one sets the price
   *  of that date. */
  lemma {:induction false} LastPointOfDateWins(b: seq<PricePoint>, i: nat)
    requires i < |b|
    requires forall j :: i < j < |b| ==> DateKey(b[j].ts) != DateKey(b[i].ts)
    ensures DateKey(b[i].ts) in DatePrices(b) && DatePrices(b)[DateKey(b[i].ts)] == b[i].price
    decreases |b|
  {
    var n := |b| - 1;
    DatePricesLast(b);
    if i < n {
      var front := b[..n];
      assert front[i] == b[i];
      forall j | i < j < n ensures DateKey(front[j].ts) != DateKey(front[i].ts) {
        assert front[j] == b[j];
      }
      LastPointOfDateWins(front, i);
      assert DateKey(b[n].ts) != DateKey(b[i].ts);
    }
  }

  lemma DatePricesLast(b: seq<PricePoint>)
    requires |b| > 0
    ensures DatePrices(b) == DatePrices(b[..|b| - 1])[DateKey(b[|b| - 1].ts) := b[|b| - 1].price]
  {
  }

  /** `detectArbitrage`: the z-score of the current spread exceeds the
   *  threshold. A zero deviation gives an infinite z-score unless the spread
   *  sits on the mean, where `0 / 0` is not a number and the test fails. */
  function DetectArbitrage(currentSpread: real, historicalMean: real, historicalStd: real, thresholdZ: real)
    : (r: bool)
    ensures historicalStd == 0.0 ==> (r <==> currentSpread != historicalMean)
  {
    if historicalStd == 0.0 then currentSpread != historicalMean
    else Abs((currentSpread - historicalMean) / historicalStd) > thresholdZ
  }

  /** With a deviation, the test compares the distance from the mean with
   *  `threshold` deviations. */
  lemma ArbitrageIsDistanceTest(currentSpread: real, historicalMean: real, historicalStd: real, thresholdZ: real)
    requires historicalStd != 0.0
    ensures DetectArbitrage(currentSpread, historicalMean, historicalStd, thresholdZ)
            <==> Abs(currentSpread - historicalMean) > thresholdZ * Abs(historicalStd)
  {
    var d := currentSpread - historicalMean;
    var z := d / historicalStd;
    assert d == z * historicalStd;
    assert Abs(d) == Abs(z) * Abs(historicalStd);
  }

  // ------------------------------------------------------------------ risk

  /** The normal quantile the parametric VaR uses. */
  function ZScore(confidenceLevel: real): (r: real)
    ensures confidenceLevel == 0.95 ==> r == 1.645
    ensures confidenceLevel == 0.99 ==> r == 2.326
    ensures confidenceLevel != 0.95 && confidenceLevel != 0.99 ==> r == 1.96
  {
    if confidenceLevel == 0.95 then 1.645 else if confidenceLevel == 0.99 then 2.326 else 1.96
  }

  /** `computeParametricVaR`: value times quantile times volatility times
   *  the square root of the horizon. */
  function ParametricVaR(positionValue: real, volatility: real, confidenceLevel: real, days: real,
                         sqrt: real -> real): real
  {
    positionValue * ZScore(confidenceLevel) * volatility * sqrt(days)
  }

  /** The 99% VaR of an exposure is the largest; any level other than 95% and
   *  99% (0.90 included) falls back to 1.96 and so lies above the 95% VaR. */
  lemma ParametricVaROrdered(positionValue: real, volatility: real, days: real, sqrt: real -> real, other: real)
    requires positionValue * volatility * sqrt(days) > 0.0
    requires other != 0.95 && other != 0.99
    ensures ParametricVaR(positionValue, volatility, 0.99, days, sqrt)
            > ParametricVaR(positionValue, volatility, other, days, sqrt)
            > ParametricVaR(positionValue, volatility, 0.95, days, sqrt)
  {
    var e := positionValue * volatility * sqrt(days);
    assert ParametricVaR(positionValue, volatility, 0.99, days, sqrt) == 2.326 * e;
    assert ParametricVaR(positionValue, volatility, 0.95, days, sqrt) == 1.645 * e;
    assert ParametricVaR(positionValue, volatility, other, days, sqrt) == 1.96 * e;
  }

  /** `Number(x.toFixed(4))`: the nearest multiple of 0.0001, halves rounded
   *  away from zero. */
  function Round4(x: real): (r: real)
    ensures Abs(r - x) <= 0.00005
  {
    if x >= 0.0 then ((x * 10000.0 + 0.5).Floor as real) / 10000.0
    else -((((-x) * 10000.0 + 0.5).Floor as real) / 10000.0)
  }

  /** `Math.max(0, Math.min(Math.floor(alpha * n), n - 1))`. */
  function VarIndex(alpha: real, n: nat): (r: nat)
    requires n > 0
    ensures r < n
    ensures 0 <= (alpha * n as real).Floor < n ==> r == (alpha * n as real).Floor
  {
    var index := (alpha * n as real).Floor;
    if index < 0 then 0 else if index > n - 1 then n - 1 else index
  }

  predicate Ascending(a: real, b: real) {
    a <= b
  }

  lemma AscendingIsTotalPreorder()
    ensures TotalPreorder(Ascending)
  {
  }

  /** `computeHistoricalVaR`: 0 for no returns, else the loss at the clamped
   *  `alpha * n` position of an ascending copy of the returns. */
  function HistoricalVaR(samples: seq<real>, confidenceLevel: real): (r: real)
    ensures |samples| == 0 ==> r == 0.0
    ensures |samples| > 0 ==> -r in samples
  {
    if |samples| == 0 then 0.0
    else
      AscendingIsTotalPreorder();
      var sorted := SortBy(samples, Ascending);
      var k := VarIndex(Round4(1.0 - confidenceLevel), |sorted|);
      assert sorted[k] in multiset(samples);
      -sorted[k]
  }

  function Below(v: real): real -> bool {
    (x: real) => x < v
  }

  function AtMost(v: real): real -> bool {
    (x: real) => x <= v
  }

  /** In an ascending list, at most `k` elements lie below the one at `k`
   *  and at least `k + 1` are at most it. */
  lemma {:induction false} SortedRank(s: seq<real>, k: nat)
    requires k < |s| && forall i, j :: 0 <= i < j < |s| ==> s[i] <= s[j]
    ensures Count(s, Below(s[k])) <= k
    ensures Count(s, AtMost(s[k])) >= k + 1
  {
    var v := s[k];
    var below, atMost := Below(v), AtMost(v);
    forall i | k <= i < |s| ensures !below(s[i]) {
      if k < i {
        assert s[k] <= s[i];
      }
    }
    CountOnlyBefore(s, below, k);
    forall i | 0 <= i < k + 1 ensures atMost(s[i]) {
      if i < k {
        assert s[i] <= s[k];
      }
    }
    CountAllBefore(s, atMost, k + 1);
  }

  /** The historical VaR is an order statistic of the returns, whatever their
   *  order: at most `k` returns are worse than the loss it reports and at
   *  least `k + 1` are no better, `k` being the clamped index. */
  lemma {:induction false} HistoricalVaRIsOrderStatistic(samples: seq<real>, confidenceLevel: real)
    requires |samples| > 0
    ensures var v := -HistoricalVaR(samples, confidenceLevel);
      var k := VarIndex(Round4(1.0 - confidenceLevel), |samples|);
      Count(samples, Below(v)) <= k && Count(samples, AtMost(v)) >= k + 1
  {
    AscendingIsTotalPreorder();
    var sorted := SortBy(samples, Ascending);
    var k := VarIndex(Round4(1.0 - confidenceLevel), |sorted|);
    var v := sorted[k];
    assert -HistoricalVaR(samples, confidenceLevel) == v;
    assert forall i, j :: 0 <= i < j < |sorted| ==> Ascending(sorted[i], sorted[j]);
    SortedRank(sorted, k);
    CountPermutation(sorted, samples, Below(v));
    CountPermutation(sorted, samples, AtMost(v));
  }

  /** `runStressTest`: the value after a relative shock. */
  function StressTest(positionValue: real, shockPercent: real): real {
    positionValue * (1.0 + shockPercent)
  }

  /** A shock of zero keeps the value, a shock of -1 wipes it out, and the loss
   *  scales with the shock. */
  lemma StressTestShape(positionValue: real, shockPercent: real)
    ensures StressTest(positionValue, 0.0) == positionValue
    ensures StressTest(positionValue, -1.0) == 0.0
    ensures StressTest(positionValue, shockPercent) - positionValue == positionValue * shockPercent
  {
  }

  // ------------------------------------------------------------------- ESG

  /** `estimateEmissions`: the absolute quantity times the factor; a unit
   *  mismatch is only logged. */
  function EstimateEmissions(position: Position, factor: EmissionFactor): (r: real)
    ensures factor.factor >= 0.0 ==> r >= 0.0
  {
    Abs(position.qty) * factor.factor
  }

  /** A short position emits as much as the long one of the same size. */
  lemma ShortEmitsAsLong(position: Position, factor: EmissionFactor)
    ensures EstimateEmissions(position.(qty := -position.qty), factor) == EstimateEmissions(position, factor)
  {
  }
}
