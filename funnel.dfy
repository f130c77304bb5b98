/**
 * The funnel revenue projection: monthly traffic passes through five
 * conversion stages (signup, profile, search, limit, purchase); every buyer
 * consumes a number of credits, of which the scenario's free and extra
 * credits are not billed; the paid credits times the average price are the
 * month's revenue. Traffic then grows by a fixed rate for the next month.
 *
 * All quantities are exact reals; the source computes them in floating point.
 */
module Funnel {

  /** The five conversion rates, each a fraction of the previous stage. */
  datatype Conversion = Conversion(
    signup: real, profile: real, search: real, limit: real, purchase: real)

  /** One monetization scenario of the comparison. */
  datatype Scenario = Scenario(
    name: string,
    avgPrice: real,
    freeCredits: int,
    extraCredits: int,
    conversion: Conversion)

  /** The settings shared by all scenarios. */
  datatype Settings = Settings(baseTraffic: real, growthRate: real, searchesPerUser: real)

  /** What the projection of one scenario yields: its monthly revenue series and annual total. */
  datatype Projection = Projection(name: string, series: seq<real>, total: real)

  predicate RatesNonNegative(c: Conversion)
  {
    c.signup >= 0.0 && c.profile >= 0.0 && c.search >= 0.0 && c.limit >= 0.0 && c.purchase >= 0.0
  }

  /** Some stage of the funnel lets nobody through. */
  predicate SomeStageZero(c: Conversion)
  {
    c.signup == 0.0 || c.profile == 0.0 || c.search == 0.0 || c.limit == 0.0 || c.purchase == 0.0
  }

  /** Credits per buyer that are not billed: free plus extra credits. */
  function Allowance(s: Scenario): real
  {
    (s.freeCredits + s.extraCredits) as real
  }

  /** Fraction of the traffic that ends up buying: the product of the five rates. */
  function FunnelRate(c: Conversion): real
  {
    c.signup * c.profile * c.search * c.limit * c.purchase
  }

  /** x^k for a natural exponent. */
  function Pow(x: real, k: nat): real
  {
    if k == 0 then 1.0 else x * Pow(x, k - 1)
  }

  /** Closed-form traffic of month k + 1 (k counted from 0). */
  function Traffic(base: real, growth: real, k: nat): real
  {
    base * Pow(1.0 + growth, k)
  }

  /** Sum of a sequence, accumulated from the front as a running total does. */
  function Sum(s: seq<real>): real
  {
    if |s| == 0 then 0.0 else Sum(s[..|s| - 1]) + s[|s| - 1]
  }

  /** Buyers of one month, computed stage by stage from the month's traffic. */
  function Buyers(traffic: real, c: Conversion): (b: real)
    ensures SomeStageZero(c) ==> b == 0.0
    ensures traffic >= 0.0 && RatesNonNegative(c) ==> b >= 0.0
  {
    var signups := traffic * c.signup;
    var profiles := signups * c.profile;
    var searches := profiles * c.search;
    var limited := searches * c.limit;
    limited * c.purchase
  }

  /**
   * Credits the buyers pay for: their consumption minus their free allowance,
   * clamped at zero.
   */
  function PaidCredits(buyers: real, searchesPerUser: real, allowance: real): (p: real)
    ensures p >= 0.0
    ensures p >= buyers * searchesPerUser - buyers * allowance
    ensures p == 0.0 || p == buyers * searchesPerUser - buyers * allowance
    ensures p == 0.0 <==> buyers * searchesPerUser <= buyers * allowance
  {
    var totalCredits := buyers * searchesPerUser;
    var free := buyers * allowance;
    var net := totalCredits - free;
    if 0.0 > net then 0.0 else net
  }

  /** Revenue of one month of scenario s at the given traffic. */
  function PeriodRevenue(traffic: real, s: Scenario, searchesPerUser: real): (r: real)
    ensures s.avgPrice >= 0.0 ==> r >= 0.0
    ensures SomeStageZero(s.conversion) ==> r == 0.0
    ensures Buyers(traffic, s.conversion) >= 0.0 && Allowance(s) >= searchesPerUser ==> r == 0.0
    ensures s.avgPrice != 0.0 ==>
      (r == 0.0 <==> Buyers(traffic, s.conversion) * searchesPerUser
                     <= Buyers(traffic, s.conversion) * Allowance(s))
  {
    var buyers := Buyers(traffic, s.conversion);
    var paid := PaidCredits(buyers, searchesPerUser, Allowance(s));
    paid * s.avgPrice
  }

  /**
   * The revenue series of n months starting at the given traffic: the first
   * month is billed at that traffic, and the traffic grows by (1 + growth)
   * only afterwards.
   */
  function Series(traffic: real, growth: real, searchesPerUser: real, s: Scenario, n: nat): (r: seq<real>)
    ensures |r| == n
    decreases n
  {
    if n == 0 then []
    else [PeriodRevenue(traffic, s, searchesPerUser)]
         + Series(traffic * (1.0 + growth), growth, searchesPerUser, s, n - 1)
  }

  /** The projection of one scenario over the given number of months. */
  function ProjectionOf(st: Settings, s: Scenario, months: nat): (p: Projection)
    ensures p.name == s.name && |p.series| == months
  {
    var series := Series(st.baseTraffic, st.growthRate, st.searchesPerUser, s, months);
    Projection(s.name, series, Sum(series))
  }

  // ---------------------------------------------------------------------------
  // Properties of one month

  /** Buyers are the traffic times the product of the five rates. */
  lemma BuyersLinear(traffic: real, c: Conversion)
    ensures Buyers(traffic, c) == traffic * FunnelRate(c)
  {
  }

  /**
   * A reference formula for one month's revenue:
   * price * max(traffic * funnel rate * (credits per user - allowance), 0).
   */
  lemma PeriodRevenueClosedForm(traffic: real, s: Scenario, searchesPerUser: real)
    ensures
      var net := traffic * FunnelRate(s.conversion) * (searchesPerUser - Allowance(s));
      PeriodRevenue(traffic, s, searchesPerUser) == (if net > 0.0 then net else 0.0) * s.avgPrice
  {
    BuyersLinear(traffic, s.conversion);
  }

  /** With non-negative rates and price, more traffic never yields less revenue. */
  lemma PeriodRevenueMonotone(t1: real, t2: real, s: Scenario, searchesPerUser: real)
    requires 0.0 <= t1 <= t2
    requires RatesNonNegative(s.conversion) && s.avgPrice >= 0.0
    ensures PeriodRevenue(t1, s, searchesPerUser) <= PeriodRevenue(t2, s, searchesPerUser)
  {
  }

  // ---------------------------------------------------------------------------
  // Properties of the series

  /**
   * Closed-form traffic: month k + 1 (k counted from 0) is billed at
   * traffic * (1 + growth)^k, so the first month uses the traffic unmodified.
   */
  lemma {:induction false} SeriesAt(traffic: real, growth: real, searchesPerUser: real, s: Scenario, n: nat, k: nat)
    requires k < n
    ensures Series(traffic, growth, searchesPerUser, s, n)[k]
            == PeriodRevenue(Traffic(traffic, growth, k), s, searchesPerUser)
    decreases k
  {
    if k == 0 {
      assert Traffic(traffic, growth, 0) == traffic;
    } else {
      var next := traffic * (1.0 + growth);
      SeriesAt(next, growth, searchesPerUser, s, n - 1, k - 1);
      assert Series(traffic, growth, searchesPerUser, s, n)[k] == Series(next, growth, searchesPerUser, s, n - 1)[k - 1];
      TrafficStep(traffic, growth, k);
    }
  }

  /** Growing the traffic once and then k - 1 more times is growing it k times. */
  lemma TrafficStep(base: real, growth: real, k: nat)
    requires k > 0
    ensures Traffic(base * (1.0 + growth), growth, k - 1) == Traffic(base, growth, k)
  {
  }

  /** The loop's step: emitting the current month leaves the rest of the series at grown traffic. */
  lemma SeriesStep(done: seq<real>, traffic: real, growth: real, searchesPerUser: real, s: Scenario, n: nat)
    requires n > 0
    ensures done + Series(traffic, growth, searchesPerUser, s, n)
            == (done + [PeriodRevenue(traffic, s, searchesPerUser)])
               + Series(traffic * (1.0 + growth), growth, searchesPerUser, s, n - 1)
  {
  }

  /** Every month's revenue is non-negative when the price is. */
  lemma {:induction false} SeriesNonNegative(traffic: real, growth: real, searchesPerUser: real, s: Scenario, n: nat)
    requires s.avgPrice >= 0.0
    ensures forall k :: 0 <= k < n ==> Series(traffic, growth, searchesPerUser, s, n)[k] >= 0.0
    decreases n
  {
    if n > 0 {
      SeriesNonNegative(traffic * (1.0 + growth), growth, searchesPerUser, s, n - 1);
    }
  }

  /** A sum of non-negative values is non-negative. */
  lemma {:induction false} SumNonNegative(xs: seq<real>)
    requires forall k :: 0 <= k < |xs| ==> xs[k] >= 0.0
    ensures Sum(xs) >= 0.0
  {
    if |xs| > 0 {
      SumNonNegative(xs[..|xs| - 1]);
    }
  }

  /** A sum of zeros is zero. */
  lemma {:induction false} SumZero(xs: seq<real>)
    requires forall k :: 0 <= k < |xs| ==> xs[k] == 0.0
    ensures Sum(xs) == 0.0
  {
    if |xs| > 0 {
      SumZero(xs[..|xs| - 1]);
    }
  }

  /** Appending a value adds it to the sum, as the running total does. */
  lemma SumSnoc(xs: seq<real>, x: real)
    ensures Sum(xs + [x]) == Sum(xs) + x
  {
  }

  /** The annual total is non-negative when the price is. */
  lemma TotalNonNegative(st: Settings, s: Scenario, months: nat)
    requires s.avgPrice >= 0.0
    ensures ProjectionOf(st, s, months).total >= 0.0
  {
    SeriesNonNegative(st.baseTraffic, st.growthRate, st.searchesPerUser, s, months);
    SumNonNegative(ProjectionOf(st, s, months).series);
  }

  /**
   * Free-credit saturation: when the allowance covers every credit a buyer
   * consumes and no month has a negative number of buyers, nothing is billed
   * in any month.
   */
  lemma SeriesSaturated(traffic: real, growth: real, searchesPerUser: real, s: Scenario, n: nat)
    requires forall k :: 0 <= k < n ==> Buyers(Traffic(traffic, growth, k), s.conversion) >= 0.0
    requires Allowance(s) >= searchesPerUser
    ensures forall k :: 0 <= k < n ==> Series(traffic, growth, searchesPerUser, s, n)[k] == 0.0
    ensures Sum(Series(traffic, growth, searchesPerUser, s, n)) == 0.0
  {
    forall k | 0 <= k < n
      ensures Series(traffic, growth, searchesPerUser, s, n)[k] == 0.0
    {
      SeriesAt(traffic, growth, searchesPerUser, s, n, k);
    }
    SumZero(Series(traffic, growth, searchesPerUser, s, n));
  }

  /** Traffic stays non-negative while growth is at least -100%. */
  lemma {:induction false} TrafficNonNegative(base: real, growth: real, k: nat)
    requires base >= 0.0 && growth >= -1.0
    ensures Traffic(base, growth, k) >= 0.0
    decreases k
  {
    if k > 0 {
      TrafficNonNegative(base * (1.0 + growth), growth, k - 1);
      TrafficStep(base, growth, k);
    }
  }

  /**
   * Saturation for non-negative traffic and rates and growth of at least
   * -100%: these keep every month's buyers non-negative.
   */
  lemma SeriesSaturatedFunnel(traffic: real, growth: real, searchesPerUser: real, s: Scenario, n: nat)
    requires traffic >= 0.0 && growth >= -1.0 && RatesNonNegative(s.conversion)
    requires Allowance(s) >= searchesPerUser
    ensures forall k :: 0 <= k < n ==> Series(traffic, growth, searchesPerUser, s, n)[k] == 0.0
    ensures Sum(Series(traffic, growth, searchesPerUser, s, n)) == 0.0
  {
    forall k | 0 <= k < n
      ensures Buyers(Traffic(traffic, growth, k), s.conversion) >= 0.0
    {
      TrafficNonNegative(traffic, growth, k);
    }
    SeriesSaturated(traffic, growth, searchesPerUser, s, n);
  }

  /** Funnel halt: a stage with rate zero makes every month's revenue, and the total, zero. */
  lemma {:induction false} SeriesHalted(traffic: real, growth: real, searchesPerUser: real, s: Scenario, n: nat)
    requires SomeStageZero(s.conversion)
    ensures forall k :: 0 <= k < n ==> Series(traffic, growth, searchesPerUser, s, n)[k] == 0.0
    ensures Sum(Series(traffic, growth, searchesPerUser, s, n)) == 0.0
    decreases n
  {
    if n > 0 {
      SeriesHalted(traffic * (1.0 + growth), growth, searchesPerUser, s, n - 1);
    }
    SumZero(Series(traffic, growth, searchesPerUser, s, n));
  }

  /**
   * With non-negative growth, traffic, rates and price, successive months'
   * revenues never decrease.
   */
  lemma {:induction false} SeriesNonDecreasing(traffic: real, growth: real, searchesPerUser: real, s: Scenario, n: nat)
    requires traffic >= 0.0 && growth >= 0.0
    requires RatesNonNegative(s.conversion) && s.avgPrice >= 0.0
    ensures forall k :: 0 <= k < n - 1 ==>
      Series(traffic, growth, searchesPerUser, s, n)[k] <= Series(traffic, growth, searchesPerUser, s, n)[k + 1]
    decreases n
  {
    if n > 1 {
      var next := traffic * (1.0 + growth);
      assert next >= traffic;
      PeriodRevenueMonotone(traffic, next, s, searchesPerUser);
      SeriesNonDecreasing(next, growth, searchesPerUser, s, n - 1);
      var r := Series(traffic, growth, searchesPerUser, s, n);
      var rest := Series(next, growth, searchesPerUser, s, n - 1);
      assert r[0] <= rest[0];
      forall k | 0 <= k < n - 1
        ensures r[k] <= r[k + 1]
      {
        if k > 0 {
          assert r[k] == rest[k - 1] && r[k + 1] == rest[k];
        }
      }
    }
  }

  // ---------------------------------------------------------------------------
  // The projection loops

  /**
   * The per-scenario loop: traffic and the total start afresh, each month's
   * revenue is appended and added to the total, and only then does traffic
   * grow.
   */
  method Project(st: Settings, s: Scenario, months: nat) returns (p: Projection)
    ensures p == ProjectionOf(st, s, months)
    ensures p.name == s.name && |p.series| == months && p.total == Sum(p.series)
    ensures months > 0 ==> p.series[0] == PeriodRevenue(st.baseTraffic, s, st.searchesPerUser)
    ensures forall k :: 0 <= k < months ==>
      p.series[k] == PeriodRevenue(Traffic(st.baseTraffic, st.growthRate, k), s, st.searchesPerUser)
  {
    var growthRate, searchesPerUser := st.growthRate, st.searchesPerUser;
    var revenueSeries: seq<real> := [];
    var traffic := st.baseTraffic;
    var totalRevenue := 0.0;
    var i := 0;
    ghost var spec := Series(st.baseTraffic, growthRate, searchesPerUser, s, months);
    while i < months
      invariant 0 <= i <= months
      invariant |revenueSeries| == i
      invariant revenueSeries + Series(traffic, growthRate, searchesPerUser, s, months - i) == spec
      invariant totalRevenue == Sum(revenueSeries)
    {
      var revenue := PeriodRevenue(traffic, s, searchesPerUser);
      SumSnoc(revenueSeries, revenue);
      SeriesStep(revenueSeries, traffic, growthRate, searchesPerUser, s, months - i);
      revenueSeries := revenueSeries + [revenue];

      totalRevenue := totalRevenue + revenue;
      traffic := traffic * (1.0 + growthRate);
      i := i + 1;
    }
    assert revenueSeries == spec;
    forall k | 0 <= k < months
      ensures spec[k] == PeriodRevenue(Traffic(st.baseTraffic, growthRate, k), s, searchesPerUser)
    {
      SeriesAt(st.baseTraffic, growthRate, searchesPerUser, s, months, k);
    }
    p := Projection(s.name, revenueSeries, totalRevenue);
  }

  /**
   * The outer loop over the scenarios, in order. Each result depends only on
   * its own scenario and the shared settings.
   */
  method ProjectAll(st: Settings, scenarios: seq<Scenario>, months: nat) returns (results: seq<Projection>)
    ensures |results| == |scenarios|
    ensures forall i :: 0 <= i < |scenarios| ==> results[i] == ProjectionOf(st, scenarios[i], months)
  {
    results := [];
    for i := 0 to |scenarios|
      invariant |results| == i
      invariant forall j :: 0 <= j < i ==> results[j] == ProjectionOf(st, scenarios[j], months)
    {
      var p := Project(st, scenarios[i], months);
      results := results + [p];
    }
  }
}
