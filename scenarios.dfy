/**
 * The fixed configuration of the comparison: the shared base settings, the
 * twelve-month horizon and the four monetization scenarios.
 */
module Scenarios {
  import opened Funnel

  /** Number of projected months (one per month label). */
  const MonthCount: nat := 12

  /** Base traffic 1000, growth 10% per month, 5 credits consumed per buyer. */
  const BaseSettings: Settings := Settings(1000.0, 0.10, 5.0)

  const Scenario1: Scenario :=
    Scenario("Scenario 1 (€0.60)", 0.60, 2, 0, Conversion(0.20, 0.50, 0.80, 0.65, 0.20))
  const Scenario2: Scenario :=
    Scenario("Scenario 2 (€0.70)", 0.70, 2, 1, Conversion(0.22, 0.60, 0.85, 0.50, 0.15))
  const Scenario3: Scenario :=
    Scenario("Scenario 3 (€0.50)", 0.50, 1, 0, Conversion(0.25, 0.45, 0.85, 0.70, 0.25))
  /** The gift effect lowers the €1.00 price to 77% of it. */
  const Scenario4: Scenario :=
    Scenario("Scenario 4 (€1.00 + Δώρα)", 1.00 * 0.77, 2, 1, Conversion(0.18, 0.55, 0.75, 0.60, 0.18))

  /** The scenarios in the order they are defined and projected. */
  const AllScenarios: seq<Scenario> := [Scenario1, Scenario2, Scenario3, Scenario4]

  /** Every conversion rate is a fraction between 0 and 1. */
  predicate RatesAreFractions(c: Conversion)
  {
    RatesNonNegative(c)
    && c.signup <= 1.0 && c.profile <= 1.0 && c.search <= 1.0 && c.limit <= 1.0 && c.purchase <= 1.0
  }

  /**
   * The configuration as written: twelve months, four scenarios with distinct
   * names, positive prices, rates in (0, 1], and an allowance below the credits
   * a buyer consumes, so no scenario saturates and no funnel halts.
   */
  lemma ConfigurationValid()
    ensures MonthCount == 12 && |AllScenarios| == 4
    ensures BaseSettings.baseTraffic > 0.0 && BaseSettings.growthRate > 0.0
    ensures forall i, j :: 0 <= i < j < |AllScenarios| ==> AllScenarios[i].name != AllScenarios[j].name
    ensures forall i :: 0 <= i < |AllScenarios| ==>
      && AllScenarios[i].avgPrice > 0.0
      && RatesAreFractions(AllScenarios[i].conversion)
      && !SomeStageZero(AllScenarios[i].conversion)
      && 0.0 <= Allowance(AllScenarios[i]) < BaseSettings.searchesPerUser
  {
  }

  /**
   * Scenario 1, first month: 200 signups, 100 profiles, 80 searchers,
   * 52 reaching the limit, 10.4 buyers, 31.2 paid credits, 18.72 euros.
   */
  lemma Scenario1FirstMonth()
    ensures Buyers(BaseSettings.baseTraffic, Scenario1.conversion) == 10.4
    ensures PaidCredits(10.4, BaseSettings.searchesPerUser, Allowance(Scenario1)) == 31.2
    ensures PeriodRevenue(BaseSettings.baseTraffic, Scenario1, BaseSettings.searchesPerUser) == 18.72
  {
  }

  /** First-month revenues of the other three scenarios. */
  lemma OtherScenariosFirstMonth()
    ensures PeriodRevenue(BaseSettings.baseTraffic, Scenario2, BaseSettings.searchesPerUser) == 11.781
    ensures PeriodRevenue(BaseSettings.baseTraffic, Scenario3, BaseSettings.searchesPerUser) == 33.46875
    ensures PeriodRevenue(BaseSettings.baseTraffic, Scenario4, BaseSettings.searchesPerUser) == 12.34926
  {
  }

  /** With the base settings, Scenario 1 earns 0.01872 euros per visitor in every month. */
  lemma Scenario1PerVisitor(traffic: real)
    requires traffic >= 0.0
    ensures PeriodRevenue(traffic, Scenario1, BaseSettings.searchesPerUser) == traffic * 0.01872
  {
    PeriodRevenueClosedForm(traffic, Scenario1, BaseSettings.searchesPerUser);
    assert FunnelRate(Scenario1.conversion) == 0.0104;
  }

  /** Month k + 1 of Scenario 1 earns 0.01872 per unit of that month's traffic. */
  lemma Scenario1Month(k: nat)
    requires k < 12
    ensures Series(1000.0, 0.10, 5.0, Scenario1, 12)[k] == Traffic(1000.0, 0.10, k) * 0.01872
  {
    SeriesAt(1000.0, 0.10, 5.0, Scenario1, 12, k);
    TrafficNonNegative(1000.0, 0.10, k);
    Scenario1PerVisitor(Traffic(1000.0, 0.10, k));
  }

  /** Scenario 1 over the year: traffic 1000, 1100, 1210, ... gives these twelve revenues. */
  lemma Scenario1YearSeries()
    ensures Series(1000.0, 0.10, 5.0, Scenario1, 12)
         == [18.72, 20.592, 22.6512, 24.91632, 27.407952, 30.1487472, 33.16362192,
             36.479984112, 40.1279825232, 44.14078077552, 48.554858853072, 53.4103447383792]
  {
    Scenario1Month(0); assert Traffic(1000.0, 0.10, 0) == 1000.0;
    Scenario1Month(1); assert Traffic(1000.0, 0.10, 1) == 1100.0;
    Scenario1Month(2); assert Traffic(1000.0, 0.10, 2) == 1210.0;
    Scenario1Month(3); assert Traffic(1000.0, 0.10, 3) == 1331.0;
    Scenario1Month(4); assert Traffic(1000.0, 0.10, 4) == 1464.1;
    Scenario1Month(5); assert Traffic(1000.0, 0.10, 5) == 1610.51;
    Scenario1Month(6); assert Traffic(1000.0, 0.10, 6) == 1771.561;
    Scenario1Month(7); assert Traffic(1000.0, 0.10, 7) == 1948.7171;
    Scenario1Month(8); assert Traffic(1000.0, 0.10, 8) == 2143.58881;
    Scenario1Month(9); assert Traffic(1000.0, 0.10, 9) == 2357.947691;
    Scenario1Month(10); assert Traffic(1000.0, 0.10, 10) == 2593.7424601;
    Scenario1Month(11); assert Traffic(1000.0, 0.10, 11) == 2853.11670611;
  }

  /** Scenario 1's annual total, shown rounded as 400.31, is exactly this. */
  lemma Scenario1YearTotal()
    ensures ProjectionOf(BaseSettings, Scenario1, MonthCount).total == 400.3137921221712
  {
    Scenario1YearSeries();
    assert ProjectionOf(BaseSettings, Scenario1, MonthCount).series == Series(1000.0, 0.10, 5.0, Scenario1, 12);
    var done: seq<real> := [];
    SumSnoc(done, 18.72); done := done + [18.72];
    SumSnoc(done, 20.592); done := done + [20.592];
    SumSnoc(done, 22.6512); done := done + [22.6512];
    SumSnoc(done, 24.91632); done := done + [24.91632];
    SumSnoc(done, 27.407952); done := done + [27.407952];
    SumSnoc(done, 30.1487472); done := done + [30.1487472];
    SumSnoc(done, 33.16362192); done := done + [33.16362192];
    SumSnoc(done, 36.479984112); done := done + [36.479984112];
    SumSnoc(done, 40.1279825232); done := done + [40.1279825232];
    SumSnoc(done, 44.14078077552); done := done + [44.14078077552];
    SumSnoc(done, 48.554858853072); done := done + [48.554858853072];
    SumSnoc(done, 53.4103447383792); done := done + [53.4103447383792];
    assert done == Series(1000.0, 0.10, 5.0, Scenario1, 12);
  }

  /**
   * The whole comparison: one projection per scenario, in order, each with
   * twelve monthly values that never decrease and a total equal to their sum,
   * none negative;
   * Scenario 1 opens at 18.72 and totals 400.3137921221712.
   */
  method RunComparison() returns (results: seq<Projection>)
    ensures |results| == |AllScenarios| == 4
    ensures forall i :: 0 <= i < 4 ==>
      && results[i].name == AllScenarios[i].name
      && |results[i].series| == MonthCount
      && results[i].total == Sum(results[i].series)
      && results[i].total >= 0.0
      && results[i] == ProjectionOf(BaseSettings, AllScenarios[i], MonthCount)
      && (forall k :: 0 <= k < MonthCount ==> results[i].series[k] >= 0.0)
      && (forall k :: 0 <= k < MonthCount - 1 ==> results[i].series[k] <= results[i].series[k + 1])
    ensures results[0].series[0] == 18.72
    ensures results[0].total == 400.3137921221712
  {
    results := ProjectAll(BaseSettings, AllScenarios, MonthCount);
    forall i | 0 <= i < 4
      ensures results[i].total >= 0.0
      ensures forall k :: 0 <= k < MonthCount ==> results[i].series[k] >= 0.0
      ensures forall k :: 0 <= k < MonthCount - 1 ==> results[i].series[k] <= results[i].series[k + 1]
    {
      var s := AllScenarios[i];
      ConfigurationValid();
      SeriesNonNegative(BaseSettings.baseTraffic, BaseSettings.growthRate, BaseSettings.searchesPerUser, s, MonthCount);
      SeriesNonDecreasing(BaseSettings.baseTraffic, BaseSettings.growthRate, BaseSettings.searchesPerUser, s, MonthCount);
      TotalNonNegative(BaseSettings, s, MonthCount);
    }
    SeriesAt(BaseSettings.baseTraffic, BaseSettings.growthRate, BaseSettings.searchesPerUser, Scenario1, MonthCount, 0);
    assert Traffic(BaseSettings.baseTraffic, BaseSettings.growthRate, 0) == BaseSettings.baseTraffic;
    Scenario1FirstMonth();
    Scenario1YearTotal();
  }
}
