# Credit revenue scenarios: funnel revenue projection

This project models the computation behind a dashboard that compares four
monetization scenarios of a credits-based product. Each month, traffic passes
through a five-stage conversion funnel (signup, profile completion, search,
reaching the free limit, purchase). Every buyer consumes a fixed number of
credits (`searches_per_user`). The scenario's free and extra credits are not
billed, and consumption net of that allowance is clamped at zero. The paid
credits times the scenario's average price give the month's revenue, which is
appended to the scenario's series and added to its annual total. Only after
that does traffic grow by `1 + growth_rate` for the next month, so month 1 is
billed at the base traffic unmodified. Traffic and total restart for every
scenario.

Files:

- `funnel.dfy` (module `Funnel`): the entities (`Conversion`, `Scenario`,
  `Settings`, `Projection`), the per-month arithmetic as pure functions
  (`Buyers`, `PaidCredits`, `PeriodRevenue`), the reference definitions
  `Series` (recursive, growing traffic after each month), `Traffic` (closed
  form) and `Sum`, the properties of the projection as lemmas, and the two
  loops of the source as methods. `Project` is the per-scenario accumulator
  loop, proved equal to `Series`/`Sum`. `ProjectAll` is the loop over the
  scenarios.
- `scenarios.dfy` (module `Scenarios`): the fixed configuration (base traffic
  1000, growth 10%, 5 credits per buyer, 12 months, the four scenarios),
  exact concrete values for it, and `RunComparison`, the whole computation
  the dashboard performs.

All quantities are exact `real`s, so the concrete figures (18.72 for
Scenario 1's first month, 400.3137921221712 for its year) are exact equalities.
Free and extra credits are `int`s, as they are integer literals in the source.
No input is rejected, which matches the source: negative rates, prices, traffic
or growth below -100% all flow through the same arithmetic. The properties
state the sign conditions they need.

Saturation is stated in two forms. `SeriesSaturated` assumes only that no
month has a negative number of buyers. `SeriesSaturatedFunnel` assumes
non-negative traffic and rates and growth of at least -100%, which is
sufficient for that but not necessary: a negative traffic paired with a
negative rate also gives non-negative buyers. For a single month,
`PeriodRevenue` states the exact condition: with a non-zero price, revenue is
zero exactly when the buyers' consumption does not exceed their free credits.
With negative buyers and an allowance above consumption, the clamp does not
apply and revenue is positive.

The configuration of the source is the constants `MonthCount`, `BaseSettings`,
`Scenario1` to `Scenario4` and `AllScenarios` in `scenarios.dfy`. They hold the
literal values of revenue_scenario_app.py:15-71, with `1.00 * 0.77` kept as
written for Scenario 4's price.

## Model

| member | source | states |
|---|---|---|
| `Funnel.Buyers` | revenue_scenario_app.py:99-104 | buyers are zero when any of the five stage rates is zero, and non-negative for non-negative traffic and rates |
| `Funnel.BuyersLinear` | revenue_scenario_app.py:100-104 | the stage-by-stage funnel equals traffic times the product of the five rates |
| `Funnel.PaidCredits` | revenue_scenario_app.py:106-108 | paid credits are never negative and are at least consumption minus free allowance. They are either zero or exactly that difference. They are zero exactly when buyers' consumption does not exceed their free credits |
| `Funnel.PeriodRevenue` | revenue_scenario_app.py:100-109 | a month's revenue is non-negative for a non-negative price. It is zero when a stage rate is zero (funnel halt). It is zero when the allowance covers consumption and buyers are non-negative (saturation). With a non-zero price, it is zero exactly when consumption does not exceed the free credits |
| `Funnel.PeriodRevenueClosedForm` | revenue_scenario_app.py:100-109 | a month's revenue equals price × max(traffic × funnel rate × (credits per user − allowance), 0) |
| `Funnel.PeriodRevenueMonotone` | revenue_scenario_app.py:100-109 | with non-negative rates and price, more traffic never gives less revenue |
| `Funnel.ProjectionOf` | revenue_scenario_app.py:94-112 | one scenario's result carries the scenario's name and one revenue per month. Its series is `Series` from the base traffic and its total is the `Sum` of that series |
| `Funnel.Series` | revenue_scenario_app.py:98-113 | the series has exactly one entry per month |
| `Funnel.SeriesAt` | revenue_scenario_app.py:95-113 | month k+1 is billed at base × (1+growth)^k, so month 1 uses the base traffic unmodified |
| `Funnel.TrafficStep` | revenue_scenario_app.py:113 | growing traffic once and then k−1 more times is the closed form for k months |
| `Funnel.SeriesStep` | revenue_scenario_app.py:110-113 | emitting the current month and growing traffic leaves exactly the rest of the series |
| `Funnel.SumSnoc` | revenue_scenario_app.py:110-112 | appending a revenue to the series adds it to the sum, as the running total does |
| `Funnel.SumNonNegative` | revenue_scenario_app.py:112 | a sum of non-negative revenues is non-negative |
| `Funnel.SeriesNonNegative` | revenue_scenario_app.py:108-110 | with a non-negative price, every month's revenue is non-negative |
| `Funnel.TotalNonNegative` | revenue_scenario_app.py:108-112 | with a non-negative price, the annual total is non-negative |
| `Funnel.SeriesSaturated` | revenue_scenario_app.py:106-109 | if free plus extra credits cover the credits per user and no month has negative buyers, every month's revenue and the total are zero |
| `Funnel.TrafficNonNegative` | revenue_scenario_app.py:95-113 | with non-negative base traffic and growth of at least -100%, every month's traffic is non-negative |
| `Funnel.SeriesSaturatedFunnel` | revenue_scenario_app.py:100-113 | saturation under non-negative traffic and rates and growth of at least -100%: every month's revenue and the total are zero |
| `Funnel.SeriesHalted` | revenue_scenario_app.py:100-109 | if any stage rate is zero, every month's revenue and the total are zero |
| `Funnel.SeriesNonDecreasing` | revenue_scenario_app.py:100-113 | with non-negative traffic, growth, rates and price, no month earns less than the month before |
| `Funnel.Project` | revenue_scenario_app.py:94-113 | the accumulator loop yields `Series`. It has one entry per month, its total is the sum of the series, and month k+1 is billed at the closed-form traffic |
| `Funnel.ProjectAll` | revenue_scenario_app.py:93-113 | one projection per scenario, in order. Each depends only on its own scenario and the shared settings (scenario independence) |
| `Scenarios.ConfigurationValid` | revenue_scenario_app.py:15-71 | the literal values of the source's configuration: 12 months, base traffic 1000 and 10% growth. It has four scenarios with distinct names and positive prices. All their rates are non-zero fractions, and each allowance is below the 5 credits a buyer consumes |
| `Scenarios.Scenario1FirstMonth` | revenue_scenario_app.py:15-33 | Scenario 1, month 1: 10.4 buyers, 31.2 paid credits, revenue exactly 18.72 |
| `Scenarios.OtherScenariosFirstMonth` | revenue_scenario_app.py:35-70 | month-1 revenues of Scenarios 2, 3 and 4: 11.781, 33.46875 and 12.34926 |
| `Scenarios.Scenario1PerVisitor` | revenue_scenario_app.py:23-33 | under the base settings, Scenario 1 earns 0.01872 per unit of traffic |
| `Scenarios.Scenario1Month` | revenue_scenario_app.py:95-113 | Scenario 1's month k+1 revenue is 0.01872 × 1000 × 1.1^k |
| `Scenarios.Scenario1YearSeries` | revenue_scenario_app.py:93-113 | Scenario 1's twelve monthly revenues, from 18.72 to 53.4103447383792 |
| `Scenarios.Scenario1YearTotal` | revenue_scenario_app.py:96-112 | Scenario 1's annual total is exactly 400.3137921221712 |
| `Scenarios.RunComparison` | revenue_scenario_app.py:93-113 | four projections in definition order, each equal to `ProjectionOf` its scenario under the base settings. Each has 12 non-negative, non-decreasing entries and a non-negative total equal to their sum. Scenario 1 starts at 18.72 and totals 400.3137921221712 |

## Left out

- Page setup, titles, markdown, the conversion-rate percentage table, the chart and the summary dataframe (revenue_scenario_app.py:1-12, 73-91, 115-129): presentation through Streamlit, pandas and plotly.
- Month labels from `pd.date_range(...).strftime` (revenue_scenario_app.py:18-19): they depend on the current date and on pandas. Only their number, 12 (`Scenarios.MonthCount`), is modelled.
- `round(total_revenue, 2)` in the summary table (revenue_scenario_app.py:116): float presentation rounding. The model's totals are exact.
- IEEE floating-point behaviour: every quantity is an exact real. Float rounding (say of `1.00 * 0.77`, or of the growing traffic) is not reproduced.
- The scenario table is a Python dict keyed by name. It is modelled as a sequence in insertion order, and the uniqueness of names is not modelled, because the loop does not depend on it.
