# Massachusetts EV adoption engine — a Dafny model

This project models the scoring and forecast engine of the Revolt EV dashboard
(`app.py`). The modelled parts are:

- The closed-form least-squares line `simple_linear_regression`.
- The forecast pipeline `calculate_authentic_linear_regression_forecasts`. It
  scores each city's adoption readiness. It splits the statewide count of
  77 025 zero-emission vehicles and the 200 000-vehicle 2025 target across the
  cities by a 70/30 blend of population and readiness shares. It then derives
  a capped one-year growth rate and integer forecasts for 2025, 2027 and 2029.
- The priority table `create_priority_factors_data`: five factor scores, a
  weighted priority score and a dense rank.
- The risk matrix `create_risk_assessment_matrix`: four 1–3 risk levels, their
  4–12 sum and a category.
- The infrastructure table `create_infrastructure_data`: a charging score, a
  grid-capacity score, their 60/40 blend and a category.
- The investment categoriser `categorize_investment`.

## How it is modelled

- Python floats are Dafny `real`, so arithmetic is exact. Divisions the source
  could make by zero carry a precondition: `Forecast.Allocatable` and
  `Priority.Rankable`. A well-formed table (`Cities.ValidDataset`) is always
  `Allocatable` (`Forecast.ValidDatasetAllocatable`). `Rankable` is a separate
  assumption: it needs a non-zero maximum income, home value, distance and population.
  A table containing only Boston (distance 0) is well-formed but not
  `Rankable` (`Priority.BostonAloneNotRankable`). The source's 20-city table
  meets it.
- pandas `astype(int)` is `Numeric.Trunc`, which truncates toward zero.
- A data-frame column is a `seq`. A city row is the datatype
  `Cities.CityRecord`. The urban classification is the enum
  `Cities.UrbanClass`.
- The forecast function adds its columns to `cities_df` in place. That is the
  class `Forecast.CityFrame`:
  - `CalculateForecasts` assigns each column field in the source's order.
  - `AddForecastColumns` is the `for year in forecast_years` loop, proved
    against the specification function `Forecast.ForecastsOf`.
- The priority, risk and infrastructure functions work on `cities_df.copy()`
  and return the copy. They are pure functions returning new tables.
- Boston's row appears as `Cities.Boston`. Its column values come from
  `app.py:221-434`. Several lemmas compute exact results for it.

Only three readiness quantities are clamped: the income factor (at most 1,
`app.py:522`), the distance factor (at least 0.5, `app.py:540`) and the final
score (at most 1, `app.py:553`). The education, infrastructure, market and
transport factors are plain ratios (`app.py:526-537`). The model does the same,
and `Forecast.ReadinessBounds` shows that a well-formed city still lands in
[0.025, 1].

## Model

| member | source | states |
|---|---|---|
| Regression.Fit | app.py:11-28 | the fitted line passes through the point of means: intercept + slope · mean(x) = mean(y) |
| Regression.DeviationsFromMeanSumToZero | app.py:14-19 | the deviations of a column from its mean sum to zero |
| Regression.ResidualsSumToZero | app.py:13-28 | the residuals of the returned line sum to zero for every non-empty input, zero-spread case included |
| Regression.NormalEquation | app.py:13-28 | for every non-empty input the residuals are orthogonal to x's deviations (the second least-squares normal equation); on constant x every deviation is zero |
| Regression.SpreadZeroIffConstantX | app.py:19-22 | the slope's denominator is never negative, and it is zero exactly when every x is the same, so the guard fires on constant x and only there |
| Regression.ZeroSpreadMeansConstantX | app.py:19-22 | a zero denominator means every x equals the first |
| Regression.ConstantXHasZeroSpread | app.py:14-21 | if every x is equal, the mean is that value and the denominator is zero, so the guard fires |
| Regression.ConstantXFit | app.py:21-26 | with every x equal the slope is 0 and the intercept is the mean of y |
| Regression.ExactLineRecovered | app.py:11-28 | samples lying exactly on y = m·x + c, with x not constant, give back slope m and intercept c |
| Regression.CovarianceOfLine | app.py:18-19 | on a line of slope m the co-deviation sum is m times the squared-deviation sum |
| Regression.MeanOfLine | app.py:14-15 | on a line y = m·x + c the mean of y is m·mean(x) + c |
| Regression.FitOfDoubling | app.py:11-28 | [1,2,3] against [2,4,6] fits slope 2, intercept 0 |
| Regression.FitOfConstantX | app.py:11-28 | [1,1,1] against [5,7,3] hits the zero-denominator branch: slope 0, intercept 5 |
| Numeric.Trunc | app.py:569 | `astype(int)` truncates toward zero: for x ≥ 0 the result is ≤ x and above x − 1, and for x < 0 it is ≥ x and below x + 1 |
| Cities.MaxPopulation | app.py:533 | the column maximum bounds every population and is attained by one of them |
| Forecast.IncomeFactor | app.py:522 | income over 101 341, saturating: exactly 1 from the state median up, the plain ratio below it, never above 1, non-negative for non-negative income |
| Forecast.DistanceFactor | app.py:540 | 1 − distance/100 floored at 0.5: exactly 0.5 from 50 miles on, at most 1 for non-negative distance |
| Forecast.EstimatedCurrentTotalIsSum | app.py:493-497 | the current statewide count 77 025 is the January 2024 ZEV count plus the November–December 2024 sales |
| Forecast.AdoptionReadiness | app.py:520-553 | the weighted readiness score never exceeds 1, and it is at least 0.025 when income, the three percentages and population are non-negative and the maximum population is positive |
| Forecast.ReadinessBounds | app.py:520-553 | a well-formed city scores between 0.025 and 1 |
| Forecast.ValidDatasetAllocatable | app.py:533-559 | on a well-formed table the maximum population, the population sum and the readiness sum are positive, and every readiness is in [0.025, 1] |
| Forecast.Shares | app.py:558-559 | one share per value; multiplied back by the column total each share gives its value |
| Forecast.Blend | app.py:562-565 | one weight per city, lying between that city's population weight and readiness weight |
| Forecast.SharesSumToOne | app.py:558-559 | a column divided by its own sum sums to 1 |
| Forecast.SharesAreFractions | app.py:558-559 | non-negative values divided by their positive sum are each in [0, 1] |
| Forecast.SumOfBlend | app.py:562-565 | the sum of the 70/30 blend is 0.7 times the first sum plus 0.3 times the second |
| Forecast.BlendOfFractions | app.py:562-565 | the blend of two fraction columns is a fraction column |
| Forecast.WeightsSumToOne | app.py:558-565 | the population weights, the readiness weights and the allocation weights each sum to 1 |
| Forecast.WeightsAreFractions | app.py:558-565 | on a well-formed table every population, readiness and allocation weight is in [0, 1] |
| Forecast.AllocationEntries | app.py:569-575 | each truncated share is non-negative and never larger than the share of a larger total, so no city's estimate exceeds its target share |
| Forecast.Portion | app.py:569 | a fraction in [0, 1] of a non-negative total truncates to a whole number between 0 and the total |
| Forecast.Allocate | app.py:569-575 | one truncated share per weight; a weight in [0, 1] of a non-negative total gives a share between 0 and the total |
| Forecast.PortionBounds | app.py:569 | one truncated share lies in (exact − 1, exact] |
| Forecast.AllocateBelowExact | app.py:569-575 | the sum of truncated shares is at most the exact sum and above it minus the number of cities |
| Forecast.AllocationTotal | app.py:567-575 | by non-negative weights summing to 1, the truncated shares sum to at most the total and lose fewer vehicles than there are cities |
| Forecast.AllocationWithinTotals | app.py:567-575 | on a well-formed table, 0 ≤ estimate ≤ target share for each city; the estimates sum into (77 025 − n, 77 025] and the target shares into (200 000 − n, 200 000] |
| Forecast.GrowthRate | app.py:579-595 | at most 2; exactly 0.5 when the estimate is not positive; otherwise the rate that turns the estimate into the target share in one year, or exactly 2 when the target passes three times the estimate |
| Forecast.GrowthRateNonNegative | app.py:589-593 | a positive estimate no larger than its target grows at a non-negative rate |
| Forecast.GrowthRatesBounded | app.py:597-599 | on a well-formed table every city's growth rate is in [0, 2] |
| Forecast.Forecast | app.py:606-610 | zero years ahead the forecast is the estimate itself; with a non-negative baseline and rate it never falls below the estimate |
| Forecast.ForecastFirstYear | app.py:592-610 | one year ahead the forecast is the target share exactly, or three times the estimate when the cap applies |
| Forecast.ForecastOfZeroBaseline | app.py:594-610 | a city allocated nothing is forecast nothing in every year |
| Forecast.ForecastGrowsWithHorizon | app.py:604-610 | with a non-negative rate and baseline a later year never forecasts less, and no forecast is negative |
| Forecast.ForecastsOfAppend | app.py:604-610 | adding one more year to the loop adds exactly that year's column to the forecasts |
| Forecast.ForecastsConsistent | app.py:601-610 | on a well-formed table the forecasts have the keys 2025, 2027 and 2029; each city's are non-negative and non-decreasing; the 2025 figure is the (capped) target share; a city estimated at zero is forecast zero throughout |
| Forecast.SingleCityWeights | app.py:555-565 | a lone well-formed city carries population, readiness and allocation weight 1 |
| Forecast.SingleCityAllocation | app.py:567-575 | a lone city is allocated the whole 77 025 estimate and the whole 200 000 target |
| Forecast.SingleCityGrowth | app.py:579-599 | a lone city's growth rate is 200 000 / 77 025 − 1, below the cap |
| Forecast.StatewideFirstYear | app.py:604-610 | from 77 025 at that rate the 2025 forecast is 200 000 |
| Forecast.StatewideThirdYear | app.py:604-610 | from 77 025 at that rate the 2027 forecast is 1 348 424 |
| Forecast.StatewideFifthYear | app.py:604-610 | from 77 025 at that rate the 2029 forecast is 9 091 240 |
| Forecast.SingleCityForecasts | app.py:555-610 | the whole pipeline on one well-formed city forecasts 200 000, 1 348 424 and 9 091 240 vehicles for 2025, 2027 and 2029 |
| Forecast.CityFrame.CalculateForecasts | app.py:555-610 | leaves the city columns unchanged and sets every added column to its specification function; the forecasts gain exactly the three year columns |
| Forecast.CityFrame.AddForecastColumns | app.py:602-610 | after the loop the forecasts are the old ones plus one column per forecast year, each grown from the estimate by years_ahead = year − 2024 |
| Priority.BostonAloneNotRankable | app.py:660-663 | a well-formed table can still have maximum distance 0, so the infrastructure score's divisor is zero and the table is not rankable |
| Priority.Factors | app.py:650-669 | each of the five factors lies in [0, 1] once the values it is built from lie between 0 and their column maximum (or 100 %) |
| Priority.PriorityScore | app.py:672-678 | the weights 0.25, 0.20, 0.20, 0.20 and 0.15 keep a score of factors in [0, 1] inside [0, 1] |
| Priority.FactorBounds | app.py:650-678 | against column maxima that bound the city, every factor and the priority score lie in [0, 1] |
| Priority.DenseRank | app.py:681 | a dense rank is at least 1 |
| Priority.RankOrder | app.py:681 | a strictly higher score gets a strictly smaller rank and equal scores share a rank, in both directions |
| Priority.TopScoreRankOne | app.py:681 | rank 1 holds exactly when the score is the column maximum |
| Priority.RankBound | app.py:681 | no rank exceeds the number of distinct scores |
| Priority.LowestScoreRank | app.py:681 | the minimum score gets the number of distinct scores as its rank |
| Priority.RankGapless | app.py:681 | below every rank other than 1 some city holds the rank one smaller |
| Priority.RankAttained | app.py:681 | every rank from 1 to the number of distinct scores is held by some city |
| Priority.RanksAreOneToDistinctCount | app.py:681 | the rank column's values are exactly 1 through the number of distinct scores |
| Priority.PriorityTable | app.py:647-683 | one row per city, carrying the city unchanged |
| Priority.PriorityTableProperties | app.py:650-681 | on a well-formed table every factor and score is in [0, 1], and a higher score gets a smaller rank and the converse |
| Risk.EconomicRisk | app.py:727-733 | level 1–3: 3 exactly below $50 000, 1 exactly from $75 000 |
| Risk.DemographicRisk | app.py:754-760 | level 1–3: 3 exactly below 25 % degree holders, 1 exactly from 45 % |
| Risk.MarketRisk | app.py:763-770 | level 1–3: 3 exactly when transit is over 20 % and driving alone under 50 %; 1 exactly when transit is at most 10 % and driving alone at least 70 % |
| Risk.AssessInfrastructureRisk | app.py:736-751 | the counter raised once per barrier, then shifted and capped, equals one more than the number of barriers capped at 3 |
| Risk.InfrastructureRiskLevels | app.py:736-751 | the level is in 1–3; it is 1 exactly when there is no barrier and 3 exactly when at least two barriers hold |
| Risk.RiskFallsWithIncomeAndEducation | app.py:727-760 | more income or more education never raises the economic or demographic risk |
| Risk.CategorizeRisk | app.py:791-797 | high exactly from 10, medium exactly on [7, 10), low exactly below 7 |
| Risk.RiskMatrix | app.py:724-801 | one row per city, carrying the city unchanged |
| Risk.RiskMatrixProperties | app.py:773-799 | every level is in 1–3, the overall score is their sum in 4–12, and the category follows the 10 and 7 thresholds |
| Risk.BostonRisk | app.py:773-799 | Boston's levels are 1, 3, 1, 3, overall 8, medium risk |
| Infrastructure.ChargingScore | app.py:846-857 | at least 0.26 for a non-negative single-family share; at most 0.96 when that share is at most 100 % and the distance is non-negative |
| Infrastructure.GridCapacity | app.py:860-873 | the grid-capacity score never exceeds 1, for every input |
| Infrastructure.InfrastructureReadiness | app.py:879-882 | at most 0.976 when the single-family share is at most 100 % and the distance is non-negative |
| Infrastructure.ScoreBounds | app.py:846-882 | for a well-formed city: charging in [0.26, 0.96], grid capacity in [0.12, 1], readiness in [0.204, 0.976] |
| Infrastructure.ScoresFallWithDistance | app.py:846-882 | moving a city farther from Boston never raises its charging score, its grid-capacity score or its readiness |
| Infrastructure.ScoresRiseWithHomesAndIncome | app.py:846-882 | more single-family homes never lower the readiness; more income never lowers the grid-capacity score |
| Infrastructure.CategorizeInfrastructure | app.py:885-891 | high exactly from 0.75, medium exactly on [0.5, 0.75), low exactly below 0.5 |
| Infrastructure.InfrastructureTable | app.py:843-895 | one row per city, carrying the city unchanged |
| Infrastructure.InfrastructureTableProperties | app.py:875-893 | on a well-formed table the readiness is the 60/40 blend, lies in [0.204, 0.976], and high readiness needs a charging score of at least 0.5 |
| Infrastructure.BostonInfrastructure | app.py:846-893 | Boston: charging 0.6368, grid 0.773775, readiness 0.69159, medium readiness |
| Infrastructure.CategorizeInvestment | app.py:1168-1176 | each of the four categories holds exactly under its own pair of conditions on readiness < 0.5 and forecast > 2000 |
| Infrastructure.InvestmentAgreesWithReadinessCategory | app.py:1168-1176 | a city is rated critical or high investment priority exactly when its infrastructure category is low readiness |

## Left out

- The Streamlit pages, the Plotly charts and `@st.cache_data` are presentation and caching. They change no value.
- The literal 20-city table in `load_authentic_massachusetts_cities_complete` is not modelled. Only Boston's row is kept, as a concrete record. The lemmas hold for any table, or for any well-formed one (the priority table also needs `Priority.Rankable`).
- IEEE-754 floating point is not modelled: Dafny `real` is exact. Exact reals and floats can truncate differently when a product lands just below an integer. This matters most for `Forecast.ForecastFirstYear`, `Forecast.StatewideFirstYear` and `Forecast.SingleCityForecasts`. They hold because current · (target / current) is exactly the target over the reals. In floats that product can round to just below the target, and `astype(int)` then yields one vehicle less. The same goes for `Regression.SpreadZeroIffConstantX`, `Regression.ConstantXHasZeroSpread` and `Regression.ConstantXFit`: over the reals the guard at `app.py:21` fires on constant x and only there, but in floats a rounded mean can leave a tiny non-zero denominator on constant x (x = [0.1, 0.1, 0.1]), and tiny values can underflow to a zero denominator on varying x (x = [1e-200, 2e-200]).
- Division by zero is not modelled. In pandas it yields `inf` or `NaN`. The model excludes it by the preconditions `Forecast.Allocatable` and `Priority.Rankable`.
- Forecast.GrowthRate: the general real power `** (1/years_to_target)` is not modelled. With years_to_target = 1.0 the exponent is 1, and the model uses the ratio itself.
- Numeric.Pow: only natural exponents, which is what the forecast's `years_ahead` always is.
- The `State_Context` string column and the `Data_Sources` entry of the state dictionary are not modelled. The dictionary's figures are the constants at the top of `Forecast`.
- The columns other code builds from these tables are not modelled: `Grid_Load`, `Investment_Priority`, medians and rounding for display. The investment table itself is not modelled either; only `categorize_investment` is.
- The model labels `UrbanClass` with an enum, not a string. The source would raise `KeyError` in `calculate_charging_score` for an unknown class. That case cannot arise in the model.
- Regression.Fit: requires two samples of equal, non-zero length. The source behaves differently outside that. On empty input it raises `ZeroDivisionError` (`app.py:14`). With more y values than x values it divides the sum of all y by `len(x_data)` (`app.py:15`) and reads only the first n y values (`app.py:18`). With fewer y values it raises `IndexError` (`app.py:18`).
- `simple_linear_regression` is modelled as written, although nothing in `app.py` calls it.
