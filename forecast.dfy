/** `calculate_authentic_linear_regression_forecasts`: an adoption-readiness
    score per city, a 70/30 blend of population and readiness shares that
    splits the statewide EV count and the 2025 target across the cities, a
    capped growth rate that reaches each city's target share in one year, and
    integer forecasts for 2025, 2027 and 2029 grown from the same baseline. */
module Forecast {
  import opened Numeric
  import opened Cities

  // ---- statewide figures (the returned state-data dictionary) ----

  const CurrentZevsJan2024: int := 66025
  const RecordSalesNovDec2024: int := 11000
  /** The current statewide count: the January 2024 ZEVs plus the late-2024 sales. */
  const EstimatedCurrentTotal: int := 77025
  const StateTarget2025: int := 200000
  /** Battery and plug-in hybrid vehicles together, January 2024. */
  const TotalEvsIncludingPhevJan2024: int := 104457

  lemma EstimatedCurrentTotalIsSum()
    ensures EstimatedCurrentTotal == CurrentZevsJan2024 + RecordSalesNovDec2024
  {
  }

  /** The Massachusetts median household income the income factor is normalised to. */
  const MassachusettsMedianIncome: real := 101341.0

  const BaseYear: int := 2024
  const ForecastYears: seq<int> := [2025, 2027, 2029]

  // ---- adoption readiness (calculate_authentic_readiness) ----

  /** Income over the state median, saturating at 1. */
  function IncomeFactor(income: real): (f: real)
    ensures f <= 1.0
    ensures income >= 0.0 ==> f >= 0.0
    ensures income >= MassachusettsMedianIncome <==> f == 1.0
    ensures income < MassachusettsMedianIncome ==> f == income / MassachusettsMedianIncome
  {
    Min(income / MassachusettsMedianIncome, 1.0)
  }

  /** One minus a hundredth of the distance from Boston, never below 0.5. */
  function DistanceFactor(distance: real): (f: real)
    ensures f >= 0.5
    ensures distance >= 0.0 ==> f <= 1.0
    ensures distance >= 50.0 <==> f == 0.5
    ensures distance < 50.0 ==> f == 1.0 - distance / 100.0
  {
    Max(0.5, 1.0 - distance / 100.0)
  }

  /** The weighted readiness score of one city, clamped to at most 1. With
      non-negative inputs and a positive maximum population it is at least
      0.025, the distance floor's share. */
  function AdoptionReadiness(c: CityRecord, maxPopulation: real): (r: real)
    requires maxPopulation != 0.0
    ensures r <= 1.0
    ensures maxPopulation > 0.0 && c.medianIncome >= 0.0 && c.population >= 0 &&
            c.bachelorDegreePct >= 0.0 && c.singleFamilyPct >= 0.0 && c.driveAlonePct >= 0.0
            ==> r >= 0.025
  {
    NonNegativeShare(c.population as real, maxPopulation);
    var incomeFactor := IncomeFactor(c.medianIncome);
    var educationFactor := c.bachelorDegreePct / 100.0;
    var infrastructureFactor := c.singleFamilyPct / 100.0;
    var marketFactor := c.population as real / maxPopulation;
    var transportFactor := c.driveAlonePct / 100.0;
    var distanceFactor := DistanceFactor(c.distanceFromBoston);
    var score := incomeFactor * 0.25 + educationFactor * 0.25 + infrastructureFactor * 0.20
      + marketFactor * 0.15 + transportFactor * 0.10 + distanceFactor * 0.05;
    Min(score, 1.0)
  }

  lemma NonNegativeShare(x: real, t: real)
    requires t != 0.0
    ensures x >= 0.0 && t > 0.0 ==> x / t >= 0.0
  {
    if x >= 0.0 && t > 0.0 {
      assert x / t >= 0.0;
    }
  }

  /** A well-formed city scores between 0.025 (the distance floor's share) and 1. */
  lemma ReadinessBounds(c: CityRecord, maxPopulation: real)
    requires ValidCity(c) && maxPopulation > 0.0
    ensures 0.025 <= AdoptionReadiness(c, maxPopulation) <= 1.0
  {
    assert c.population as real / maxPopulation >= 0.0;
  }

  // ---- column operations ----

  /** Each value divided by the column total: scaled back up by the total,
      every share gives back its value. */
  function Shares(values: seq<real>, total: real): (r: seq<real>)
    requires total != 0.0
    ensures |r| == |values|
    ensures forall i :: 0 <= i < |r| ==> r[i] * total == values[i]
  {
    seq(|values|, i requires 0 <= i < |values| => values[i] / total)
  }

  /** 70% population share plus 30% readiness share: each blended weight
      lies between the two weights it mixes. */
  function Blend(populationWeight: seq<real>, readinessWeight: seq<real>): (r: seq<real>)
    requires |populationWeight| == |readinessWeight|
    ensures |r| == |populationWeight|
    ensures forall i :: 0 <= i < |r| && populationWeight[i] <= readinessWeight[i] ==>
              populationWeight[i] <= r[i] <= readinessWeight[i]
    ensures forall i :: 0 <= i < |r| && readinessWeight[i] <= populationWeight[i] ==>
              readinessWeight[i] <= r[i] <= populationWeight[i]
  {
    seq(|populationWeight|, i requires 0 <= i < |populationWeight| =>
      populationWeight[i] * 0.7 + readinessWeight[i] * 0.3)
  }

  /** `(weight * total).astype(int)`: a fraction of a non-negative total
      is a whole number between 0 and that total. */
  function Portion(weight: real, total: int): (p: int)
    ensures 0.0 <= weight <= 1.0 && total >= 0 ==> 0 <= p <= total
  {
    FractionOfTotal(weight, total);
    Trunc(weight * total as real)
  }

  lemma FractionOfTotal(weight: real, total: int)
    ensures 0.0 <= weight <= 1.0 && total >= 0 ==> 0.0 <= weight * total as real <= total as real
  {
    if 0.0 <= weight <= 1.0 && total >= 0 {
      MulMonotone(total as real, 0.0, weight);
      MulMonotone(total as real, weight, 1.0);
    }
  }

  /** One truncated share per weight. */
  function Allocate(weights: seq<real>, total: int): (r: seq<int>)
    ensures |r| == |weights|
    ensures forall i :: 0 <= i < |r| && 0.0 <= weights[i] <= 1.0 && total >= 0 ==> 0 <= r[i] <= total
  {
    seq(|weights|, i requires 0 <= i < |weights| => Portion(weights[i], total))
  }

  // ---- growth and forecasts ----

  /** calculate_authentic_growth_rate: the one-year rate that turns the
      current estimate into the target share, capped at 200%, and 50% for a
      city allocated nothing. With one year to the target the exponent
      1 / years_to_target is 1. */
  function GrowthRate(current: int, target: int): (g: real)
    ensures g <= 2.0
    ensures current <= 0 ==> g == 0.5
    ensures current > 0 && target <= 3 * current ==> current as real * (1.0 + g) == target as real
    ensures current > 0 && target > 3 * current ==> g == 2.0
  {
    if current > 0 then
      var r := target as real / current as real;
      DivMul(target as real, current as real);
      DivOrder(target as real, (3 * current) as real, current as real);
      assert (3 * current) as real / current as real == 3.0;
      Min(r - 1.0, 2.0)
    else
      0.5
  }

  lemma GrowthRateNonNegative(current: int, target: int)
    requires 0 < current <= target
    ensures GrowthRate(current, target) >= 0.0
  {
    QuotientAtLeastOne(target as real, current as real);
  }

  /** `(current * factor).astype(int)`. */
  function Compounded(current: int, factor: real): int
  {
    Trunc(current as real * factor)
  }

  lemma CompoundedMonotone(current: int, x: real, y: real)
    requires current >= 0 && 0.0 <= x <= y
    ensures 0 <= Compounded(current, x) <= Compounded(current, y)
  {
    ScaledTruncMonotone(current as real, x, y);
  }

  /** `(current * (1 + growth) ** years_ahead).astype(int)`: zero years
      ahead it is the estimate itself, and a non-negative rate never forecasts
      below the estimate. */
  function Forecast(current: int, growth: real, yearsAhead: nat): (f: int)
    ensures yearsAhead == 0 ==> f == current
    ensures current >= 0 && growth >= 0.0 ==> f >= current
  {
    var factor := Pow(1.0 + growth, yearsAhead);
    CompoundedAtLeastBaseline(current, factor);
    Compounded(current, factor)
  }

  lemma CompoundedAtLeastBaseline(current: int, factor: real)
    ensures factor == 1.0 ==> Compounded(current, factor) == current
    ensures current >= 0 && factor >= 1.0 ==> Compounded(current, factor) >= current
  {
    TruncOfInteger(current);
    assert current as real * 1.0 == current as real;
    if current >= 0 && factor >= 1.0 {
      CompoundedMonotone(current, 1.0, factor);
    }
  }

  /** One year ahead the forecast is the target share exactly, unless the cap
      bites, when it is three times the estimate. */
  lemma ForecastFirstYear(current: int, target: int)
    requires current > 0
    ensures Forecast(current, GrowthRate(current, target), 1)
      == if target <= 3 * current then target else 3 * current
  {
    var g := GrowthRate(current, target);
    var capped := if target <= 3 * current then target else 3 * current;
    OneYearOfGrowth(current, target);
    OneYearFactor(g);
    assert Compounded(current, 1.0 + g) == Trunc(capped as real);
    assert Forecast(current, g, 1) == Compounded(current, 1.0 + g);
    TruncOfInteger(capped);
  }

  /** One year at the growth rate turns the estimate into the capped target. */
  lemma OneYearOfGrowth(current: int, target: int)
    requires current > 0
    ensures current as real * (1.0 + GrowthRate(current, target))
      == (if target <= 3 * current then target else 3 * current) as real
  {
  }

  lemma OneYearFactor(g: real)
    ensures Pow(1.0 + g, 1) == 1.0 + g
  {
  }

  /** A city allocated nothing is forecast nothing. */
  lemma ForecastOfZeroBaseline(growth: real, yearsAhead: nat)
    ensures Forecast(0, growth, yearsAhead) == 0
  {
  }

  /** With a non-negative rate and baseline, a later year never forecasts less. */
  lemma ForecastGrowsWithHorizon(current: int, growth: real, e1: nat, e2: nat)
    requires current >= 0 && growth >= 0.0 && e1 <= e2
    ensures 0 <= Forecast(current, growth, e1) <= Forecast(current, growth, e2)
  {
    var p1, p2 := Pow(1.0 + growth, e1), Pow(1.0 + growth, e2);
    PowMonotone(1.0 + growth, e1, e2);
    CompoundedMonotone(current, p1, p2);
  }

  function GrowthColumn(current: seq<int>, target: seq<int>): seq<real>
    requires |current| == |target|
  {
    seq(|current|, i requires 0 <= i < |current| => GrowthRate(current[i], target[i]))
  }

  /** The `EV_Forecast_{year}` column: every year is grown from the same baseline. */
  function ForecastColumn(current: seq<int>, growth: seq<real>, year: int): seq<int>
    requires |current| == |growth| && year >= BaseYear
  {
    seq(|current|, i requires 0 <= i < |current| => Forecast(current[i], growth[i], year - BaseYear))
  }

  // ---- the pipeline on a table of cities ----

  function ReadinessColumn(cities: seq<CityRecord>): seq<real>
    requires |cities| > 0 && MaxPopulation(cities) != 0.0
  {
    seq(|cities|, i requires 0 <= i < |cities| => AdoptionReadiness(cities[i], MaxPopulation(cities)))
  }

  /** The denominators of the pipeline are non-zero: the largest population,
      the total population and the total readiness. */
  predicate Allocatable(cities: seq<CityRecord>)
  {
    && |cities| > 0
    && MaxPopulation(cities) != 0.0
    && Sum(Populations(cities)) != 0.0
    && Sum(ReadinessColumn(cities)) != 0.0
  }

  function PopulationWeights(cities: seq<CityRecord>): seq<real>
    requires Allocatable(cities)
  {
    Shares(Populations(cities), Sum(Populations(cities)))
  }

  function ReadinessWeights(cities: seq<CityRecord>): seq<real>
    requires Allocatable(cities)
  {
    Shares(ReadinessColumn(cities), Sum(ReadinessColumn(cities)))
  }

  function AllocationWeights(cities: seq<CityRecord>): seq<real>
    requires Allocatable(cities)
  {
    Blend(PopulationWeights(cities), ReadinessWeights(cities))
  }

  function CurrentEstimates(cities: seq<CityRecord>): seq<int>
    requires Allocatable(cities)
  {
    Allocate(AllocationWeights(cities), EstimatedCurrentTotal)
  }

  function TargetShares(cities: seq<CityRecord>): seq<int>
    requires Allocatable(cities)
  {
    Allocate(AllocationWeights(cities), StateTarget2025)
  }

  function GrowthRates(cities: seq<CityRecord>): seq<real>
    requires Allocatable(cities)
  {
    GrowthColumn(CurrentEstimates(cities), TargetShares(cities))
  }

  lemma ForecastYearsAfterBase()
    ensures forall y :: y in ForecastYears ==> y > BaseYear
  {
  }

  function ForecastsOf(current: seq<int>, growth: seq<real>, years: seq<int>): map<int, seq<int>>
    requires |current| == |growth|
    requires forall y :: y in years ==> y >= BaseYear
  {
    map y | y in years :: ForecastColumn(current, growth, y)
  }

  /** Adding one more year's column to the forecasts. */
  lemma ForecastsOfAppend(current: seq<int>, growth: seq<real>, years: seq<int>, year: int)
    requires |current| == |growth|
    requires forall y :: y in years ==> y >= BaseYear
    requires year >= BaseYear
    ensures ForecastsOf(current, growth, years + [year])
      == ForecastsOf(current, growth, years)[year := ForecastColumn(current, growth, year)]
  {
  }

  lemma MergeThenUpdate<K, V>(base: map<K, V>, added: map<K, V>, k: K, v: V)
    ensures (base + added)[k := v] == base + added[k := v]
  {
  }

  function Forecasts(cities: seq<CityRecord>): map<int, seq<int>>
    requires Allocatable(cities)
  {
    ForecastYearsAfterBase();
    ForecastsOf(CurrentEstimates(cities), GrowthRates(cities), ForecastYears)
  }

  // ---- properties of the column operations ----

  lemma SharesSumToOne(values: seq<real>, total: real)
    requires total == Sum(values) != 0.0
    ensures Sum(Shares(values, total)) == 1.0
  {
    SumDivided(values, Shares(values, total), total);
    assert total / total == 1.0;
  }

  lemma SharesAreFractions(values: seq<real>, total: real)
    requires forall i :: 0 <= i < |values| ==> values[i] >= 0.0
    requires total == Sum(values) > 0.0
    ensures forall i :: 0 <= i < |values| ==> 0.0 <= Shares(values, total)[i] <= 1.0
  {
    SumNonNegative(values);
    forall i | 0 <= i < |values|
      ensures 0.0 <= Shares(values, total)[i] <= 1.0
    {
      FractionOf(values[i], total);
    }
  }

  lemma {:induction false} SumOfBlend(populationWeight: seq<real>, readinessWeight: seq<real>)
    requires |populationWeight| == |readinessWeight|
    ensures Sum(Blend(populationWeight, readinessWeight))
      == Sum(populationWeight) * 0.7 + Sum(readinessWeight) * 0.3
  {
    if populationWeight != [] {
      SumOfBlend(populationWeight[1..], readinessWeight[1..]);
      assert Blend(populationWeight, readinessWeight)[1..] == Blend(populationWeight[1..], readinessWeight[1..]);
    }
  }

  lemma BlendOfFractions(populationWeight: seq<real>, readinessWeight: seq<real>)
    requires |populationWeight| == |readinessWeight|
    requires forall i :: 0 <= i < |populationWeight| ==> 0.0 <= populationWeight[i] <= 1.0
    requires forall i :: 0 <= i < |readinessWeight| ==> 0.0 <= readinessWeight[i] <= 1.0
    ensures forall i :: 0 <= i < |populationWeight| ==> 0.0 <= Blend(populationWeight, readinessWeight)[i] <= 1.0
  {
  }

  lemma ShareOfLargerTotal(w: real, total: int, larger: int)
    requires w >= 0.0 && 0 <= total <= larger
    ensures 0 <= Portion(w, total) <= Portion(w, larger)
  {
    MulMonotone(w, 0.0, total as real);
    MulMonotone(w, total as real, larger as real);
    TruncMonotone(w * total as real, w * larger as real);
  }

  /** Truncated shares of a total, by non-negative weights: each is
      non-negative and at most its exact share, and a larger total never gives
      a smaller share. */
  lemma AllocationEntries(weights: seq<real>, total: int, larger: int)
    requires 0 <= total <= larger
    requires forall i :: 0 <= i < |weights| ==> 0.0 <= weights[i]
    ensures forall i :: 0 <= i < |weights| ==>
      0 <= Allocate(weights, total)[i] <= Allocate(weights, larger)[i]
      && Allocate(weights, total)[i] as real <= weights[i] * total as real
  {
    forall i | 0 <= i < |weights|
      ensures 0 <= Allocate(weights, total)[i] <= Allocate(weights, larger)[i]
    {
      ShareOfLargerTotal(weights[i], total, larger);
    }
  }

  /** One truncated share against its exact value. */
  lemma PortionBounds(w: real, total: int)
    requires 0.0 <= w && 0 <= total
    ensures 0.0 <= w * total as real
    ensures Portion(w, total) as real <= w * total as real < Portion(w, total) as real + 1.0
  {
    MulMonotone(w, 0.0, total as real);
  }

  /** The exact (untruncated) share of a total. */
  function ExactShare(w: real, total: int): real
  {
    w * total as real
  }

  function ExactShares(weights: seq<real>, total: int): seq<real>
  {
    seq(|weights|, i requires 0 <= i < |weights| => ExactShare(weights[i], total))
  }

  lemma {:induction false} SumOfExactShares(weights: seq<real>, total: int)
    ensures Sum(ExactShares(weights, total)) == Sum(weights) * total as real
  {
    if weights != [] {
      var rest := weights[1..];
      SumOfExactShares(rest, total);
      assert ExactShares(weights, total)[1..] == ExactShares(rest, total);
      assert Sum(ExactShares(weights, total)) == ExactShare(weights[0], total) + Sum(ExactShares(rest, total));
      Distribute(weights[0], Sum(rest), total as real);
    }
  }

  /** Each truncated share lies in [exact - 1, exact], so their sum lies
      within one per entry below the sum of the exact shares. */
  lemma {:induction false} AllocateBelowExact(weights: seq<real>, total: int)
    requires 0 <= total
    requires forall i :: 0 <= i < |weights| ==> 0.0 <= weights[i]
    ensures IntSum(Allocate(weights, total)) as real <= Sum(ExactShares(weights, total))
    ensures weights != [] ==> Sum(ExactShares(weights, total)) < (IntSum(Allocate(weights, total)) + |weights|) as real
  {
    if weights != [] {
      var w, rest := weights[0], weights[1..];
      var portions, restPortions := Allocate(weights, total), Allocate(rest, total);
      var exact, restExact := ExactShares(weights, total), ExactShares(rest, total);
      AllocateBelowExact(rest, total);
      assert portions[1..] == restPortions;
      assert IntSum(portions) == Portion(w, total) + IntSum(restPortions);
      assert exact[1..] == restExact;
      assert Sum(exact) == ExactShare(w, total) + Sum(restExact);
      PortionBounds(w, total);
    }
  }

  lemma AllocationOfUnitWeights(weights: seq<real>, total: int)
    requires |weights| > 0 && 0 <= total
    requires Sum(weights) == 1.0
    requires forall i :: 0 <= i < |weights| ==> 0.0 <= weights[i]
    ensures IntSum(Allocate(weights, total)) as real <= total as real
    ensures total as real < (IntSum(Allocate(weights, total)) + |weights|) as real
  {
    var exact := Sum(ExactShares(weights, total));
    assert exact == total as real by {
      SumOfExactShares(weights, total);
      UnitFactor(Sum(weights), total as real);
    }
    AllocateBelowExact(weights, total);
  }

  /** By non-negative weights summing to 1, the truncated shares fall short
      of the total by less than one per entry. */
  lemma AllocationTotal(weights: seq<real>, total: int)
    requires |weights| > 0 && 0 <= total
    requires Sum(weights) == 1.0
    requires forall i :: 0 <= i < |weights| ==> 0.0 <= weights[i]
    ensures IntSum(Allocate(weights, total)) <= total
    ensures total - |weights| < IntSum(Allocate(weights, total))
  {
    AllocationOfUnitWeights(weights, total);
  }

  // ---- properties of the pipeline ----

  /** A well-formed table has every denominator positive, and every readiness
      score lies in [0.025, 1]. */
  lemma ValidDatasetAllocatable(cities: seq<CityRecord>)
    requires ValidDataset(cities)
    ensures Allocatable(cities)
    ensures MaxPopulation(cities) > 0.0 && Sum(Populations(cities)) > 0.0 && Sum(ReadinessColumn(cities)) > 0.0
    ensures forall i :: 0 <= i < |cities| ==> 0.025 <= ReadinessColumn(cities)[i] <= 1.0
  {
    var m := MaxPopulation(cities);
    assert m >= cities[0].population as real > 0.0;
    SumAtLeast(Populations(cities), 1.0);
    forall i | 0 <= i < |cities|
      ensures 0.025 <= ReadinessColumn(cities)[i] <= 1.0
    {
      ReadinessBounds(cities[i], m);
    }
    SumAtLeast(ReadinessColumn(cities), 0.025);
  }

  /** The population weights, the readiness weights and their blend each sum to 1. */
  lemma WeightsSumToOne(cities: seq<CityRecord>)
    requires Allocatable(cities)
    ensures Sum(PopulationWeights(cities)) == 1.0
    ensures Sum(ReadinessWeights(cities)) == 1.0
    ensures Sum(AllocationWeights(cities)) == 1.0
  {
    SharesSumToOne(Populations(cities), Sum(Populations(cities)));
    SharesSumToOne(ReadinessColumn(cities), Sum(ReadinessColumn(cities)));
    SumOfBlend(PopulationWeights(cities), ReadinessWeights(cities));
  }

  /** On a well-formed table every weight is a fraction in [0, 1]. */
  lemma WeightsAreFractions(cities: seq<CityRecord>)
    requires ValidDataset(cities)
    ensures Allocatable(cities)
    ensures forall i :: 0 <= i < |cities| ==>
      && 0.0 <= PopulationWeights(cities)[i] <= 1.0
      && 0.0 <= ReadinessWeights(cities)[i] <= 1.0
      && 0.0 <= AllocationWeights(cities)[i] <= 1.0
  {
    ValidDatasetAllocatable(cities);
    SharesAreFractions(Populations(cities), Sum(Populations(cities)));
    SharesAreFractions(ReadinessColumn(cities), Sum(ReadinessColumn(cities)));
    BlendOfFractions(PopulationWeights(cities), ReadinessWeights(cities));
  }

  /** Every estimate and target share is the truncation of weight times total:
      none is negative, none exceeds its exact share, each city's estimate is
      at most its target share, and the estimates (target shares) add up to
      the statewide total (target) less under one vehicle per city. */
  lemma AllocationWithinTotals(cities: seq<CityRecord>)
    requires ValidDataset(cities)
    ensures Allocatable(cities)
    ensures forall i :: 0 <= i < |cities| ==>
      && 0 <= CurrentEstimates(cities)[i] <= TargetShares(cities)[i]
      && CurrentEstimates(cities)[i] as real <= AllocationWeights(cities)[i] * EstimatedCurrentTotal as real
      && TargetShares(cities)[i] as real <= AllocationWeights(cities)[i] * StateTarget2025 as real
    ensures EstimatedCurrentTotal - |cities| < IntSum(CurrentEstimates(cities)) <= EstimatedCurrentTotal
    ensures StateTarget2025 - |cities| < IntSum(TargetShares(cities)) <= StateTarget2025
  {
    WeightsAreFractions(cities);
    WeightsSumToOne(cities);
    AllocationEntries(AllocationWeights(cities), EstimatedCurrentTotal, StateTarget2025);
    AllocationEntries(AllocationWeights(cities), StateTarget2025, StateTarget2025);
    AllocationTotal(AllocationWeights(cities), EstimatedCurrentTotal);
    AllocationTotal(AllocationWeights(cities), StateTarget2025);
  }

  /** On a well-formed table every growth rate lies in [0, 2]. */
  lemma GrowthRatesBounded(cities: seq<CityRecord>)
    requires ValidDataset(cities)
    ensures Allocatable(cities)
    ensures forall i :: 0 <= i < |cities| ==> 0.0 <= GrowthRates(cities)[i] <= 2.0
  {
    AllocationWithinTotals(cities);
    var est, tgt := CurrentEstimates(cities), TargetShares(cities);
    forall i | 0 <= i < |cities|
      ensures 0.0 <= GrowthRates(cities)[i]
    {
      if est[i] > 0 {
        GrowthRateNonNegative(est[i], tgt[i]);
      }
    }
  }

  /** On a well-formed table each city's forecasts are non-negative and never
      fall from 2025 to 2027 to 2029; the 2025 forecast is the target share
      (or three times the estimate where the cap bites); a city with a zero
      estimate is forecast zero in every year. */
  lemma ForecastsConsistent(cities: seq<CityRecord>)
    requires ValidDataset(cities)
    ensures Allocatable(cities)
    ensures Forecasts(cities).Keys == {2025, 2027, 2029}
    ensures forall i :: 0 <= i < |cities| ==>
      0 <= Forecasts(cities)[2025][i] <= Forecasts(cities)[2027][i] <= Forecasts(cities)[2029][i]
    ensures forall i :: 0 <= i < |cities| && CurrentEstimates(cities)[i] > 0 ==>
      Forecasts(cities)[2025][i]
        == if TargetShares(cities)[i] <= 3 * CurrentEstimates(cities)[i]
           then TargetShares(cities)[i] else 3 * CurrentEstimates(cities)[i]
    ensures forall i :: 0 <= i < |cities| && CurrentEstimates(cities)[i] == 0 ==>
      Forecasts(cities)[2025][i] == Forecasts(cities)[2027][i] == Forecasts(cities)[2029][i] == 0
  {
    GrowthRatesBounded(cities);
    AllocationWithinTotals(cities);
    var est, tgt, g := CurrentEstimates(cities), TargetShares(cities), GrowthRates(cities);
    ForecastYearsAfterBase();
    var f := ForecastsOf(est, g, ForecastYears);
    assert f == Forecasts(cities);
    assert f.Keys == {2025, 2027, 2029};
    forall i | 0 <= i < |cities|
      ensures 0 <= f[2025][i] <= f[2027][i] <= f[2029][i]
      ensures est[i] > 0 ==> f[2025][i] == if tgt[i] <= 3 * est[i] then tgt[i] else 3 * est[i]
      ensures est[i] == 0 ==> f[2025][i] == f[2027][i] == f[2029][i] == 0
    {
      assert f[2025][i] == Forecast(est[i], g[i], 1);
      assert f[2027][i] == Forecast(est[i], g[i], 3);
      assert f[2029][i] == Forecast(est[i], g[i], 5);
      ForecastGrowsWithHorizon(est[i], g[i], 1, 3);
      ForecastGrowsWithHorizon(est[i], g[i], 3, 5);
      if est[i] > 0 {
        ForecastFirstYear(est[i], tgt[i]);
      }
    }
  }

  // ---- a table of one city ----

  /** A lone well-formed city carries all of the weight. */
  lemma SingleCityWeights(c: CityRecord)
    requires ValidCity(c)
    ensures Allocatable([c])
    ensures PopulationWeights([c]) == [1.0]
    ensures ReadinessWeights([c]) == [1.0]
    ensures AllocationWeights([c]) == [1.0]
  {
    ValidDatasetAllocatable([c]);
    var populations, readiness := Populations([c]), ReadinessColumn([c]);
    assert populations == [populations[0]];
    assert readiness == [readiness[0]];
    WholeShare(populations[0]);
    WholeShare(readiness[0]);
  }

  /** The share of a lone value in its own total is the whole. */
  lemma WholeShare(v: real)
    requires v != 0.0
    ensures Sum([v]) == v
    ensures Shares([v], Sum([v])) == [1.0]
  {
    assert Sum([v]) == v + Sum([]);
    assert Shares([v], v)[0] == v / v == 1.0;
  }

  /** A lone city is allocated the whole statewide count and the whole target. */
  lemma SingleCityAllocation(c: CityRecord)
    requires ValidCity(c)
    ensures Allocatable([c])
    ensures CurrentEstimates([c]) == [EstimatedCurrentTotal]
    ensures TargetShares([c]) == [StateTarget2025]
  {
    SingleCityWeights(c);
    assert Portion(1.0, EstimatedCurrentTotal) == EstimatedCurrentTotal by {
      TruncOfInteger(EstimatedCurrentTotal);
    }
    assert Portion(1.0, StateTarget2025) == StateTarget2025 by {
      TruncOfInteger(StateTarget2025);
    }
  }

  /** The growth factor of the lone city is the target over the current count. */
  lemma SingleCityGrowth(c: CityRecord)
    requires ValidCity(c)
    ensures Allocatable([c])
    ensures GrowthRates([c]) == [200000.0 / 77025.0 - 1.0]
  {
    SingleCityAllocation(c);
    var g := GrowthRate(EstimatedCurrentTotal, StateTarget2025);
    assert 77025.0 * (1.0 + g) == 200000.0;
    assert GrowthRates([c])[0] == g;
  }

  /** The forecast in terms of the growth factor 1 + growth. */
  lemma ForecastOfFactor(current: int, growth: real, yearsAhead: nat, factor: real)
    requires 1.0 + growth == factor
    ensures Forecast(current, growth, yearsAhead) == Compounded(current, Pow(factor, yearsAhead))
  {
  }

  // Powers of the statewide growth factor 8000 / 3081, one step at a time.

  lemma GrowthFactorPower1()
    ensures Pow(8000.0 / 3081.0, 1) == 8000.0 / 3081.0
  {
  }

  lemma GrowthFactorPower2()
    ensures Pow(8000.0 / 3081.0, 2) == 64000000.0 / 9492561.0
  {
    GrowthFactorPower1();
  }

  lemma GrowthFactorPower3()
    ensures Pow(8000.0 / 3081.0, 3) == 512000000000.0 / 29246580441.0
  {
    GrowthFactorPower2();
  }

  lemma GrowthFactorPower4()
    ensures Pow(8000.0 / 3081.0, 4) == 4096000000000000.0 / 90108714338721.0
  {
    GrowthFactorPower3();
  }

  lemma GrowthFactorPower5()
    ensures Pow(8000.0 / 3081.0, 5) == 32768000000000000000.0 / 277624948877599401.0
  {
    GrowthFactorPower4();
  }

  /** The rate that takes the 77 025 baseline to the 200 000 target in one
      year is a factor 200000 / 77025 = 8000 / 3081; one year ahead it
      forecasts the target. */
  lemma StatewideFirstYear()
    ensures Forecast(77025, 200000.0 / 77025.0 - 1.0, 1) == 200000
  {
    ForecastOfFactor(77025, 200000.0 / 77025.0 - 1.0, 1, 8000.0 / 3081.0);
    GrowthFactorPower1();
    TruncBetween(77025.0 * (8000.0 / 3081.0), 200000);
  }

  /** Three years ahead the same baseline and rate forecast 1 348 424. */
  lemma StatewideThirdYear()
    ensures Forecast(77025, 200000.0 / 77025.0 - 1.0, 3) == 1348424
  {
    ForecastOfFactor(77025, 200000.0 / 77025.0 - 1.0, 3, 8000.0 / 3081.0);
    GrowthFactorPower3();
    TruncBetween(77025.0 * (512000000000.0 / 29246580441.0), 1348424);
  }

  /** Five years ahead they forecast 9 091 240. */
  lemma StatewideFifthYear()
    ensures Forecast(77025, 200000.0 / 77025.0 - 1.0, 5) == 9091240
  {
    ForecastOfFactor(77025, 200000.0 / 77025.0 - 1.0, 5, 8000.0 / 3081.0);
    GrowthFactorPower5();
    TruncBetween(77025.0 * (32768000000000000000.0 / 277624948877599401.0), 9091240);
  }

  /** A lone city reaches the 200 000 target in 2025 and, compounding at the
      same rate from the 77 025 baseline, 1 348 424 vehicles in 2027 and
      9 091 240 in 2029. */
  lemma SingleCityForecasts(c: CityRecord)
    requires ValidCity(c)
    ensures Allocatable([c])
    ensures Forecasts([c]) == map[2025 := [200000], 2027 := [1348424], 2029 := [9091240]]
  {
    SingleCityGrowth(c);
    SingleCityAllocation(c);
    StatewideFirstYear();
    StatewideThirdYear();
    StatewideFifthYear();
    ForecastYearsAfterBase();
    var g := 200000.0 / 77025.0 - 1.0;
    assert ForecastColumn([77025], [g], 2025) == [200000];
    assert ForecastColumn([77025], [g], 2027) == [1348424];
    assert ForecastColumn([77025], [g], 2029) == [9091240];
  }

  /** The city data frame of the source, to which the forecast columns are
      added in place, one after another. */
  class CityFrame {
    var cities: seq<CityRecord>
    var adoptionReadiness: seq<real>
    var populationWeight: seq<real>
    var readinessWeight: seq<real>
    var allocationWeight: seq<real>
    var currentEstimate: seq<int>
    var targetShare: seq<int>
    var growthRate: seq<real>
    var forecasts: map<int, seq<int>>

    constructor (cities: seq<CityRecord>)
      ensures this.cities == cities
      ensures adoptionReadiness == [] && populationWeight == [] && readinessWeight == []
      ensures allocationWeight == [] && currentEstimate == [] && targetShare == []
      ensures growthRate == [] && forecasts == map[]
    {
      this.cities := cities;
      adoptionReadiness, populationWeight, readinessWeight := [], [], [];
      allocationWeight, currentEstimate, targetShare := [], [], [];
      growthRate, forecasts := [], map[];
    }

    /** Adds Adoption_Readiness, Population_Weight, Readiness_Weight,
        Allocation_Weight, Current_EVs_Estimate, Target_Share_2025,
        Growth_Rate and one EV_Forecast column per forecast year. */
    method CalculateForecasts()
      requires Allocatable(cities)
      modifies this
      ensures cities == old(cities)
      ensures adoptionReadiness == ReadinessColumn(cities)
      ensures populationWeight == PopulationWeights(cities)
      ensures readinessWeight == ReadinessWeights(cities)
      ensures allocationWeight == AllocationWeights(cities)
      ensures currentEstimate == CurrentEstimates(cities)
      ensures targetShare == TargetShares(cities)
      ensures growthRate == GrowthRates(cities)
      ensures forecasts == old(forecasts) + Forecasts(cities)
    {
      adoptionReadiness := ReadinessColumn(cities);
      populationWeight := Shares(Populations(cities), Sum(Populations(cities)));
      readinessWeight := Shares(adoptionReadiness, Sum(adoptionReadiness));
      allocationWeight := Blend(populationWeight, readinessWeight);
      currentEstimate := Allocate(allocationWeight, EstimatedCurrentTotal);
      targetShare := Allocate(allocationWeight, StateTarget2025);
      growthRate := GrowthColumn(currentEstimate, targetShare);
      AddForecastColumns();
    }

    /** The for-year loop: one EV_Forecast column per forecast year, each
        grown from the current estimate at the city's growth rate. */
    method AddForecastColumns()
      requires |currentEstimate| == |growthRate|
      modifies this`forecasts
      ensures (ForecastYearsAfterBase(); forecasts == old(forecasts) + ForecastsOf(currentEstimate, growthRate, ForecastYears))
    {
      ForecastYearsAfterBase();
      for k := 0 to |ForecastYears|
        invariant forecasts == old(forecasts) + ForecastsOf(currentEstimate, growthRate, ForecastYears[..k])
      {
        var year := ForecastYears[k];
        ghost var done := ForecastsOf(currentEstimate, growthRate, ForecastYears[..k]);
        var column := ForecastColumn(currentEstimate, growthRate, year);
        forecasts := forecasts[year := column];
        MergeThenUpdate(old(forecasts), done, year, column);
        assert ForecastYears[..k + 1] == ForecastYears[..k] + [year];
        ForecastsOfAppend(currentEstimate, growthRate, ForecastYears[..k], year);
      }
      assert ForecastYears[..|ForecastYears|] == ForecastYears;
    }
  }
}
