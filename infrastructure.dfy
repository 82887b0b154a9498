/** `create_infrastructure_data`: a charging-infrastructure score and a
    grid-capacity score per city, their 60/40 blend as the infrastructure
    readiness, and its category; plus `categorize_investment`, which pairs
    that readiness with the 2029 forecast. */
module Infrastructure {
  import opened Numeric
  import opened Cities

  /** The public-charging potential of each urban class. */
  function UrbanChargingScore(u: UrbanClass): real
  {
    match u
    case UrbanCore => 0.9
    case Urban => 0.7
    case Suburban => 0.5
  }

  /** calculate_charging_score: 40% home charging (the single-family share),
      40% public-charging potential, 20% distance score (floored at 0.3).
      With a single-family share of at most 100% and a non-negative distance
      it is at most 0.96; with a non-negative share it is at least 0.26. */
  function ChargingScore(c: CityRecord): (r: real)
    ensures c.singleFamilyPct >= 0.0 ==> r >= 0.26
    ensures c.singleFamilyPct <= 100.0 && c.distanceFromBoston >= 0.0 ==> r <= 0.96
  {
    var homeCharging := c.singleFamilyPct / 100.0;
    var distanceScore := Max(0.3, 1.0 - c.distanceFromBoston / 100.0);
    homeCharging * 0.4 + UrbanChargingScore(c.urbanClass) * 0.4 + distanceScore * 0.2
  }

  /** calculate_grid_capacity: 50% income capacity (income over $100k, at
      most 1), 30% distance factor (floored at 0.4), 20% the spare capacity
      left by the population demand (population over 100 000, at most 1);
      the sum at most 1. */
  function GridCapacity(c: CityRecord): (r: real)
    ensures r <= 1.0
  {
    var populationDemand := c.population as real / 100000.0;
    var economicCapacity := Min(c.medianIncome / 100000.0, 1.0);
    var distanceFactor := Max(0.4, 1.0 - c.distanceFromBoston / 100.0);
    var gridReadiness := economicCapacity * 0.5 + distanceFactor * 0.3 + (1.0 - Min(populationDemand, 1.0)) * 0.2;
    Min(gridReadiness, 1.0)
  }

  /** Infrastructure_Readiness: 60% charging, 40% grid; under the same
      hypotheses as the charging bound it is at most 0.976. */
  function InfrastructureReadiness(c: CityRecord): (r: real)
    ensures c.singleFamilyPct <= 100.0 && c.distanceFromBoston >= 0.0 ==> r <= 0.976
  {
    ChargingScore(c) * 0.6 + GridCapacity(c) * 0.4
  }

  /** On a well-formed city both scores and their blend lie inside [0, 1]:
      charging in [0.26, 0.96], grid in [0.12, 1], readiness in [0.204, 0.976]. */
  lemma ScoreBounds(c: CityRecord)
    requires ValidCity(c)
    ensures 0.26 <= ChargingScore(c) <= 0.96
    ensures 0.12 <= GridCapacity(c) <= 1.0
    ensures 0.204 <= InfrastructureReadiness(c) <= 0.976
  {
  }

  /** Moving a city farther from Boston never raises any of its scores. */
  lemma ScoresFallWithDistance(c: CityRecord, farther: real)
    requires c.distanceFromBoston <= farther
    ensures ChargingScore(c.(distanceFromBoston := farther)) <= ChargingScore(c)
    ensures GridCapacity(c.(distanceFromBoston := farther)) <= GridCapacity(c)
    ensures InfrastructureReadiness(c.(distanceFromBoston := farther)) <= InfrastructureReadiness(c)
  {
  }

  /** A larger single-family share never lowers the readiness; a higher
      income never lowers the grid score. */
  lemma ScoresRiseWithHomesAndIncome(c: CityRecord, moreHomes: real, moreIncome: real)
    requires c.singleFamilyPct <= moreHomes && c.medianIncome <= moreIncome
    ensures InfrastructureReadiness(c) <= InfrastructureReadiness(c.(singleFamilyPct := moreHomes))
    ensures GridCapacity(c) <= GridCapacity(c.(medianIncome := moreIncome))
  {
  }

  datatype ReadinessCategory = HighReadiness | MediumReadiness | LowReadiness

  /** categorize_infrastructure: high from 0.75, medium from 0.5, else low. */
  function CategorizeInfrastructure(score: real): (c: ReadinessCategory)
    ensures c == HighReadiness <==> score >= 0.75
    ensures c == MediumReadiness <==> 0.5 <= score < 0.75
    ensures c == LowReadiness <==> score < 0.5
  {
    if score >= 0.75 then HighReadiness
    else if score >= 0.5 then MediumReadiness
    else LowReadiness
  }

  function ReadinessLabel(c: ReadinessCategory): string
  {
    match c
    case HighReadiness => "High Readiness"
    case MediumReadiness => "Medium Readiness"
    case LowReadiness => "Low Readiness"
  }

  datatype InfrastructureRow = InfrastructureRow(
    city: CityRecord,
    chargingScore: real,
    gridCapacityScore: real,
    readiness: real,
    category: ReadinessCategory
  )

  function AssessInfrastructure(c: CityRecord): InfrastructureRow
  {
    var readiness := InfrastructureReadiness(c);
    InfrastructureRow(c, ChargingScore(c), GridCapacity(c), readiness, CategorizeInfrastructure(readiness))
  }

  /** The copied city table with the infrastructure columns added. */
  function InfrastructureTable(cities: seq<CityRecord>): (table: seq<InfrastructureRow>)
    ensures |table| == |cities|
    ensures forall i :: 0 <= i < |cities| ==> table[i].city == cities[i]
  {
    seq(|cities|, i requires 0 <= i < |cities| => AssessInfrastructure(cities[i]))
  }

  /** On a well-formed table the readiness is the 60/40 blend of the two
      scores, stays inside [0.204, 0.976], and no city reaches high readiness
      without a charging score of at least 0.5. */
  lemma InfrastructureTableProperties(cities: seq<CityRecord>)
    requires ValidDataset(cities)
    ensures forall i :: 0 <= i < |cities| ==>
      var row := InfrastructureTable(cities)[i];
      && row.readiness == row.chargingScore * 0.6 + row.gridCapacityScore * 0.4
      && 0.204 <= row.readiness <= 0.976
      && (row.category == HighReadiness ==> row.chargingScore >= 0.5)
  {
    forall i | 0 <= i < |cities|
      ensures 0.204 <= InfrastructureTable(cities)[i].readiness <= 0.976
    {
      ScoreBounds(cities[i]);
    }
  }

  /** Boston: charging 0.6368, grid 0.773775 (its population saturates the
      demand term), readiness 0.69159, medium readiness. */
  lemma BostonInfrastructure()
    ensures AssessInfrastructure(Boston)
      == InfrastructureRow(Boston, 0.6368, 0.773775, 0.69159, MediumReadiness)
  {
  }

  // ---- categorize_investment ----

  datatype InvestmentCategory = Critical | HighPriority | MediumPriority | LowPriority

  /** Low readiness (under 0.5) and high demand (a 2029 forecast over 2000)
      together are critical; low readiness alone is high priority; high
      demand alone is medium priority; neither is low priority. */
  function CategorizeInvestment(readiness: real, forecast2029: int): (c: InvestmentCategory)
    ensures c == Critical <==> readiness < 0.5 && forecast2029 > 2000
    ensures c == HighPriority <==> readiness < 0.5 && forecast2029 <= 2000
    ensures c == MediumPriority <==> readiness >= 0.5 && forecast2029 > 2000
    ensures c == LowPriority <==> readiness >= 0.5 && forecast2029 <= 2000
  {
    if readiness < 0.5 && forecast2029 > 2000 then Critical
    else if readiness < 0.5 then HighPriority
    else if forecast2029 > 2000 then MediumPriority
    else LowPriority
  }

  function InvestmentLabel(c: InvestmentCategory): string
  {
    match c
    case Critical => "Critical - High Demand, Low Readiness"
    case HighPriority => "High Priority - Low Readiness"
    case MediumPriority => "Medium Priority - High Demand"
    case LowPriority => "Low Priority - Adequate Readiness"
  }

  /** Low investment priority goes only to cities rated at least medium
      infrastructure readiness, and critical only to cities rated low. */
  lemma InvestmentAgreesWithReadinessCategory(readiness: real, forecast2029: int)
    ensures CategorizeInvestment(readiness, forecast2029) in {Critical, HighPriority}
      <==> CategorizeInfrastructure(readiness) == LowReadiness
  {
  }
}
