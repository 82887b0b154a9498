/** `create_risk_assessment_matrix`: four risk levels per city on a 1-3 scale
    (3 is the highest risk), their sum on a 4-12 scale, and a category. */
module Risk {
  import opened Cities

  /** assess_economic_risk: high below $50k, medium below $75k, else low. */
  function EconomicRisk(income: real): (r: int)
    ensures 1 <= r <= 3
    ensures r == 3 <==> income < 50000.0
    ensures r == 1 <==> income >= 75000.0
  {
    if income < 50000.0 then 3
    else if income < 75000.0 then 2
    else 1
  }

  /** assess_demographic_risk: high below 25% with a bachelor's degree,
      medium below 45%, else low. */
  function DemographicRisk(educationPct: real): (r: int)
    ensures 1 <= r <= 3
    ensures r == 3 <==> educationPct < 25.0
    ensures r == 1 <==> educationPct >= 45.0
  {
    if educationPct < 25.0 then 3
    else if educationPct < 45.0 then 2
    else 1
  }

  /** assess_market_risk: high where transit use is over 20% and fewer than
      half drive alone; medium where transit use is over 10% or fewer than
      70% drive alone; else low. */
  function MarketRisk(transitPct: real, driveAlonePct: real): (r: int)
    ensures 1 <= r <= 3
    ensures r == 3 <==> transitPct > 20.0 && driveAlonePct < 50.0
    ensures r == 1 <==> transitPct <= 10.0 && driveAlonePct >= 70.0
  {
    if transitPct > 20.0 && driveAlonePct < 50.0 then 3
    else if transitPct > 10.0 || driveAlonePct < 70.0 then 2
    else 1
  }

  /** How many of the flags are set. */
  function CountSet(flags: seq<bool>): (n: int)
    ensures 0 <= n <= |flags|
  {
    if flags == [] then 0 else (if flags[0] then 1 else 0) + CountSet(flags[1..])
  }

  lemma CountSetOfThree(a: bool, b: bool, c: bool)
    ensures CountSet([a, b, c]) == (if a then 1 else 0) + (if b then 1 else 0) + (if c then 1 else 0)
  {
    assert [a, b, c][1..] == [b, c];
    assert [b, c][1..] == [c];
    assert [c][1..] == [];
    assert CountSet([c]) == (if c then 1 else 0) + CountSet([]);
    assert CountSet([b, c]) == (if b then 1 else 0) + CountSet([c]);
  }

  /** The infrastructure barriers, in the order the source checks them:
      under 30% single-family homes (little home charging), over 40 miles
      from Boston, an urban core. */
  function Barriers(singleFamilyPct: real, distance: real, urbanClass: UrbanClass): seq<bool>
  {
    [singleFamilyPct < 30.0, distance > 40.0, urbanClass == UrbanCore]
  }

  /** The infrastructure risk level: one more than the number of barriers,
      at most 3. */
  function InfrastructureRisk(singleFamilyPct: real, distance: real, urbanClass: UrbanClass): int
  {
    var n := CountSet(Barriers(singleFamilyPct, distance, urbanClass));
    if n + 1 <= 3 then n + 1 else 3
  }

  /** assess_infrastructure_risk: a counter raised once per barrier, then
      shifted onto the 1-3 scale. */
  method AssessInfrastructureRisk(singleFamilyPct: real, distance: real, urbanClass: UrbanClass) returns (r: int)
    ensures r == InfrastructureRisk(singleFamilyPct, distance, urbanClass)
    ensures 1 <= r <= 3
  {
    CountSetOfThree(singleFamilyPct < 30.0, distance > 40.0, urbanClass == UrbanCore);
    var riskScore := 0;
    if singleFamilyPct < 30.0 {
      riskScore := riskScore + 1;
    }
    if distance > 40.0 {
      riskScore := riskScore + 1;
    }
    if urbanClass == UrbanCore {
      riskScore := riskScore + 1;
    }
    r := if riskScore + 1 <= 3 then riskScore + 1 else 3;
  }

  /** The infrastructure level is 1 exactly when there is no barrier and 3
      exactly when there are at least two. */
  lemma InfrastructureRiskLevels(singleFamilyPct: real, distance: real, urbanClass: UrbanClass)
    ensures 1 <= InfrastructureRisk(singleFamilyPct, distance, urbanClass) <= 3
    ensures InfrastructureRisk(singleFamilyPct, distance, urbanClass) == 1
      <==> singleFamilyPct >= 30.0 && distance <= 40.0 && urbanClass != UrbanCore
    ensures InfrastructureRisk(singleFamilyPct, distance, urbanClass) == 3
      <==> || (singleFamilyPct < 30.0 && distance > 40.0)
           || (singleFamilyPct < 30.0 && urbanClass == UrbanCore)
           || (distance > 40.0 && urbanClass == UrbanCore)
  {
    CountSetOfThree(singleFamilyPct < 30.0, distance > 40.0, urbanClass == UrbanCore);
  }

  /** A richer or better-educated city never has a higher economic or
      demographic risk. */
  lemma RiskFallsWithIncomeAndEducation(i1: real, i2: real, e1: real, e2: real)
    requires i1 <= i2 && e1 <= e2
    ensures EconomicRisk(i2) <= EconomicRisk(i1)
    ensures DemographicRisk(e2) <= DemographicRisk(e1)
  {
  }

  /** categorize_risk on the overall score. */
  datatype RiskCategory = HighRisk | MediumRisk | LowRisk

  function CategorizeRisk(score: int): (c: RiskCategory)
    ensures c == HighRisk <==> score >= 10
    ensures c == MediumRisk <==> 7 <= score < 10
    ensures c == LowRisk <==> score < 7
  {
    if score >= 10 then HighRisk
    else if score >= 7 then MediumRisk
    else LowRisk
  }

  function RiskLabel(c: RiskCategory): string
  {
    match c
    case HighRisk => "High Risk"
    case MediumRisk => "Medium Risk"
    case LowRisk => "Low Risk"
  }

  datatype RiskRow = RiskRow(
    city: CityRecord,
    economicRisk: int,
    infrastructureRisk: int,
    demographicRisk: int,
    marketRisk: int,
    overallRiskScore: int,
    category: RiskCategory
  )

  function AssessCity(c: CityRecord): RiskRow
  {
    var economic := EconomicRisk(c.medianIncome);
    var infrastructure := InfrastructureRisk(c.singleFamilyPct, c.distanceFromBoston, c.urbanClass);
    var demographic := DemographicRisk(c.bachelorDegreePct);
    var market := MarketRisk(c.publicTransitPct, c.driveAlonePct);
    var overall := economic + infrastructure + demographic + market;
    RiskRow(c, economic, infrastructure, demographic, market, overall, CategorizeRisk(overall))
  }

  /** The copied city table with the four risk columns, the overall score
      and the category added. */
  function RiskMatrix(cities: seq<CityRecord>): (table: seq<RiskRow>)
    ensures |table| == |cities|
    ensures forall i :: 0 <= i < |cities| ==> table[i].city == cities[i]
  {
    seq(|cities|, i requires 0 <= i < |cities| => AssessCity(cities[i]))
  }

  /** Every level is on the 1-3 scale, the overall score is their sum on the
      4-12 scale, and the category follows the 10 and 7 thresholds. */
  lemma RiskMatrixProperties(cities: seq<CityRecord>)
    ensures forall i :: 0 <= i < |cities| ==>
      var row := RiskMatrix(cities)[i];
      && 1 <= row.economicRisk <= 3
      && 1 <= row.infrastructureRisk <= 3
      && 1 <= row.demographicRisk <= 3
      && 1 <= row.marketRisk <= 3
      && row.overallRiskScore == row.economicRisk + row.infrastructureRisk + row.demographicRisk + row.marketRisk
      && 4 <= row.overallRiskScore <= 12
      && (row.category == HighRisk <==> row.overallRiskScore >= 10)
      && (row.category == LowRisk <==> row.overallRiskScore < 7)
  {
    forall i | 0 <= i < |cities|
      ensures 1 <= RiskMatrix(cities)[i].infrastructureRisk <= 3
    {
      var c := cities[i];
      InfrastructureRiskLevels(c.singleFamilyPct, c.distanceFromBoston, c.urbanClass);
    }
  }

  /** Boston: low economic and demographic risk, every infrastructure
      barrier but distance, high market risk; 8 overall, medium risk. */
  lemma BostonRisk()
    ensures AssessCity(Boston) == RiskRow(Boston, 1, 3, 1, 3, 8, MediumRisk)
  {
    InfrastructureRiskLevels(Boston.singleFamilyPct, Boston.distanceFromBoston, Boston.urbanClass);
  }
}
