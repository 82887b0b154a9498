/** `create_priority_factors_data`: five factor scores per city, their
    weighted sum, and the dense descending rank of that sum (the highest score
    gets rank 1, equal scores share a rank, and no rank is skipped). */
module Priority {
  import opened Numeric
  import opened Cities

  // ---- column maxima ----

  function MaxIncome(cities: seq<CityRecord>): real
    requires |cities| > 0
  {
    MaxOf(Incomes(cities))
  }

  function MaxHomeValue(cities: seq<CityRecord>): real
    requires |cities| > 0
  {
    MaxOf(HomeValues(cities))
  }

  function MaxDistance(cities: seq<CityRecord>): real
    requires |cities| > 0
  {
    MaxOf(Distances(cities))
  }

  /** The four maxima the factors are divided by are non-zero. */
  predicate Rankable(cities: seq<CityRecord>)
  {
    && |cities| > 0
    && MaxIncome(cities) != 0.0
    && MaxHomeValue(cities) != 0.0
    && MaxDistance(cities) != 0.0
    && MaxPopulation(cities) != 0.0
  }

  /** A well-formed table need not be rankable: Boston alone has maximum
      distance 0, the divisor of the infrastructure score. */
  lemma BostonAloneNotRankable()
    ensures ValidDataset([Boston])
    ensures MaxDistance([Boston]) == 0.0
    ensures !Rankable([Boston])
  {
    assert Distances([Boston]) == [0.0];
  }

  // ---- factor scores ----

  datatype PriorityFactors = PriorityFactors(
    economic: real,        // Economic_Score
    education: real,       // Education_Score
    infrastructure: real,  // Infrastructure_Score
    marketSize: real,      // Market_Size_Score
    transport: real        // Transport_Score
  )

  /** The five factors of one city, against the column maxima. Each factor
      lies in [0, 1] once the values it is built from lie between 0 and their
      maximum (or 100%). */
  function Factors(c: CityRecord, maxIncome: real, maxHomeValue: real, maxDistance: real, maxPopulation: real): (f: PriorityFactors)
    requires maxIncome != 0.0 && maxHomeValue != 0.0 && maxDistance != 0.0 && maxPopulation != 0.0
    ensures 0.0 <= c.medianIncome <= maxIncome && 0.0 <= c.medianHomeValue <= maxHomeValue
      ==> InUnitInterval(f.economic)
    ensures IsPercentage(c.bachelorDegreePct) ==> InUnitInterval(f.education)
    ensures IsPercentage(c.singleFamilyPct) && 0.0 <= c.distanceFromBoston <= maxDistance
      ==> InUnitInterval(f.infrastructure)
    ensures 0 <= c.population && c.population as real <= maxPopulation ==> InUnitInterval(f.marketSize)
    ensures IsPercentage(c.driveAlonePct) ==> InUnitInterval(f.transport)
  {
    BoundedFraction(c.medianIncome, maxIncome);
    BoundedFraction(c.medianHomeValue, maxHomeValue);
    PriorityFactors(
      (c.medianIncome / maxIncome) * 0.6 + (c.medianHomeValue / maxHomeValue) * 0.4,
      c.bachelorDegreePct / 100.0,
      (c.singleFamilyPct / 100.0) * 0.6 + (1.0 - c.distanceFromBoston / maxDistance) * 0.4,
      c.population as real / maxPopulation,
      c.driveAlonePct / 100.0)
  }

  lemma BoundedFraction(x: real, t: real)
    requires t != 0.0
    ensures 0.0 <= x <= t ==> 0.0 <= x / t <= 1.0
  {
    if 0.0 <= x <= t {
      FractionOf(x, t);
    }
  }

  /** Priority_Score: 25% economic, 20% each education, infrastructure and
      market size, 15% transport. */
  function PriorityScore(f: PriorityFactors): (s: real)
    ensures FactorsInUnitInterval(f) ==> InUnitInterval(s)
  {
    f.economic * 0.25 + f.education * 0.20 + f.infrastructure * 0.20 + f.marketSize * 0.20 + f.transport * 0.15
  }

  predicate InUnitInterval(x: real)
  {
    0.0 <= x <= 1.0
  }

  predicate FactorsInUnitInterval(f: PriorityFactors)
  {
    && InUnitInterval(f.economic)
    && InUnitInterval(f.education)
    && InUnitInterval(f.infrastructure)
    && InUnitInterval(f.marketSize)
    && InUnitInterval(f.transport)
  }

  /** Every factor of a well-formed city, against maxima no smaller than the
      city's own values, lies in [0, 1], and so does the priority score. */
  lemma FactorBounds(c: CityRecord, maxIncome: real, maxHomeValue: real, maxDistance: real, maxPopulation: real)
    requires ValidCity(c)
    requires maxIncome != 0.0 && maxHomeValue != 0.0 && maxDistance != 0.0 && maxPopulation != 0.0
    requires c.medianIncome <= maxIncome && c.medianHomeValue <= maxHomeValue
    requires c.distanceFromBoston <= maxDistance && c.population as real <= maxPopulation
    ensures FactorsInUnitInterval(Factors(c, maxIncome, maxHomeValue, maxDistance, maxPopulation))
    ensures InUnitInterval(PriorityScore(Factors(c, maxIncome, maxHomeValue, maxDistance, maxPopulation)))
  {
    FractionOf(c.medianIncome, maxIncome);
    FractionOf(c.medianHomeValue, maxHomeValue);
    FractionOf(c.distanceFromBoston, maxDistance);
    FractionOf(c.population as real, maxPopulation);
  }

  function FactorsOf(cities: seq<CityRecord>, i: int): PriorityFactors
    requires Rankable(cities) && 0 <= i < |cities|
  {
    Factors(cities[i], MaxIncome(cities), MaxHomeValue(cities), MaxDistance(cities), MaxPopulation(cities))
  }

  function PriorityScores(cities: seq<CityRecord>): seq<real>
    requires Rankable(cities)
  {
    seq(|cities|, i requires 0 <= i < |cities| => PriorityScore(FactorsOf(cities, i)))
  }

  // ---- dense ranking ----

  /** The distinct values of a column. */
  function Distinct(scores: seq<real>): set<real>
  {
    set x | x in scores
  }

  /** The distinct values strictly greater than v. */
  function Above(scores: seq<real>, v: real): set<real>
  {
    set x | x in scores && x > v
  }

  /** `rank(ascending=False, method='dense')`: one more than the number of
      distinct scores above this one. */
  function DenseRank(scores: seq<real>, i: int): (r: int)
    requires 0 <= i < |scores|
    ensures r >= 1
  {
    1 + |Above(scores, scores[i])|
  }

  function DenseRanks(scores: seq<real>): seq<int>
  {
    seq(|scores|, i requires 0 <= i < |scores| => DenseRank(scores, i))
  }

  /** A strictly higher score gets a strictly smaller rank, equal scores share
      a rank, and conversely. */
  lemma RankOrder(scores: seq<real>, i: int, j: int)
    requires 0 <= i < |scores| && 0 <= j < |scores|
    ensures scores[i] > scores[j] <==> DenseRank(scores, i) < DenseRank(scores, j)
    ensures scores[i] == scores[j] <==> DenseRank(scores, i) == DenseRank(scores, j)
  {
    if scores[i] > scores[j] {
      StrictlyFewerAbove(scores, i, j);
    } else if scores[j] > scores[i] {
      StrictlyFewerAbove(scores, j, i);
    }
  }

  lemma StrictlyFewerAbove(scores: seq<real>, i: int, j: int)
    requires 0 <= i < |scores| && 0 <= j < |scores|
    requires scores[i] > scores[j]
    ensures |Above(scores, scores[i])| < |Above(scores, scores[j])|
  {
    var hi, lo := Above(scores, scores[i]), Above(scores, scores[j]);
    assert scores[i] in lo - hi;
    assert hi <= lo;
    assert lo == hi + (lo - hi);
    assert |lo - hi| >= 1;
  }

  /** Rank 1 is exactly the maximum score. */
  lemma TopScoreRankOne(scores: seq<real>, i: int)
    requires 0 <= i < |scores|
    ensures DenseRank(scores, i) == 1 <==> forall j :: 0 <= j < |scores| ==> scores[j] <= scores[i]
  {
    if DenseRank(scores, i) == 1 {
      assert Above(scores, scores[i]) == {};
      forall j | 0 <= j < |scores|
        ensures scores[j] <= scores[i]
      {
        assert scores[j] !in Above(scores, scores[i]);
      }
    } else {
      var x :| x in Above(scores, scores[i]);
      var j :| 0 <= j < |scores| && scores[j] == x;
      assert scores[j] > scores[i];
    }
  }

  /** No rank exceeds the number of distinct scores. */
  lemma RankBound(scores: seq<real>, i: int)
    requires 0 <= i < |scores|
    ensures DenseRank(scores, i) <= |Distinct(scores)|
  {
    var above := Above(scores, scores[i]);
    assert above + {scores[i]} <= Distinct(scores);
    assert scores[i] !in above;
    var below := Distinct(scores) - (above + {scores[i]});
    assert Distinct(scores) == (above + {scores[i]}) + below;
    assert (above + {scores[i]}) * below == {};
    assert |above + {scores[i]}| == |above| + 1;
  }

  /** The lowest score gets the largest rank, the number of distinct scores. */
  lemma LowestScoreRank(scores: seq<real>, i: int)
    requires 0 <= i < |scores|
    requires forall j :: 0 <= j < |scores| ==> scores[i] <= scores[j]
    ensures DenseRank(scores, i) == |Distinct(scores)|
  {
    assert Above(scores, scores[i]) == Distinct(scores) - {scores[i]};
  }

  /** An index of the least score above v, given that some score is above v. */
  lemma LeastAbove(scores: seq<real>, v: real, k: int) returns (j: int)
    requires 0 <= k < |scores| && scores[k] > v
    ensures 0 <= j < |scores| && scores[j] > v
    ensures forall i :: 0 <= i < |scores| && scores[i] > v ==> scores[j] <= scores[i]
  {
    j := k;
    for i := 0 to |scores|
      invariant 0 <= j < |scores| && scores[j] > v
      invariant forall t :: 0 <= t < i && scores[t] > v ==> scores[j] <= scores[t]
    {
      if scores[i] > v && scores[i] < scores[j] {
        j := i;
      }
    }
  }

  /** An index of the lowest score of a non-empty column. */
  lemma Lowest(scores: seq<real>) returns (j: int)
    requires |scores| > 0
    ensures 0 <= j < |scores|
    ensures forall i :: 0 <= i < |scores| ==> scores[j] <= scores[i]
  {
    j := 0;
    for i := 0 to |scores|
      invariant 0 <= j < |scores|
      invariant forall t :: 0 <= t < i ==> scores[j] <= scores[t]
    {
      if scores[i] < scores[j] {
        j := i;
      }
    }
  }

  /** Ranks have no gaps: below every rank but the first there is a score one rank up. */
  lemma RankGapless(scores: seq<real>, i: int) returns (j: int)
    requires 0 <= i < |scores| && DenseRank(scores, i) > 1
    ensures 0 <= j < |scores| && DenseRank(scores, j) == DenseRank(scores, i) - 1
  {
    var above := Above(scores, scores[i]);
    var x :| x in above;
    var k :| 0 <= k < |scores| && scores[k] == x;
    j := LeastAbove(scores, scores[i], k);
    var m := scores[j];
    assert Above(scores, m) == above - {m};
  }

  /** Every rank from 1 to the number of distinct scores is taken. */
  lemma RankAttained(scores: seq<real>, r: int) returns (i: int)
    requires 1 <= r <= |Distinct(scores)|
    ensures 0 <= i < |scores| && DenseRank(scores, i) == r
    decreases |Distinct(scores)| - r
  {
    if r == |Distinct(scores)| {
      i := Lowest(scores);
      LowestScoreRank(scores, i);
    } else {
      var k := RankAttained(scores, r + 1);
      i := RankGapless(scores, k);
    }
  }

  /** The ranks are exactly 1 through the number of distinct scores: each
      lies in that range and each number in it is some score's rank. */
  lemma RanksAreOneToDistinctCount(scores: seq<real>)
    ensures forall i :: 0 <= i < |scores| ==> 1 <= DenseRanks(scores)[i] <= |Distinct(scores)|
    ensures forall r :: 1 <= r <= |Distinct(scores)| ==> r in DenseRanks(scores)
  {
    var ranks := DenseRanks(scores);
    forall r | 1 <= r <= |Distinct(scores)|
      ensures r in ranks
    {
      var i := RankAttained(scores, r);
      assert ranks[i] == r;
    }
    forall i | 0 <= i < |scores|
      ensures ranks[i] <= |Distinct(scores)|
    {
      RankBound(scores, i);
    }
  }

  // ---- the priority table ----

  datatype PriorityRow = PriorityRow(city: CityRecord, factors: PriorityFactors, score: real, rank: int)

  /** The copied city table with the factor, score and rank columns added. */
  function PriorityTable(cities: seq<CityRecord>): (table: seq<PriorityRow>)
    requires Rankable(cities)
    ensures |table| == |cities|
    ensures forall i :: 0 <= i < |cities| ==> table[i].city == cities[i]
  {
    var scores := PriorityScores(cities);
    seq(|cities|, i requires 0 <= i < |cities| =>
      PriorityRow(cities[i], FactorsOf(cities, i), scores[i], DenseRank(scores, i)))
  }

  /** On a well-formed table every factor and every score lies in [0, 1], and
      a higher score always means a smaller (better) rank. */
  lemma PriorityTableProperties(cities: seq<CityRecord>)
    requires ValidDataset(cities) && Rankable(cities)
    ensures forall i :: 0 <= i < |cities| ==>
      FactorsInUnitInterval(PriorityTable(cities)[i].factors) && InUnitInterval(PriorityTable(cities)[i].score)
    ensures forall i, j :: 0 <= i < |cities| && 0 <= j < |cities| ==>
      (PriorityTable(cities)[i].score > PriorityTable(cities)[j].score <==>
       PriorityTable(cities)[i].rank < PriorityTable(cities)[j].rank)
  {
    var table := PriorityTable(cities);
    var scores := PriorityScores(cities);
    forall i | 0 <= i < |cities|
      ensures FactorsInUnitInterval(table[i].factors) && InUnitInterval(table[i].score)
    {
      assert Incomes(cities)[i] == cities[i].medianIncome;
      assert HomeValues(cities)[i] == cities[i].medianHomeValue;
      assert Distances(cities)[i] == cities[i].distanceFromBoston;
      FactorBounds(cities[i], MaxIncome(cities), MaxHomeValue(cities), MaxDistance(cities), MaxPopulation(cities));
    }
    forall i, j | 0 <= i < |cities| && 0 <= j < |cities|
      ensures table[i].score > table[j].score <==> table[i].rank < table[j].rank
    {
      RankOrder(scores, i, j);
    }
  }
}
