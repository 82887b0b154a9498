/** The per-city table the engine scores: one record per municipality, with
    the columns of the source's city data frame. */
module Cities {
  import opened Numeric

  /** The `Urban_Classification` column: 'Urban Core', 'Urban' or 'Suburban'. */
  datatype UrbanClass = UrbanCore | Urban | Suburban

  datatype CityRecord = CityRecord(
    name: string,
    population: int,          // Population_2024
    medianIncome: real,       // Median_Income
    bachelorDegreePct: real,  // Bachelor_Degree_Pct
    driveAlonePct: real,      // Drive_Alone_Pct
    singleFamilyPct: real,    // Single_Family_Pct
    medianHomeValue: real,    // Median_Home_Value
    publicTransitPct: real,   // Public_Transit_Pct
    urbanClass: UrbanClass,   // Urban_Classification
    distanceFromBoston: real  // Distance_from_Boston, in miles
  )

  predicate IsPercentage(p: real)
  {
    0.0 <= p <= 100.0
  }

  /** A well-formed record: a positive population, non-negative money and
      distance, and every share a percentage. */
  predicate ValidCity(c: CityRecord)
  {
    && c.population > 0
    && c.medianIncome >= 0.0
    && c.medianHomeValue >= 0.0
    && c.distanceFromBoston >= 0.0
    && IsPercentage(c.bachelorDegreePct)
    && IsPercentage(c.driveAlonePct)
    && IsPercentage(c.singleFamilyPct)
    && IsPercentage(c.publicTransitPct)
  }

  predicate ValidDataset(cities: seq<CityRecord>)
  {
    |cities| > 0 && forall i :: 0 <= i < |cities| ==> ValidCity(cities[i])
  }

  // ---- columns as float series ----

  function Populations(cities: seq<CityRecord>): seq<real>
  {
    seq(|cities|, i requires 0 <= i < |cities| => cities[i].population as real)
  }

  function Incomes(cities: seq<CityRecord>): seq<real>
  {
    seq(|cities|, i requires 0 <= i < |cities| => cities[i].medianIncome)
  }

  function HomeValues(cities: seq<CityRecord>): seq<real>
  {
    seq(|cities|, i requires 0 <= i < |cities| => cities[i].medianHomeValue)
  }

  function Distances(cities: seq<CityRecord>): seq<real>
  {
    seq(|cities|, i requires 0 <= i < |cities| => cities[i].distanceFromBoston)
  }

  /** `cities_df['Population_2024'].max()`. */
  function MaxPopulation(cities: seq<CityRecord>): (m: real)
    requires |cities| > 0
    ensures forall i :: 0 <= i < |cities| ==> cities[i].population as real <= m
    ensures exists i :: 0 <= i < |cities| && cities[i].population as real == m
  {
    var m := MaxOf(Populations(cities));
    assert m in Populations(cities);
    assert forall i :: 0 <= i < |cities| ==> Populations(cities)[i] == cities[i].population as real;
    m
  }

  /** The first row of the source's table, Boston, as a concrete record. */
  const Boston := CityRecord("Boston", 653833, 94755.0, 47.2, 39.2, 19.2, 710400.0, 33.7, UrbanCore, 0.0)
}
