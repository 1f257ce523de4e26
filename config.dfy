/**
 * The reference tables of backend/config.py: optimal and critical ranges
 * per parameter, the health-status and anomaly-severity bands, and the
 * environment-name lookup of the configuration class.
 */
module Config {
  import opened Wrappers
  import opened Soil

  /** One entry of OPTIMAL_RANGES. */
  datatype RangeSpec = RangeSpec(min: real, max: real, unit: string, description: string,
                                 criticalMin: real, criticalMax: real)

  const OptimalRanges: map<string, RangeSpec> := map[
    "N" := RangeSpec(15.0, 30.0, "mg/kg", "Nitrogen - Essential for plant growth", 10.0, 40.0),
    "P" := RangeSpec(10.0, 25.0, "mg/kg", "Phosphorus - Important for root development", 5.0, 35.0),
    "K" := RangeSpec(100.0, 200.0, "mg/kg", "Potassium - Vital for plant health", 50.0, 300.0),
    "CO2" := RangeSpec(400.0, 600.0, "ppm", "Carbon Dioxide - Affects soil respiration", 300.0, 800.0),
    "Temperature" := RangeSpec(15.0, 25.0, "°C", "Soil Temperature - Affects microbial activity", 10.0, 30.0),
    "Moisture" := RangeSpec(40.0, 60.0, "%", "Soil Moisture - Critical for nutrient availability", 30.0, 70.0),
    "pH" := RangeSpec(6.5, 7.5, "pH", "pH - Affects nutrient availability", 6.0, 8.0)
  ]

  /** The seven field names, as a set. */
  const ParamNames: set<string> := {"N", "P", "K", "CO2", "Temperature", "Moisture", "pH"}

  lemma ParamNamesAreFieldNames()
    ensures ParamNames == set q: Param | true :: FieldName(q)
  {
    var keys := set q: Param | true :: FieldName(q);
    assert FieldName(N) in keys && FieldName(P) in keys && FieldName(K) in keys;
    assert FieldName(CO2) in keys && FieldName(Temperature) in keys;
    assert FieldName(Moisture) in keys && FieldName(PH) in keys;
  }

  /** The table has exactly the seven parameter keys. */
  lemma OptimalRangesKeys()
    ensures OptimalRanges.Keys == set q: Param | true :: FieldName(q)
  {
    ParamNamesAreFieldNames();
    assert OptimalRanges.Keys == ParamNames;
  }

  function RangeOf(q: Param): (s: RangeSpec)
    ensures FieldName(q) in OptimalRanges && s == OptimalRanges[FieldName(q)]
  {
    OptimalRanges[FieldName(q)]
  }

  /** For every parameter: critical_min < min < max < critical_max. */
  lemma RangesNested(q: Param)
    ensures RangeOf(q).criticalMin < RangeOf(q).min < RangeOf(q).max < RangeOf(q).criticalMax
  {
  }

  /** HEALTH_STATUS_THRESHOLDS: status name to its inclusive integer band. */
  const HealthStatusThresholds: map<string, (int, int)> := map[
    "Excellent" := (75, 100),
    "Good" := (60, 74),
    "Fair" := (45, 59),
    "Poor" := (30, 44),
    "Critical" := (0, 29)
  ]

  function Band(s: HealthStatus): (b: (int, int))
    ensures StatusName(s) in HealthStatusThresholds && b == HealthStatusThresholds[StatusName(s)]
  {
    HealthStatusThresholds[StatusName(s)]
  }

  predicate InBand(i: int, s: HealthStatus) {
    Band(s).0 <= i <= Band(s).1
  }

  /**
   * The bands are ordered Critical < Poor < Fair < Good < Excellent, pairwise
   * disjoint, and every index 0..100 lies in exactly the band of the status
   * chain's answer for it.
   */
  lemma HealthBandsPartition(i: int)
    requires 0 <= i <= 100
    ensures InBand(i, StatusFor(i))
    ensures forall s: HealthStatus :: InBand(i, s) <==> s == StatusFor(i)
  {
  }

  lemma HealthBandsOrdered(s: HealthStatus, t: HealthStatus)
    requires Rank(s) < Rank(t)
    ensures Band(s).1 < Band(t).0
  {
  }

  /** ANOMALY_SEVERITY_THRESHOLDS: severity name to its inclusive real band. */
  const AnomalySeverityThresholds: map<string, (real, real)> := map[
    "Low" := (0.0, 0.33),
    "Medium" := (0.34, 0.66),
    "High" := (0.67, 1.0)
  ]

  predicate InSeverityBand(x: real, name: string)
    requires name in AnomalySeverityThresholds
  {
    AnomalySeverityThresholds[name].0 <= x <= AnomalySeverityThresholds[name].1
  }

  /** The severity bands are ordered and disjoint... */
  lemma SeverityBandsOrdered()
    ensures AnomalySeverityThresholds["Low"].1 < AnomalySeverityThresholds["Medium"].0
    ensures AnomalySeverityThresholds["Medium"].1 < AnomalySeverityThresholds["High"].0
  {
  }

  /** ...but leave gaps: a score strictly between 0.33 and 0.34 (or 0.66 and 0.67) is in no band. */
  lemma SeverityBandsLeaveGaps(x: real)
    requires 0.33 < x < 0.34 || 0.66 < x < 0.67
    ensures forall name :: name in AnomalySeverityThresholds ==> !InSeverityBand(x, name)
  {
  }

  /** The configuration classes and the attributes each one overrides. */
  datatype ConfigClass = DevelopmentConfig | TestingConfig | ProductionConfig
  {
    function Debug(): bool { !ProductionConfig? }
    function Testing(): bool { TestingConfig? }
    function CsvPathOverride(): Option<string> {
      if TestingConfig? then Some("data/test_data.csv") else None
    }
    function ModelDirOverride(): Option<string> {
      if TestingConfig? then Some("models_test") else None
    }
  }

  const ConfigByName: map<string, ConfigClass> := map[
    "development" := DevelopmentConfig,
    "testing" := TestingConfig,
    "production" := ProductionConfig,
    "default" := DevelopmentConfig
  ]

  /**
   * get_config: an explicit env name is looked up; a missing one is taken
   * from FLASK_ENV (passed in as `flaskEnv`), itself defaulting to
   * 'development'; an unknown name gives the 'default' entry.
   */
  function GetConfig(env: Option<string>, flaskEnv: Option<string>): (c: ConfigClass)
    ensures env.Some? && env.value in ConfigByName ==> c == ConfigByName[env.value]
    ensures env.Some? && env.value !in ConfigByName ==> c == DevelopmentConfig
    ensures env.None? && flaskEnv.Some? && flaskEnv.value in ConfigByName ==> c == ConfigByName[flaskEnv.value]
    ensures env.None? && (flaskEnv.None? || flaskEnv.value !in ConfigByName) ==> c == DevelopmentConfig
    ensures c == ProductionConfig <==> (if env.Some? then env.value else flaskEnv.GetOr("development")) == "production"
  {
    var name := if env.Some? then env.value else flaskEnv.GetOr("development");
    if name in ConfigByName then ConfigByName[name] else ConfigByName["default"]
  }
}
