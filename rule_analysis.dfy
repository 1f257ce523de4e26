/**
 * The rule-based analysis of backend/app.py: calculate_health_index,
 * detect_anomalies and identify_critical_factors. Each is a loop over a
 * constant table that looks values up in the analysis dict built by
 * analyze_soil. The dict is a map from key to value, so the mismatch
 * between the keys the health-index and critical-factor loops look up
 * ('n', 'p', 'k', derived by lower-casing the table names) and the keys
 * the dict has ('nitrogen', 'phosphorus', 'potassium') is part of the
 * model: nitrogen, phosphorus and potassium never reach those two.
 */
module RuleAnalysis {
  import opened Wrappers
  import opened Soil
  import Config

  function AbsR(x: real): real { if x < 0.0 then -x else x }
  function MaxR(a: real, b: real): real { if a < b then b else a }
  function MinR(a: real, b: real): real { if a < b then a else b }

  function LowerChar(c: char): char {
    if 'A' <= c <= 'Z' then (c as int + 32) as char else c
  }

  /** str.lower() on ASCII text. */
  function Lower(s: string): (r: string)
    ensures |r| == |s| && forall i :: 0 <= i < |s| ==> r[i] == LowerChar(s[i])
  {
    seq(|s|, i requires 0 <= i < |s| => LowerChar(s[i]))
  }

  /** `param.lower() if param != 'CO2' else 'co2'`: the key a table name is looked up under. */
  function LookupKey(name: string): string {
    if name == "CO2" then "co2" else Lower(name)
  }

  /** The dict analyze_soil passes to the three analyses. */
  function AnalysisDict(r: Reading): map<string, real> {
    map["nitrogen" := r.n, "phosphorus" := r.p, "potassium" := r.k, "co2" := r.co2,
        "temperature" := r.temperature, "moisture" := r.moisture, "ph" := r.ph]
  }

  // ---------------------------------------------------------------------
  // calculate_health_index

  /** One entry of the `weights` table: optimal band and weight. */
  datatype WeightRow = WeightRow(name: string, lo: real, hi: real, weight: real)

  const Weights: seq<WeightRow> := [
    WeightRow("N", 15.0, 30.0, 1.0),
    WeightRow("P", 10.0, 25.0, 1.0),
    WeightRow("K", 100.0, 200.0, 1.0),
    WeightRow("CO2", 400.0, 600.0, 0.8),
    WeightRow("Temperature", 15.0, 25.0, 0.9),
    WeightRow("Moisture", 40.0, 60.0, 1.0),
    WeightRow("pH", 6.5, 7.5, 1.0)
  ]

  predicate WeightsWellFormed(t: seq<WeightRow>) {
    forall i :: 0 <= i < |t| ==> t[i].lo < t[i].hi && t[i].weight > 0.0
  }

  /**
   * The score of one value against its optimal band: 100 at the centre,
   * falling linearly to 0 at the edges inside the band, and 100 - 5 per
   * unit of distance (not below 0) outside it.
   */
  function ParamScore(v: real, lo: real, hi: real): real
    requires lo < hi
  {
    if lo <= v <= hi then
      (1.0 - AbsR(v - (lo + hi) / 2.0) / ((hi - lo) / 2.0)) * 100.0
    else if v < lo then MaxR(0.0, 100.0 - (lo - v) * 5.0)
    else MaxR(0.0, 100.0 - (v - hi) * 5.0)
  }

  lemma ParamScoreBounds(v: real, lo: real, hi: real)
    requires lo < hi
    ensures 0.0 <= ParamScore(v, lo, hi) <= 100.0
    ensures ParamScore(v, lo, hi) == 100.0 <==> v == (lo + hi) / 2.0
  {
    if lo <= v <= hi {
      var h := (hi - lo) / 2.0;
      var d := AbsR(v - (lo + hi) / 2.0);
      assert 0.0 <= d <= h;
      assert 0.0 <= d / h <= 1.0;
      assert d / h == 0.0 <==> d == 0.0;
    }
  }

  /** `(score, total_weight)` after the loop has visited the rows of `t`. */
  function Totals(t: seq<WeightRow>, data: map<string, real>): (real, real)
    requires WeightsWellFormed(t)
  {
    if |t| == 0 then (0.0, 0.0)
    else
      var prev := Totals(t[..|t| - 1], data);
      var row := t[|t| - 1];
      var key := LookupKey(row.name);
      if key in data then (prev.0 + WeightedScore(data[key], row), prev.1 + row.weight) else prev
  }

  /** `param_score * weight` for a row whose key is in the dict: at most 100 per unit of weight. */
  function WeightedScore(v: real, row: WeightRow): (s: real)
    requires row.lo < row.hi && row.weight > 0.0
    ensures 0.0 <= s <= 100.0 * row.weight
  {
    var p := ParamScore(v, row.lo, row.hi);
    ParamScoreBounds(v, row.lo, row.hi);
    WeightedScoreBounds(p, row.weight);
    p * row.weight
  }

  predicate NoKeyMatches(t: seq<WeightRow>, data: map<string, real>) {
    forall i :: 0 <= i < |t| ==> LookupKey(t[i].name) !in data
  }

  lemma WeightedScoreBounds(s: real, w: real)
    requires 0.0 <= s <= 100.0 && w > 0.0
    ensures 0.0 <= s * w <= 100.0 * w
  {
  }

  lemma WeightsWellFormedPrefixes()
    ensures WeightsWellFormed(Weights)
    ensures forall k :: 0 <= k <= |Weights| ==> WeightsWellFormed(Weights[..k])
  {
  }

  /** The accumulated score stays within 100 per unit of accumulated weight, which is never negative. */
  lemma {:induction false} TotalsBounds(t: seq<WeightRow>, data: map<string, real>)
    requires WeightsWellFormed(t)
    ensures 0.0 <= Totals(t, data).1
    ensures 0.0 <= Totals(t, data).0 <= 100.0 * Totals(t, data).1
  {
    if |t| > 0 {
      assert WeightsWellFormed(t[..|t| - 1]);
      TotalsBounds(t[..|t| - 1], data);
    }
  }

  /** The accumulated weight is zero exactly when no row's key is in the dict. */
  lemma {:induction false} TotalsWeightZero(t: seq<WeightRow>, data: map<string, real>)
    requires WeightsWellFormed(t)
    ensures Totals(t, data).1 == 0.0 <==> NoKeyMatches(t, data)
  {
    if |t| > 0 {
      var init := t[..|t| - 1];
      assert WeightsWellFormed(init);
      TotalsWeightZero(init, data);
      TotalsBounds(init, data);
      var row := t[|t| - 1];
      var key := LookupKey(row.name);
      var w := Totals(init, data).1;
      assert Totals(t, data).1 == if key in data then w + row.weight else w;
      assert NoKeyMatches(t, data) <==> NoKeyMatches(init, data) && key !in data by {
        assert forall i :: 0 <= i < |init| ==> init[i] == t[i];
      }
    }
  }

  /** One more row of the loop: what the visit of row `i` adds to the totals. */
  lemma TotalsStep(t: seq<WeightRow>, i: nat, data: map<string, real>)
    requires WeightsWellFormed(t) && i < |t|
    ensures WeightsWellFormed(t[..i]) && WeightsWellFormed(t[..i + 1])
    ensures LookupKey(t[i].name) in data ==>
      Totals(t[..i + 1], data).0 == Totals(t[..i], data).0
        + WeightedScore(data[LookupKey(t[i].name)], t[i])
      && Totals(t[..i + 1], data).1 == Totals(t[..i], data).1 + t[i].weight
    ensures LookupKey(t[i].name) !in data ==>
      Totals(t[..i + 1], data).0 == Totals(t[..i], data).0
      && Totals(t[..i + 1], data).1 == Totals(t[..i], data).1
  {
    assert t[..i + 1][..i] == t[..i] && t[..i + 1][i] == t[i];
  }

  /** `int(score / total_weight) if total_weight > 0 else 50`, before the clamp. */
  function RawHealthIndex(data: map<string, real>): int {
    var tot := Totals(Weights, data);
    if tot.1 > 0.0 then Trunc(tot.0 / tot.1) else 50
  }

  /** The index calculate_health_index returns: the raw index clamped to 1..100. */
  function HealthIndexOf(data: map<string, real>): int {
    ClampInt(1, 100, RawHealthIndex(data))
  }

  /** The raw index already lies in 0..100, so the clamp can only lift 0 to 1. */
  lemma RawHealthIndexInRange(data: map<string, real>)
    ensures 0 <= RawHealthIndex(data) <= 100
    ensures HealthIndexOf(data) == if RawHealthIndex(data) == 0 then 1 else RawHealthIndex(data)
  {
    var tot := Totals(Weights, data);
    TotalsBounds(Weights, data);
    TotalsWeightZero(Weights, data);
    if tot.1 > 0.0 {
      assert 0.0 <= tot.0 / tot.1 <= 100.0;
    }
  }

  /** With no table key present in the dict, the index is 50 (Fair). */
  lemma NoMatchGivesFifty(data: map<string, real>)
    requires NoKeyMatches(Weights, data)
    ensures HealthIndexOf(data) == 50 && StatusFor(HealthIndexOf(data)) == Fair
  {
    TotalsWeightZero(Weights, data);
  }

  /** The keys the weight and factor tables are looked up under. */
  lemma LookupKeysOfTableNames()
    ensures LookupKey("N") == "n" && LookupKey("P") == "p" && LookupKey("K") == "k"
    ensures LookupKey("CO2") == "co2"
    ensures LookupKey("Temperature") == "temperature"
    ensures LookupKey("Moisture") == "moisture"
    ensures LookupKey("pH") == "ph"
  {
    assert Lower("N") == "n";
    assert Lower("P") == "p";
    assert Lower("K") == "k";
    assert Lower("Temperature") == "temperature";
    assert Lower("Moisture") == "moisture";
    assert Lower("pH") == "ph";
  }

  /** The N, P and K rows come first and match no key of analyze_soil's dict. */
  lemma NpkRowsScoreNothing(r: Reading)
    ensures Totals(Weights[..3], AnalysisDict(r)) == (0.0, 0.0)
  {
    LookupKeysOfTableNames();
    var d := AnalysisDict(r);
    assert "n" !in d && "p" !in d && "k" !in d;
    assert Totals(Weights[..1], d) == (0.0, 0.0) by {
      assert Weights[..1][..0] == [] && Weights[..1][0] == Weights[0];
    }
    assert Totals(Weights[..2], d) == (0.0, 0.0) by {
      assert Weights[..2][..1] == Weights[..1] && Weights[..2][1] == Weights[1];
    }
    assert Weights[..3][..2] == Weights[..2] && Weights[..3][2] == Weights[2];
  }

  /**
   * On the dict analyze_soil builds, only CO2 (weight 0.8), Temperature
   * (0.9), Moisture and pH (1.0 each) are scored: total weight 3.7.
   */
  lemma {:induction false} OnlyFourParametersScored(r: Reading)
    ensures Totals(Weights, AnalysisDict(r)) ==
      (ParamScore(r.co2, 400.0, 600.0) * 0.8 + ParamScore(r.temperature, 15.0, 25.0) * 0.9
       + ParamScore(r.moisture, 40.0, 60.0) * 1.0 + ParamScore(r.ph, 6.5, 7.5) * 1.0,
       3.7)
  {
    LookupKeysOfTableNames();
    WeightsWellFormedPrefixes();
    var d := AnalysisDict(r);
    NpkRowsScoreNothing(r);
    var s4 := ParamScore(r.co2, 400.0, 600.0) * 0.8;
    assert Totals(Weights[..4], d) == (s4, 0.8) by {
      assert Weights[..4][..3] == Weights[..3] && Weights[..4][3] == Weights[3];
    }
    var s5 := s4 + ParamScore(r.temperature, 15.0, 25.0) * 0.9;
    assert Totals(Weights[..5], d) == (s5, 0.8 + 0.9) by {
      assert Weights[..5][..4] == Weights[..4] && Weights[..5][4] == Weights[4];
    }
    var s6 := s5 + ParamScore(r.moisture, 40.0, 60.0) * 1.0;
    assert Totals(Weights[..6], d) == (s6, 0.8 + 0.9 + 1.0) by {
      assert Weights[..6][..5] == Weights[..5] && Weights[..6][5] == Weights[5];
    }
    assert Totals(Weights, d) == (s6 + ParamScore(r.ph, 6.5, 7.5) * 1.0, 0.8 + 0.9 + 1.0 + 1.0) by {
      assert Weights[..6] == Weights[..|Weights| - 1] && Weights[|Weights| - 1] == Weights[6];
    }
  }

  /** Nitrogen, phosphorus and potassium have no effect on the index. */
  lemma IndexIgnoresNpk(a: Reading, b: Reading)
    requires a.co2 == b.co2 && a.temperature == b.temperature
    requires a.moisture == b.moisture && a.ph == b.ph
    ensures HealthIndexOf(AnalysisDict(a)) == HealthIndexOf(AnalysisDict(b))
  {
    OnlyFourParametersScored(a);
    OnlyFourParametersScored(b);
  }

  /** The branch of the loop body that scores one value against its band. */
  method ScoreValue(value: real, lo: real, hi: real) returns (paramScore: real)
    requires lo < hi
    ensures paramScore == ParamScore(value, lo, hi)
  {
    if lo <= value <= hi {
      var distanceFromCenter := AbsR(value - (lo + hi) / 2.0);
      var rangeWidth := hi - lo;
      paramScore := (1.0 - distanceFromCenter / (rangeWidth / 2.0)) * 100.0;
    } else if value < lo {
      paramScore := MaxR(0.0, 100.0 - (lo - value) * 5.0);
    } else {
      paramScore := MaxR(0.0, 100.0 - (value - hi) * 5.0);
    }
  }

  /** One pass of the accumulation loop: a row whose key is absent adds nothing. */
  method VisitRow(row: WeightRow, data: map<string, real>, score: real, totalWeight: real)
    returns (newScore: real, newWeight: real)
    requires row.lo < row.hi && row.weight > 0.0
    ensures LookupKey(row.name) in data ==>
      newScore == score + WeightedScore(data[LookupKey(row.name)], row) && newWeight == totalWeight + row.weight
    ensures LookupKey(row.name) !in data ==> newScore == score && newWeight == totalWeight
  {
    newScore, newWeight := score, totalWeight;
    var key := LookupKey(row.name);
    if key in data {
      var paramScore := ScoreValue(data[key], row.lo, row.hi);
      newScore := newScore + paramScore * row.weight;
      newWeight := newWeight + row.weight;
    }
  }

  /**
   * The accumulation loop of calculate_health_index over a weight table
   * `t`: each row whose key is in the dict adds its weighted score and its
   * weight.
   */
  method AccumulateScores(t: seq<WeightRow>, data: map<string, real>) returns (score: real, totalWeight: real)
    requires WeightsWellFormed(t)
    ensures score == Totals(t, data).0 && totalWeight == Totals(t, data).1
  {
    score := 0.0;
    totalWeight := 0.0;
    var i := 0;
    while i < |t|
      invariant 0 <= i <= |t|
      invariant WeightsWellFormed(t[..i])
      invariant score == Totals(t[..i], data).0
      invariant totalWeight == Totals(t[..i], data).1
    {
      TotalsStep(t, i, data);
      score, totalWeight := VisitRow(t[i], data, score, totalWeight);
      i := i + 1;
    }
    assert t[..i] == t;
  }

  /**
   * calculate_health_index: accumulates the weighted scores over the table,
   * truncates, clamps to 1..100 and maps the index to a status.
   */
  method CalculateHealthIndex(data: map<string, real>) returns (index: int, status: HealthStatus)
    ensures index == HealthIndexOf(data)
    ensures 1 <= index <= 100
    ensures status == StatusFor(index)
  {
    WeightsWellFormedPrefixes();
    var score, totalWeight := AccumulateScores(Weights, data);
    index := if totalWeight > 0.0 then Trunc(score / totalWeight) else 50;
    index := ClampInt(1, 100, index);
    if index >= 75 {
      status := Excellent;
    } else if index >= 60 {
      status := Good;
    } else if index >= 45 {
      status := Fair;
    } else if index >= 30 {
      status := Poor;
    } else {
      status := Critical;
    }
  }

  // ---------------------------------------------------------------------
  // detect_anomalies

  /** One entry of the `ranges` table: dict key and expected band. */
  datatype RangeRow = RangeRow(key: string, lo: real, hi: real)

  const AnomalyRanges: seq<RangeRow> := [
    RangeRow("nitrogen", 10.0, 40.0),
    RangeRow("phosphorus", 5.0, 35.0),
    RangeRow("potassium", 50.0, 300.0),
    RangeRow("co2", 300.0, 800.0),
    RangeRow("temperature", 10.0, 30.0),
    RangeRow("moisture", 30.0, 70.0),
    RangeRow("ph", 5.0, 8.0)
  ]

  /** Both bounds are positive, so the relative deviation is defined and positive. */
  predicate RangesPositive(t: seq<RangeRow>) {
    forall i :: 0 <= i < |t| ==> 0.0 < t[i].lo < t[i].hi
  }

  /** Row `i` of `t` is looked up and its value lies outside the band. */
  predicate OutOfRange(t: seq<RangeRow>, i: int, data: map<string, real>)
    requires 0 <= i < |t|
  {
    t[i].key in data && (data[t[i].key] < t[i].lo || data[t[i].key] > t[i].hi)
  }

  /** The relative distance of an out-of-range value from the bound it crossed. */
  function Deviation(v: real, lo: real, hi: real): real
    requires 0.0 < lo < hi
  {
    if v < lo then (lo - v) / lo else (v - hi) / hi
  }

  /** `anomalies_count` after the rows of `t`. */
  function AnomalyCount(t: seq<RangeRow>, data: map<string, real>): nat {
    if |t| == 0 then 0
    else
      var row := t[|t| - 1];
      AnomalyCount(t[..|t| - 1], data)
        + if row.key in data && (data[row.key] < row.lo || data[row.key] > row.hi) then 1 else 0
  }

  /** `anomaly_score` after the rows of `t`, before the averaging step. */
  function PeakDeviation(t: seq<RangeRow>, data: map<string, real>): real
    requires RangesPositive(t)
  {
    if |t| == 0 then 0.0
    else
      var row := t[|t| - 1];
      var prev := PeakDeviation(t[..|t| - 1], data);
      if row.key in data && (data[row.key] < row.lo || data[row.key] > row.hi) then
        MaxR(prev, MinR(1.0, AbsR(Deviation(data[row.key], row.lo, row.hi))))
      else prev
  }

  lemma RangesPositivePrefix(t: seq<RangeRow>, k: nat)
    requires RangesPositive(t) && k <= |t|
    ensures RangesPositive(t[..k])
  {
    assert forall i :: 0 <= i < k ==> t[..k][i] == t[i];
  }

  lemma AnomalyRangesPositive()
    ensures RangesPositive(AnomalyRanges)
  {
  }

  /** Some row is counted exactly when some looked-up value is out of its band. */
  lemma {:induction false} AnomalyCountPositive(t: seq<RangeRow>, data: map<string, real>)
    ensures AnomalyCount(t, data) > 0 <==> exists i :: 0 <= i < |t| && OutOfRange(t, i, data)
  {
    if |t| > 0 {
      var init := t[..|t| - 1];
      AnomalyCountPositive(init, data);
      assert forall i :: 0 <= i < |init| ==> (OutOfRange(init, i, data) <==> OutOfRange(t, i, data));
      if OutOfRange(t, |t| - 1, data) {
        assert AnomalyCount(t, data) > 0;
      }
    }
  }

  /** The peak deviation lies in [0, 1] and is positive exactly when some row was counted. */
  lemma {:induction false} PeakDeviationBounds(t: seq<RangeRow>, data: map<string, real>)
    requires RangesPositive(t)
    ensures 0.0 <= PeakDeviation(t, data) <= 1.0
    ensures PeakDeviation(t, data) > 0.0 <==> AnomalyCount(t, data) > 0
  {
    if |t| > 0 {
      var init := t[..|t| - 1];
      RangesPositivePrefix(t, |t| - 1);
      PeakDeviationBounds(init, data);
      var row := t[|t| - 1];
      if row.key in data && (data[row.key] < row.lo || data[row.key] > row.hi) {
        var v := data[row.key];
        assert Deviation(v, row.lo, row.hi) > 0.0;
      }
    }
  }

  /** The `(is_anomalous, anomaly_score)` pair detect_anomalies returns. */
  function AnomalyResultOf(data: map<string, real>): (bool, real) {
    AnomalyRangesPositive();
    var count := AnomalyCount(AnomalyRanges, data);
    var peak := PeakDeviation(AnomalyRanges, data);
    (count > 0, if count > 0 then peak / (|AnomalyRanges| as real) else peak)
  }

  /**
   * The flag is raised exactly when some looked-up value is outside its
   * expected band; the score lies in [0, 1/7] and is positive exactly when
   * the flag is raised.
   */
  lemma AnomalyResultMeaning(data: map<string, real>)
    ensures AnomalyResultOf(data).0 <==>
      exists i :: 0 <= i < |AnomalyRanges| && OutOfRange(AnomalyRanges, i, data)
    ensures 0.0 <= AnomalyResultOf(data).1 <= 1.0 / 7.0
    ensures AnomalyResultOf(data).1 > 0.0 <==> AnomalyResultOf(data).0
  {
    AnomalyRangesPositive();
    AnomalyCountPositive(AnomalyRanges, data);
    PeakDeviationBounds(AnomalyRanges, data);
  }

  /** The `ranges` loop of detect_anomalies over a range table `t`. */
  method ScanRanges(t: seq<RangeRow>, data: map<string, real>)
    returns (isAnomalous: bool, anomalyScore: real, anomaliesCount: nat)
    requires RangesPositive(t)
    ensures anomaliesCount == AnomalyCount(t, data)
    ensures isAnomalous <==> anomaliesCount > 0
    ensures anomalyScore == PeakDeviation(t, data)
  {
    isAnomalous := false;
    anomalyScore := 0.0;
    anomaliesCount := 0;
    var i := 0;
    while i < |t|
      invariant 0 <= i <= |t|
      invariant RangesPositive(t[..i])
      invariant anomaliesCount == AnomalyCount(t[..i], data)
      invariant isAnomalous <==> anomaliesCount > 0
      invariant anomalyScore == PeakDeviation(t[..i], data)
    {
      var row := t[i];
      if row.key in data {
        var value := data[row.key];
        if value < row.lo || value > row.hi {
          isAnomalous := true;
          anomaliesCount := anomaliesCount + 1;
          var deviation;
          if value < row.lo {
            deviation := (row.lo - value) / row.lo;
          } else {
            deviation := (value - row.hi) / row.hi;
          }
          anomalyScore := MaxR(anomalyScore, MinR(1.0, AbsR(deviation)));
        }
      }
      assert t[..i + 1][..i] == t[..i] && t[..i + 1][i] == row;
      RangesPositivePrefix(t, i + 1);
      i := i + 1;
    }
    assert t[..i] == t;
  }

  /** detect_anomalies: the loop over `ranges`, then the averaging by the table size. */
  method DetectAnomalies(data: map<string, real>) returns (isAnomalous: bool, anomalyScore: real)
    ensures isAnomalous == AnomalyResultOf(data).0
    ensures anomalyScore == AnomalyResultOf(data).1
  {
    AnomalyRangesPositive();
    var anomaliesCount;
    isAnomalous, anomalyScore, anomaliesCount := ScanRanges(AnomalyRanges, data);
    if anomaliesCount > 0 {
      anomalyScore := anomalyScore / (|AnomalyRanges| as real);
    }
  }

  // ---------------------------------------------------------------------
  // identify_critical_factors

  /** One entry of the `params` table: table key, optimal band, display name. */
  datatype FactorRow = FactorRow(key: string, lo: real, hi: real, name: string)

  const FactorTable: seq<FactorRow> := [
    FactorRow("N", 15.0, 30.0, "Nitrogen"),
    FactorRow("P", 10.0, 25.0, "Phosphorus"),
    FactorRow("K", 100.0, 200.0, "Potassium"),
    FactorRow("CO2", 400.0, 600.0, "CO2"),
    FactorRow("Temperature", 15.0, 25.0, "Temperature"),
    FactorRow("Moisture", 40.0, 60.0, "Moisture"),
    FactorRow("pH", 6.5, 7.5, "pH")
  ]

  /** Row `i` of `t` is looked up (under its lower-cased key) and lies strictly outside its band. */
  predicate IsCritical(t: seq<FactorRow>, i: int, data: map<string, real>)
    requires 0 <= i < |t|
  {
    var key := LookupKey(t[i].key);
    key in data && (data[key] < t[i].lo || data[key] > t[i].hi)
  }

  /** The `critical_factors` list after the rows of `t`. */
  function CriticalNames(t: seq<FactorRow>, data: map<string, real>): seq<string> {
    if |t| == 0 then []
    else
      var row := t[|t| - 1];
      var key := LookupKey(row.key);
      CriticalNames(t[..|t| - 1], data)
        + if key in data && (data[key] < row.lo || data[key] > row.hi) then [row.name] else []
  }

  /** The positions of the critical rows of `t`, in table order. */
  function CriticalPositions(t: seq<FactorRow>, data: map<string, real>): seq<int> {
    if |t| == 0 then []
    else CriticalPositions(t[..|t| - 1], data) + if IsCritical(t, |t| - 1, data) then [|t| - 1] else []
  }

  /**
   * The list is a filter of the table: the display names of exactly the
   * critical rows, at strictly increasing table positions.
   */
  lemma {:induction false} CriticalNamesFilterTable(t: seq<FactorRow>, data: map<string, real>)
    ensures var pos := CriticalPositions(t, data);
      && |CriticalNames(t, data)| == |pos|
      && (forall j :: 0 <= j < |pos| ==>
            0 <= pos[j] < |t| && IsCritical(t, pos[j], data) && CriticalNames(t, data)[j] == t[pos[j]].name)
      && (forall a, b :: 0 <= a < b < |pos| ==> pos[a] < pos[b])
      && (forall i :: 0 <= i < |t| && IsCritical(t, i, data) ==> i in pos)
  {
    if |t| > 0 {
      var init := t[..|t| - 1];
      CriticalNamesFilterTable(init, data);
      assert forall i :: 0 <= i < |init| ==> init[i] == t[i];
      assert forall i :: 0 <= i < |init| ==> (IsCritical(init, i, data) <==> IsCritical(t, i, data));
    }
  }

  predicate NoDuplicates<T(==)>(s: seq<T>) {
    forall a, b :: 0 <= a < b < |s| ==> s[a] != s[b]
  }

  /** No display name occurs twice in the factor table. */
  lemma FactorNamesDistinct()
    ensures forall i, j :: 0 <= i < j < |FactorTable| ==> FactorTable[i].name != FactorTable[j].name
  {
  }

  /**
   * On the table itself: a display name is listed exactly when its row is
   * critical, no name is listed twice, and names appear in table order.
   */
  lemma CriticalNamesMeaning(data: map<string, real>)
    ensures forall i :: 0 <= i < |FactorTable| ==>
      (FactorTable[i].name in CriticalNames(FactorTable, data) <==> IsCritical(FactorTable, i, data))
    ensures NoDuplicates(CriticalNames(FactorTable, data))
    ensures forall a, b, i, j ::
      (0 <= a < b < |CriticalNames(FactorTable, data)| && 0 <= i < |FactorTable| && 0 <= j < |FactorTable|
       && CriticalNames(FactorTable, data)[a] == FactorTable[i].name
       && CriticalNames(FactorTable, data)[b] == FactorTable[j].name) ==> i < j
  {
    CriticalNamesFilterTable(FactorTable, data);
    var pos := CriticalPositions(FactorTable, data);
    var r := CriticalNames(FactorTable, data);
    FactorNamesDistinct();
    forall i | 0 <= i < |FactorTable| && FactorTable[i].name in r
      ensures IsCritical(FactorTable, i, data)
    {
      var j :| 0 <= j < |r| && r[j] == FactorTable[i].name;
      assert pos[j] == i;
    }
    forall i | 0 <= i < |FactorTable| && IsCritical(FactorTable, i, data)
      ensures FactorTable[i].name in r
    {
      var j :| 0 <= j < |pos| && pos[j] == i;
      assert r[j] == FactorTable[i].name;
    }
  }

  /** Nitrogen, phosphorus and potassium are never listed for the dict analyze_soil builds. */
  lemma CriticalFactorsSkipNpk(r: Reading)
    ensures "Nitrogen" !in CriticalNames(FactorTable, AnalysisDict(r))
    ensures "Phosphorus" !in CriticalNames(FactorTable, AnalysisDict(r))
    ensures "Potassium" !in CriticalNames(FactorTable, AnalysisDict(r))
  {
    LookupKeysOfTableNames();
    CriticalNamesMeaning(AnalysisDict(r));
    assert FactorTable[0].name == "Nitrogen" && !IsCritical(FactorTable, 0, AnalysisDict(r));
    assert FactorTable[1].name == "Phosphorus" && !IsCritical(FactorTable, 1, AnalysisDict(r));
    assert FactorTable[2].name == "Potassium" && !IsCritical(FactorTable, 2, AnalysisDict(r));
  }

  /** With no critical row, the list is empty. */
  lemma {:induction false} NothingCriticalNothingListed(t: seq<FactorRow>, data: map<string, real>)
    requires forall i :: 0 <= i < |t| ==> !IsCritical(t, i, data)
    ensures CriticalNames(t, data) == []
  {
    if |t| > 0 {
      var init := t[..|t| - 1];
      assert forall i :: 0 <= i < |init| ==> init[i] == t[i];
      assert forall i :: 0 <= i < |init| ==> (IsCritical(init, i, data) <==> IsCritical(t, i, data));
      assert !IsCritical(t, |t| - 1, data);
      NothingCriticalNothingListed(init, data);
    }
  }

  /** The `params` loop of identify_critical_factors over a factor table `t`. */
  method CollectCriticalFactors(t: seq<FactorRow>, data: map<string, real>) returns (criticalFactors: seq<string>)
    ensures criticalFactors == CriticalNames(t, data)
  {
    criticalFactors := [];
    var i := 0;
    while i < |t|
      invariant 0 <= i <= |t|
      invariant criticalFactors == CriticalNames(t[..i], data)
    {
      var row := t[i];
      var paramKey := LookupKey(row.key);
      if paramKey in data {
        var value := data[paramKey];
        if value < row.lo || value > row.hi {
          criticalFactors := criticalFactors + [row.name];
        }
      }
      assert t[..i + 1][..i] == t[..i] && t[..i + 1][i] == row;
      i := i + 1;
    }
    assert t[..i] == t;
  }

  /** identify_critical_factors: the display names of the looked-up parameters outside their optimal band. */
  method IdentifyCriticalFactors(data: map<string, real>) returns (criticalFactors: seq<string>)
    ensures criticalFactors == CriticalNames(FactorTable, data)
    ensures |criticalFactors| <= |FactorTable|
  {
    criticalFactors := CollectCriticalFactors(FactorTable, data);
    CriticalNamesFilterTable(FactorTable, data);
    CriticalPositionsBound(FactorTable, data);
  }

  /** At most one position per row. */
  lemma {:induction false} CriticalPositionsBound(t: seq<FactorRow>, data: map<string, real>)
    ensures |CriticalPositions(t, data)| <= |t|
  {
    if |t| > 0 {
      CriticalPositionsBound(t[..|t| - 1], data);
    }
  }

  // ---------------------------------------------------------------------
  // The two readings the API test driver sends

  const HealthyReading := Reading(22.0, 18.0, 150.0, 500.0, 22.0, 55.0, 7.2)
  const UnhealthyReading := Reading(8.0, 22.0, 180.0, 450.0, 28.0, 72.0, 8.2)

  /** The healthy reading's scores: CO2 at the centre, the other three 60, 50 and 60. */
  lemma HealthyReadingScores()
    ensures ParamScore(500.0, 400.0, 600.0) == 100.0
    ensures ParamScore(22.0, 15.0, 25.0) == 60.0
    ensures ParamScore(55.0, 40.0, 60.0) == 50.0
    ensures ParamScore(7.2, 6.5, 7.5) == 60.0
  {
  }

  /** The healthy reading scores 244 / 3.7: index 65, Good. */
  lemma HealthyReadingIndex()
    ensures HealthIndexOf(AnalysisDict(HealthyReading)) == 65
    ensures StatusFor(HealthIndexOf(AnalysisDict(HealthyReading))) == Good
  {
    OnlyFourParametersScored(HealthyReading);
    HealthyReadingScores();
    assert Totals(Weights, AnalysisDict(HealthyReading)) == (244.0, 3.7);
    assert Trunc(244.0 / 3.7) == 65;
  }

  /** The healthy reading is inside every anomaly band and every critical band. */
  lemma HealthyReadingUnflagged()
    ensures AnomalyResultOf(AnalysisDict(HealthyReading)) == (false, 0.0)
    ensures CriticalNames(FactorTable, AnalysisDict(HealthyReading)) == []
  {
    var d := AnalysisDict(HealthyReading);
    AnomalyResultMeaning(d);
    assert forall i :: 0 <= i < |AnomalyRanges| ==> !OutOfRange(AnomalyRanges, i, d);
    LookupKeysOfTableNames();
    assert forall i :: 0 <= i < |FactorTable| ==> !IsCritical(FactorTable, i, d);
    NothingCriticalNothingListed(FactorTable, d);
  }

  /** The unhealthy reading scores 253 / 3.7: index 68, Good. */
  lemma UnhealthyReadingIndex()
    ensures HealthIndexOf(AnalysisDict(UnhealthyReading)) == 68
    ensures StatusFor(HealthIndexOf(AnalysisDict(UnhealthyReading))) == Good
  {
    OnlyFourParametersScored(UnhealthyReading);
    assert Totals(Weights, AnalysisDict(UnhealthyReading)) == (253.0, 3.7);
    assert Trunc(253.0 / 3.7) == 68;
  }

  /**
   * Nitrogen 8 in the unhealthy reading is below its band but never looked
   * up, so only Temperature, Moisture and pH are critical.
   */
  lemma UnhealthyReadingCriticalFactors()
    ensures CriticalNames(FactorTable, AnalysisDict(UnhealthyReading)) == ["Temperature", "Moisture", "pH"]
  {
    var d := AnalysisDict(UnhealthyReading);
    LookupKeysOfTableNames();
    assert CriticalNames(FactorTable[..3], d) == [] by {
      assert forall i :: 0 <= i < 3 ==> FactorTable[..3][i] == FactorTable[i];
      assert forall i :: 0 <= i < 3 ==> !IsCritical(FactorTable[..3], i, d);
      NothingCriticalNothingListed(FactorTable[..3], d);
    }
    assert CriticalNames(FactorTable[..4], d) == [] by {
      assert FactorTable[..4][..3] == FactorTable[..3];
    }
    assert CriticalNames(FactorTable[..5], d) == ["Temperature"] by {
      assert FactorTable[..5][..4] == FactorTable[..4];
    }
    assert CriticalNames(FactorTable[..6], d) == ["Temperature", "Moisture"] by {
      assert FactorTable[..6][..5] == FactorTable[..5];
    }
    assert FactorTable[..7][..6] == FactorTable[..6];
    assert FactorTable[..7] == FactorTable;
  }

  /**
   * Nitrogen, moisture and pH of the unhealthy reading are outside the
   * expected bands; nitrogen's deviation 0.2 is the largest, so the score
   * is 0.2 / 7.
   */
  lemma UnhealthyReadingAnomaly()
    ensures AnomalyResultOf(AnalysisDict(UnhealthyReading)) == (true, 0.2 / 7.0)
  {
    var d := AnalysisDict(UnhealthyReading);
    var t := AnomalyRanges;
    AnomalyRangesPositive();
    assert PeakDeviation(t[..1], d) == 0.2 by {
      assert t[..1][..0] == [];
    }
    assert PeakDeviation(t[..2], d) == 0.2 by {
      assert t[..2][..1] == t[..1];
    }
    assert PeakDeviation(t[..3], d) == 0.2 by {
      assert t[..3][..2] == t[..2];
    }
    assert PeakDeviation(t[..4], d) == 0.2 by {
      assert t[..4][..3] == t[..3];
    }
    assert PeakDeviation(t[..5], d) == 0.2 by {
      assert t[..5][..4] == t[..4];
    }
    assert PeakDeviation(t[..6], d) == 0.2 by {
      assert t[..6][..5] == t[..5];
      assert Deviation(72.0, 30.0, 70.0) == 2.0 / 70.0;
    }
    assert PeakDeviation(t, d) == 0.2 by {
      assert t[..|t| - 1] == t[..6];
      assert Deviation(8.2, 5.0, 8.0) == 0.2 / 8.0;
    }
    assert AnomalyCount(t, d) > 0 by {
      AnomalyCountPositive(t, d);
      assert OutOfRange(t, 0, d);
    }
  }

  // ---------------------------------------------------------------------
  // Agreement with the reference tables of config.py

  /**
   * The weight table and the critical-factor table use the optimal min/max
   * of OPTIMAL_RANGES; the anomaly ranges are its critical bounds except for
   * pH, whose lower bound is 5.0 here against a critical minimum of 6.0.
   */
  lemma TablesAgreeWithConfig()
    ensures |Weights| == |FactorTable| == |AnomalyRanges| == 7
    ensures forall i :: 0 <= i < |FactorTable| ==>
      FactorTable[i].key in Config.OptimalRanges
      && FactorTable[i].lo == Config.OptimalRanges[FactorTable[i].key].min
      && FactorTable[i].hi == Config.OptimalRanges[FactorTable[i].key].max
      && Weights[i].name == FactorTable[i].key
      && Weights[i].lo == FactorTable[i].lo && Weights[i].hi == FactorTable[i].hi
    ensures forall i :: 0 <= i < 6 ==>
      AnomalyRanges[i].lo == Config.OptimalRanges[FactorTable[i].key].criticalMin
      && AnomalyRanges[i].hi == Config.OptimalRanges[FactorTable[i].key].criticalMax
    ensures AnomalyRanges[6].hi == Config.OptimalRanges["pH"].criticalMax
    ensures AnomalyRanges[6].lo == 5.0 && Config.OptimalRanges["pH"].criticalMin == 6.0
  {
  }

}
