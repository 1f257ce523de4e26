/**
 * backend/soil_health_ml.py: the SoilHealthAnalyzer that wraps a random
 * forest (probability of a healthy reading), an isolation forest (anomaly
 * prediction and score) and a standard scaler. The fitted sklearn objects
 * are functions on readings, set by training or loading; the rules around
 * them (training labels, index and status, the no-model defaults, the
 * critical-bound factor list, the assembled analysis) are modelled here.
 */
module SoilHealthMl {
  import opened Wrappers
  import opened Soil
  import Config

  /** A fitted RandomForestClassifier: `predict_proba(x)[0][1]`, the probability of label 1. */
  datatype Forest = Forest(healthyProbability: Reading -> real)

  /** A fitted IsolationForest: `predict(x)[0]` (-1 for an outlier) and `score_samples(x)[0]`. */
  datatype Isolation = Isolation(predict: Reading -> int, scoreSamples: Reading -> real)

  /** What a call may raise: `scaler.transform` on a scaler that was never fitted. */
  datatype MlError = NotFitted

  // ---------------------------------------------------------------------
  // _calculate_health_label

  /** The optimal and the wider band of each parameter in the label rule. */
  datatype LabelBand = LabelBand(optLo: real, optHi: real, wideLo: real, wideHi: real)

  function LabelBandOf(q: Param): LabelBand {
    match q
    case N => LabelBand(15.0, 30.0, 10.0, 40.0)
    case P => LabelBand(10.0, 25.0, 5.0, 35.0)
    case K => LabelBand(100.0, 200.0, 50.0, 300.0)
    case CO2 => LabelBand(400.0, 600.0, 300.0, 800.0)
    case Temperature => LabelBand(15.0, 25.0, 10.0, 30.0)
    case Moisture => LabelBand(40.0, 60.0, 30.0, 70.0)
    case PH => LabelBand(6.5, 7.5, 6.0, 8.0)
  }

  /** The label bands are the optimal and the critical ranges of OPTIMAL_RANGES. */
  lemma LabelBandsAreConfigRanges(q: Param)
    ensures LabelBandOf(q).optLo == Config.RangeOf(q).min && LabelBandOf(q).optHi == Config.RangeOf(q).max
    ensures LabelBandOf(q).wideLo == Config.RangeOf(q).criticalMin
    ensures LabelBandOf(q).wideHi == Config.RangeOf(q).criticalMax
  {
  }

  predicate InOptimal(r: Reading, q: Param) {
    LabelBandOf(q).optLo <= r.Get(q) <= LabelBandOf(q).optHi
  }

  predicate InWide(r: Reading, q: Param) {
    LabelBandOf(q).wideLo <= r.Get(q) <= LabelBandOf(q).wideHi
  }

  /** 0.15 inside the optimal band, else 0.08 inside the wider band, else nothing. */
  function TierPoints(r: Reading, q: Param): real {
    if InOptimal(r, q) then 0.15 else if InWide(r, q) then 0.08 else 0.0
  }

  /** The label score summed over the first `k` parameters of the table. */
  function LabelScoreUpTo(r: Reading, k: nat): real
    requires k <= |AllParams|
  {
    if k == 0 then 0.0 else LabelScoreUpTo(r, k - 1) + TierPoints(r, AllParams[k - 1])
  }

  function LabelScore(r: Reading): real {
    LabelScoreUpTo(r, |AllParams|)
  }

  /** Parameters among the first `k` in their optimal band. */
  function OptimalCount(r: Reading, k: nat): nat
    requires k <= |AllParams|
  {
    if k == 0 then 0 else OptimalCount(r, k - 1) + if InOptimal(r, AllParams[k - 1]) then 1 else 0
  }

  /** Parameters among the first `k` in their wider band but not their optimal one. */
  function WideOnlyCount(r: Reading, k: nat): nat
    requires k <= |AllParams|
  {
    if k == 0 then 0
    else WideOnlyCount(r, k - 1) + if !InOptimal(r, AllParams[k - 1]) && InWide(r, AllParams[k - 1]) then 1 else 0
  }

  /** The score is 0.15 per optimal parameter plus 0.08 per wider-band one. */
  lemma {:induction false} LabelScoreCounts(r: Reading, k: nat)
    requires k <= |AllParams|
    ensures LabelScoreUpTo(r, k) == (15 * OptimalCount(r, k) + 8 * WideOnlyCount(r, k)) as real / 100.0
    ensures OptimalCount(r, k) + WideOnlyCount(r, k) <= k
  {
    if k > 0 {
      LabelScoreCounts(r, k - 1);
    }
  }

  /** The label score lies in [0, 1.05]: at most 0.15 for each of seven parameters. */
  lemma LabelScoreBounds(r: Reading)
    ensures 0.0 <= LabelScore(r) <= 1.05
  {
    LabelScoreCounts(r, |AllParams|);
  }

  /** `1 if score > 0.6 else 0` */
  function HealthLabel(r: Reading): int {
    if LabelScore(r) > 0.6 then 1 else 0
  }

  /**
   * A reading is labelled healthy exactly when 15 per optimal parameter
   * plus 8 per wider-band one exceeds 60: four optimal parameters alone
   * score exactly 0.6 and are not enough.
   */
  lemma HealthLabelMeaning(r: Reading)
    ensures HealthLabel(r) == 1 <==> 15 * OptimalCount(r, 7) + 8 * WideOnlyCount(r, 7) > 60
    ensures HealthLabel(r) == 0 || HealthLabel(r) == 1
  {
    LabelScoreCounts(r, 7);
  }

  /** The test reading has every parameter in its optimal band: score 1.05, label 1. */
  lemma SampleReadingLabel()
    ensures LabelScore(Reading(22.0, 18.0, 150.0, 500.0, 22.0, 55.0, 7.2)) == 1.05
    ensures HealthLabel(Reading(22.0, 18.0, 150.0, 500.0, 22.0, 55.0, 7.2)) == 1
  {
    var r := Reading(22.0, 18.0, 150.0, 500.0, 22.0, 55.0, 7.2);
    LabelScoreCounts(r, 7);
    assert OptimalCount(r, 7) == 7;
  }

  /** _calculate_health_label: seven tiered checks adding to the score. */
  method CalculateHealthLabel(row: Reading) returns (score: real)
    ensures score == LabelScore(row)
  {
    score := 0.0;
    if 15.0 <= row.n <= 30.0 {
      score := score + 0.15;
    } else if 10.0 <= row.n <= 40.0 {
      score := score + 0.08;
    }
    assert score == LabelScoreUpTo(row, 1);
    if 10.0 <= row.p <= 25.0 {
      score := score + 0.15;
    } else if 5.0 <= row.p <= 35.0 {
      score := score + 0.08;
    }
    assert score == LabelScoreUpTo(row, 2);
    if 100.0 <= row.k <= 200.0 {
      score := score + 0.15;
    } else if 50.0 <= row.k <= 300.0 {
      score := score + 0.08;
    }
    assert score == LabelScoreUpTo(row, 3);
    if 400.0 <= row.co2 <= 600.0 {
      score := score + 0.15;
    } else if 300.0 <= row.co2 <= 800.0 {
      score := score + 0.08;
    }
    assert score == LabelScoreUpTo(row, 4);
    if 15.0 <= row.temperature <= 25.0 {
      score := score + 0.15;
    } else if 10.0 <= row.temperature <= 30.0 {
      score := score + 0.08;
    }
    assert score == LabelScoreUpTo(row, 5);
    if 40.0 <= row.moisture <= 60.0 {
      score := score + 0.15;
    } else if 30.0 <= row.moisture <= 70.0 {
      score := score + 0.08;
    }
    assert score == LabelScoreUpTo(row, 6);
    if 6.5 <= row.ph <= 7.5 {
      score := score + 0.15;
    } else if 6.0 <= row.ph <= 8.0 {
      score := score + 0.08;
    }
    assert score == LabelScoreUpTo(row, 7);
  }

  /** The label loop of train_health_index_model: one label per training row, in order. */
  method HealthLabels(rows: seq<Reading>) returns (labels: seq<int>)
    ensures |labels| == |rows|
    ensures forall i :: 0 <= i < |rows| ==> labels[i] == HealthLabel(rows[i])
  {
    labels := [];
    var i := 0;
    while i < |rows|
      invariant 0 <= i <= |rows| && |labels| == i
      invariant forall j :: 0 <= j < i ==> labels[j] == HealthLabel(rows[j])
    {
      var score := CalculateHealthLabel(rows[i]);
      labels := labels + [if score > 0.6 then 1 else 0];
      i := i + 1;
    }
  }

  // ---------------------------------------------------------------------
  // calculate_soil_health_index, detect_anomalies

  /** `int(health_prob * 100)`: truncation, no clamp. */
  function IndexOfProbability(prob: real): int {
    Trunc(prob * 100.0)
  }

  /** For a probability the index lies in [0, 100]; it is 0 below 0.01, so the 1..100 scale is not kept. */
  lemma IndexOfProbabilityBounds(prob: real)
    requires 0.0 <= prob <= 1.0
    ensures 0 <= IndexOfProbability(prob) <= 100
    ensures prob < 0.01 ==> IndexOfProbability(prob) == 0
    ensures IndexOfProbability(prob) == 100 <==> prob == 1.0
  {
  }

  /** The default probability without a model gives index 50, status Fair. */
  lemma NoModelDefault()
    ensures IndexOfProbability(0.5) == 50 && StatusFor(IndexOfProbability(0.5)) == Fair
  {
  }

  /** The features the models see: scaled when asked, which needs a fitted scaler. */
  function Features(scaler: Option<Reading -> Reading>, r: Reading, normalized: bool): Result<Reading, MlError> {
    if !normalized then Success(r)
    else if scaler.Some? then Success(scaler.value(r))
    else Failure(NotFitted)
  }

  function SoilHealthIndexOf(rf: Option<Forest>, scaler: Option<Reading -> Reading>, r: Reading, normalized: bool)
    : Result<(int, HealthStatus), MlError>
  {
    match Features(scaler, r, normalized)
    case Failure(e) => Failure(e)
    case Success(x) =>
      var prob := if rf.Some? then rf.value.healthyProbability(x) else 0.5;
      Success((IndexOfProbability(prob), StatusFor(IndexOfProbability(prob))))
  }

  function AnomalyOf(iso: Option<Isolation>, scaler: Option<Reading -> Reading>, r: Reading, normalized: bool)
    : Result<(bool, real), MlError>
  {
    if iso.None? then Success((false, 0.0))
    else match Features(scaler, r, normalized)
      case Failure(e) => Failure(e)
      case Success(x) => Success((iso.value.predict(x) == -1, -iso.value.scoreSamples(x)))
  }

  // ---------------------------------------------------------------------
  // _identify_critical_factors

  /** One entry of the list: the parameter and its value (the message text is not modelled). */
  datatype CriticalEntry = CriticalEntry(param: Param, value: real)

  /** Strictly outside the wider band of the label rule. */
  predicate OutsideCritical(r: Reading, q: Param) {
    r.Get(q) < LabelBandOf(q).wideLo || r.Get(q) > LabelBandOf(q).wideHi
  }

  /** The entries for the first `k` parameters, in table order. */
  function CriticalEntriesUpTo(r: Reading, k: nat): seq<CriticalEntry>
    requires k <= |AllParams|
  {
    if k == 0 then []
    else
      var q := AllParams[k - 1];
      CriticalEntriesUpTo(r, k - 1) + if OutsideCritical(r, q) then [CriticalEntry(q, r.Get(q))] else []
  }

  function CriticalEntries(r: Reading): seq<CriticalEntry> {
    CriticalEntriesUpTo(r, |AllParams|)
  }

  /**
   * Each entry is a parameter outside its critical bounds, with its value,
   * in table order: the parameters of the entries strictly increase in
   * position, so there are at most seven and none twice.
   */
  lemma {:induction false} CriticalEntriesSound(r: Reading, k: nat)
    requires k <= |AllParams|
    ensures |CriticalEntriesUpTo(r, k)| <= k
    ensures forall i :: 0 <= i < |CriticalEntriesUpTo(r, k)| ==>
      IndexOf(CriticalEntriesUpTo(r, k)[i].param) < k
      && OutsideCritical(r, CriticalEntriesUpTo(r, k)[i].param)
      && CriticalEntriesUpTo(r, k)[i].value == r.Get(CriticalEntriesUpTo(r, k)[i].param)
    ensures forall i, j :: 0 <= i < j < |CriticalEntriesUpTo(r, k)| ==>
      IndexOf(CriticalEntriesUpTo(r, k)[i].param) < IndexOf(CriticalEntriesUpTo(r, k)[j].param)
  {
    if k > 0 {
      CriticalEntriesSound(r, k - 1);
      var prev := CriticalEntriesUpTo(r, k - 1);
      var q := AllParams[k - 1];
      assert IndexOf(q) == k - 1;
      var cur := CriticalEntriesUpTo(r, k);
      if OutsideCritical(r, q) {
        assert cur == prev + [CriticalEntry(q, r.Get(q))];
        assert cur[|prev|] == CriticalEntry(q, r.Get(q));
        assert forall i :: 0 <= i < |prev| ==> cur[i] == prev[i];
      } else {
        assert cur == prev;
      }
    }
  }

  /** Every parameter among the first `k` that is outside its critical bounds has its entry. */
  lemma {:induction false} CriticalEntriesComplete(r: Reading, k: nat)
    requires k <= |AllParams|
    ensures forall q: Param :: IndexOf(q) < k && OutsideCritical(r, q) ==>
      CriticalEntry(q, r.Get(q)) in CriticalEntriesUpTo(r, k)
  {
    if k > 0 {
      CriticalEntriesComplete(r, k - 1);
      var q := AllParams[k - 1];
      assert IndexOf(q) == k - 1;
      var prev := CriticalEntriesUpTo(r, k - 1);
      var cur := CriticalEntriesUpTo(r, k);
      assert forall e :: e in prev ==> e in cur;
      if OutsideCritical(r, q) {
        assert cur[|prev|] == CriticalEntry(q, r.Get(q));
      }
    }
  }

  /**
   * One entry per parameter outside its critical bounds, carrying its value,
   * in table order, and none for any other parameter.
   */
  lemma CriticalEntriesMeaning(r: Reading, k: nat)
    requires k <= |AllParams|
    ensures |CriticalEntriesUpTo(r, k)| <= k
    ensures forall i :: 0 <= i < |CriticalEntriesUpTo(r, k)| ==>
      IndexOf(CriticalEntriesUpTo(r, k)[i].param) < k
      && OutsideCritical(r, CriticalEntriesUpTo(r, k)[i].param)
      && CriticalEntriesUpTo(r, k)[i].value == r.Get(CriticalEntriesUpTo(r, k)[i].param)
    ensures forall q: Param :: IndexOf(q) < k && OutsideCritical(r, q) ==>
      CriticalEntry(q, r.Get(q)) in CriticalEntriesUpTo(r, k)
    ensures forall i, j :: 0 <= i < j < |CriticalEntriesUpTo(r, k)| ==>
      IndexOf(CriticalEntriesUpTo(r, k)[i].param) < IndexOf(CriticalEntriesUpTo(r, k)[j].param)
  {
    CriticalEntriesSound(r, k);
    CriticalEntriesComplete(r, k);
  }

  /** The test reading is inside every critical band: no entry. */
  lemma SampleReadingHasNoCriticalFactor()
    ensures CriticalEntries(Reading(22.0, 18.0, 150.0, 500.0, 22.0, 55.0, 7.2)) == []
  {
    var r := Reading(22.0, 18.0, 150.0, 500.0, 22.0, 55.0, 7.2);
    assert forall k :: 0 <= k <= 7 ==> CriticalEntriesUpTo(r, k) == [] by {
      assert CriticalEntriesUpTo(r, 0) == [];
      assert CriticalEntriesUpTo(r, 1) == [];
      assert CriticalEntriesUpTo(r, 2) == [];
      assert CriticalEntriesUpTo(r, 3) == [];
      assert CriticalEntriesUpTo(r, 4) == [];
      assert CriticalEntriesUpTo(r, 5) == [];
      assert CriticalEntriesUpTo(r, 6) == [];
    }
  }

  /** What analyze_reading returns, apart from its timestamp. */
  datatype MlAnalysis = MlAnalysis(timestamp: int, soilHealthIndex: int, healthStatus: HealthStatus,
                                   isAnomalous: bool, anomalyScore: real,
                                   criticalFactors: seq<CriticalEntry>, sensorReading: Reading)

  /** The fitted state an analyzer's results depend on. */
  datatype Models = Models(rf: Option<Forest>, iso: Option<Isolation>, scaler: Option<Reading -> Reading>)

  /** analyze_reading as a function of the models, the reading and the clock reading `now`. */
  function ReadingAnalysisOf(m: Models, reading: Reading, normalized: bool, now: int): Result<MlAnalysis, MlError> {
    match SoilHealthIndexOf(m.rf, m.scaler, reading, normalized)
    case Failure(e) => Failure(e)
    case Success(h) =>
      match AnomalyOf(m.iso, m.scaler, reading, normalized)
      case Failure(e) => Failure(e)
      case Success(a) => Success(MlAnalysis(now, h.0, h.1, a.0, a.1, CriticalEntries(reading), reading))
  }

  /**
   * The only failure of an analysis is an unfitted scaler when scaling is
   * asked for; otherwise the record carries the status of its own index and
   * exactly the critical entries of the reading.
   */
  lemma ReadingAnalysisMeaning(m: Models, reading: Reading, normalized: bool, now: int)
    ensures ReadingAnalysisOf(m, reading, normalized, now).Failure? <==> normalized && m.scaler.None?
    ensures ReadingAnalysisOf(m, reading, normalized, now).Success? ==>
      var a := ReadingAnalysisOf(m, reading, normalized, now).value;
      && a.healthStatus == StatusFor(a.soilHealthIndex)
      && a.criticalFactors == CriticalEntries(reading)
      && a.sensorReading == reading && a.timestamp == now
      && (m.iso.None? ==> !a.isAnomalous && a.anomalyScore == 0.0)
      && (m.rf.None? ==> a.soilHealthIndex == 50 && a.healthStatus == Fair)
  {
  }

  class SoilHealthAnalyzer {
    var rfModel: Option<Forest>
    var isolationForest: Option<Isolation>
    /** The scaler's transform, None while it has not been fitted. */
    var scaler: Option<Reading -> Reading>

    function CurrentModels(): Models
      reads this
    {
      Models(rfModel, isolationForest, scaler)
    }

    /** A fresh analyzer: no model, an unfitted scaler. */
    constructor ()
      ensures rfModel == None && isolationForest == None && scaler == None
    {
      rfModel := None;
      isolationForest := None;
      scaler := None;
    }

    /** calculate_soil_health_index */
    method CalculateSoilHealthIndex(reading: Reading, normalized: bool)
      returns (r: Result<(int, HealthStatus), MlError>)
      ensures r == SoilHealthIndexOf(rfModel, scaler, reading, normalized)
      ensures r.Success? ==> r.value.1 == StatusFor(r.value.0)
      ensures rfModel.None? && (!normalized || scaler.Some?) ==> r == Success((50, Fair))
    {
      var features := Features(scaler, reading, normalized);
      if features.Failure? {
        return Failure(features.error);
      }
      var healthProb;
      if rfModel.Some? {
        healthProb := rfModel.value.healthyProbability(features.value);
      } else {
        healthProb := 0.5;
      }
      var healthIndex := Trunc(healthProb * 100.0);
      var status;
      if healthIndex >= 75 {
        status := Excellent;
      } else if healthIndex >= 60 {
        status := Good;
      } else if healthIndex >= 45 {
        status := Fair;
      } else if healthIndex >= 30 {
        status := Poor;
      } else {
        status := Critical;
      }
      r := Success((healthIndex, status));
    }

    /** detect_anomalies: (False, 0.0) without an isolation forest, before any scaling. */
    method DetectAnomalies(reading: Reading, normalized: bool) returns (r: Result<(bool, real), MlError>)
      ensures r == AnomalyOf(isolationForest, scaler, reading, normalized)
      ensures isolationForest.None? ==> r == Success((false, 0.0))
      ensures isolationForest.Some? && r.Success? ==>
        (r.value.0 <==> isolationForest.value.predict(Features(scaler, reading, normalized).value) == -1)
    {
      if isolationForest.None? {
        return Success((false, 0.0));
      }
      var features := Features(scaler, reading, normalized);
      if features.Failure? {
        return Failure(features.error);
      }
      var anomalyPred := isolationForest.value.predict(features.value);
      var anomalyScore := -isolationForest.value.scoreSamples(features.value);
      r := Success((anomalyPred == -1, anomalyScore));
    }

    /** _identify_critical_factors: seven checks against the critical bounds. */
    method IdentifyCriticalFactors(reading: Reading) returns (criticalFactors: seq<CriticalEntry>)
      ensures criticalFactors == CriticalEntries(reading)
    {
      criticalFactors := [];
      if reading.n < 10.0 || reading.n > 40.0 {
        criticalFactors := criticalFactors + [CriticalEntry(N, reading.n)];
      }
      assert criticalFactors == CriticalEntriesUpTo(reading, 1);
      if reading.p < 5.0 || reading.p > 35.0 {
        criticalFactors := criticalFactors + [CriticalEntry(P, reading.p)];
      }
      assert criticalFactors == CriticalEntriesUpTo(reading, 2);
      if reading.k < 50.0 || reading.k > 300.0 {
        criticalFactors := criticalFactors + [CriticalEntry(K, reading.k)];
      }
      assert criticalFactors == CriticalEntriesUpTo(reading, 3);
      if reading.co2 < 300.0 || reading.co2 > 800.0 {
        criticalFactors := criticalFactors + [CriticalEntry(CO2, reading.co2)];
      }
      assert criticalFactors == CriticalEntriesUpTo(reading, 4);
      if reading.temperature < 10.0 || reading.temperature > 30.0 {
        criticalFactors := criticalFactors + [CriticalEntry(Temperature, reading.temperature)];
      }
      assert criticalFactors == CriticalEntriesUpTo(reading, 5);
      if reading.moisture < 30.0 || reading.moisture > 70.0 {
        criticalFactors := criticalFactors + [CriticalEntry(Moisture, reading.moisture)];
      }
      assert criticalFactors == CriticalEntriesUpTo(reading, 6);
      if reading.ph < 6.0 || reading.ph > 8.0 {
        criticalFactors := criticalFactors + [CriticalEntry(PH, reading.ph)];
      }
      assert criticalFactors == CriticalEntriesUpTo(reading, 7);
    }

    /**
     * analyze_reading: the three results copied unchanged into one record;
     * an unfitted scaler in the health-index step raises out of it.
     */
    method AnalyzeReading(reading: Reading, normalized: bool, now: int) returns (r: Result<MlAnalysis, MlError>)
      ensures r == ReadingAnalysisOf(CurrentModels(), reading, normalized, now)
    {
      var health := CalculateSoilHealthIndex(reading, normalized);
      if health.Failure? {
        return Failure(health.error);
      }
      // The health step succeeded, so the scaler it needed is there for this one too.
      var anomaly := DetectAnomalies(reading, normalized);
      var criticalFactors := IdentifyCriticalFactors(reading);
      r := Success(MlAnalysis(now, health.value.0, health.value.1, anomaly.value.0, anomaly.value.1,
                              criticalFactors, reading));
    }

    /**
     * train_on_csv: without data nothing changes; otherwise the scaler, the
     * isolation forest and the random forest are fitted, in that order.
     * The fitting itself is sklearn's and is given as the fitted objects.
     */
    method TrainOnCsv(data: Option<seq<Reading>>, fittedScaler: Reading -> Reading,
                      fittedIsolation: Isolation, fittedForest: Forest) returns (ok: bool)
      modifies this
      ensures ok <==> data.Some?
      ensures !ok ==> rfModel == old(rfModel) && isolationForest == old(isolationForest) && scaler == old(scaler)
      ensures ok ==> (rfModel == Some(fittedForest) && isolationForest == Some(fittedIsolation)
        && scaler == Some(fittedScaler))
    {
      if data.None? {
        return false;
      }
      scaler := Some(fittedScaler);
      isolationForest := Some(fittedIsolation);
      var labels := HealthLabels(data.value);
      rfModel := Some(fittedForest);
      ok := true;
    }

    /**
     * load_model: loads the three files in order and stops at the first one
     * missing, keeping what was already loaded.
     */
    method LoadModel(healthFile: Option<Forest>, anomalyFile: Option<Isolation>,
                     scalerFile: Option<Reading -> Reading>) returns (ok: bool)
      modifies this
      ensures ok <==> healthFile.Some? && anomalyFile.Some? && scalerFile.Some?
      ensures rfModel == if healthFile.Some? then healthFile else old(rfModel)
      ensures isolationForest == if healthFile.Some? && anomalyFile.Some? then anomalyFile else old(isolationForest)
      ensures scaler == if ok then scalerFile else old(scaler)
    {
      if healthFile.None? {
        return false;
      }
      rfModel := healthFile;
      if anomalyFile.None? {
        return false;
      }
      isolationForest := anomalyFile;
      if scalerFile.None? {
        return false;
      }
      scaler := scalerFile;
      ok := true;
    }
  }

  /** A fresh analyzer cannot score a reading with scaling: the scaler is not fitted. */
  lemma FreshAnalyzerNeedsScaler(r: Reading)
    ensures SoilHealthIndexOf(None, None, r, true) == Failure(NotFitted)
    ensures SoilHealthIndexOf(None, None, r, false) == Success((50, Fair))
    ensures AnomalyOf(None, None, r, true) == Success((false, 0.0))
  {
  }
}
