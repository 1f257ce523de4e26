/**
 * backend/app_old.py: the earlier Flask service that answers every request
 * with the machine-learning analyzer of soil_health_ml.py. Each endpoint is
 * a function of the request body and of the analyzer's fitted state; the
 * analyzer is only read by the endpoints.
 *
 * Exceptions follow Python: float() raises ValueError on a string it
 * cannot parse and TypeError on null, a list or an object; the scaler's
 * NotFittedError is a subclass of ValueError. Only /analyze turns a
 * ValueError into 400; every other endpoint answers 500 for any exception.
 *
 * With an isolation forest loaded, the anomaly flag the analyzer returns is
 * the result of comparing numpy values, a numpy.bool_, which Flask's JSON
 * encoder cannot serialize: jsonify raises TypeError, and an analysis or
 * anomaly answer that carries such a flag becomes a 500. Without one the
 * flag is Python's False and serializes.
 */
module LegacyApi {
  import opened Wrappers
  import opened Soil
  import opened SoilHealthMl
  import Config

  datatype Severity = Low | Medium | High

  /** An entry of the optimal-ranges table this service publishes. */
  datatype RangeEntry = RangeEntry(field: string, min: real, max: real, unit: string, description: string)

  datatype LegacyResponse =
    | AnalysisBody(analysis: MlAnalysis)
    | HealthIndexBody(healthIndex: int, healthStatus: HealthStatus, scale: string)
    | AnomalyBody(isAnomalous: bool, anomalyScore: real, severity: Severity)
    | CriticalFactorsBody(criticalFactors: seq<CriticalEntry>, factorCount: nat, status: string)
    | OptimalRangesBody(ranges: seq<RangeEntry>)
    | BatchBody(count: nat, analyses: seq<MlAnalysis>)
    | MissingFields(required: seq<string>)
    | MissingFieldsInReading(index: nat, required: seq<string>)
    | InvalidDataType
    | InvalidRequestFormat
    | InternalServerError

  function StatusCode(r: LegacyResponse): int {
    match r
    case MissingFields(_) => 400
    case MissingFieldsInReading(_, _) => 400
    case InvalidDataType => 400
    case InvalidRequestFormat => 400
    case InternalServerError => 500
    case _ => 200
  }

  /**
   * The part every single-reading endpoint shares: the field check, then
   * the conversion. A missing field is a 400 everywhere; a conversion
   * failure is left to the endpoint.
   */
  function Validated(data: map<string, RawValue>): Result<Result<Reading, ConversionError>, LegacyResponse> {
    if !HasAllFields(data) then Failure(MissingFields(RequiredFields))
    else Success(ConvertReading(data))
  }

  /** Whether jsonify can serialize the anomaly flag the analyzer returns with models `m`. */
  predicate FlagSerializes(m: Models) {
    m.iso.None?
  }

  /** POST /api/soil-health/analyze */
  function AnalyzeEndpoint(m: Models, data: map<string, RawValue>, now: int): LegacyResponse {
    match Validated(data)
    case Failure(resp) => resp
    case Success(Failure(e)) => if e == ValueError then InvalidDataType else InternalServerError
    case Success(Success(r)) =>
      match ReadingAnalysisOf(m, r, true, now)
      case Failure(NotFitted) => InvalidDataType
      case Success(a) => if FlagSerializes(m) then AnalysisBody(a) else InternalServerError
  }

  /** POST /api/soil-health/health-index */
  function HealthIndexEndpoint(m: Models, data: map<string, RawValue>): LegacyResponse {
    match Validated(data)
    case Failure(resp) => resp
    case Success(Failure(_)) => InternalServerError
    case Success(Success(r)) =>
      match SoilHealthIndexOf(m.rf, m.scaler, r, true)
      case Failure(_) => InternalServerError
      case Success(h) => HealthIndexBody(h.0, h.1, "1-100")
  }

  /** `'High' if score > 0.7 else 'Medium' if score > 0.4 else 'Low'` */
  function SeverityOf(score: real): Severity {
    if score > 0.7 then High else if score > 0.4 then Medium else Low
  }

  /** POST /api/soil-health/anomaly */
  function AnomalyEndpoint(m: Models, data: map<string, RawValue>): LegacyResponse {
    match Validated(data)
    case Failure(resp) => resp
    case Success(Failure(_)) => InternalServerError
    case Success(Success(r)) =>
      match AnomalyOf(m.iso, m.scaler, r, true)
      case Failure(_) => InternalServerError
      case Success(a) => if FlagSerializes(m) then AnomalyBody(a.0, a.1, SeverityOf(a.1)) else InternalServerError
  }

  /** POST /api/soil-health/critical-factors */
  function CriticalFactorsEndpoint(data: map<string, RawValue>): LegacyResponse {
    match Validated(data)
    case Failure(resp) => resp
    case Success(Failure(_)) => InternalServerError
    case Success(Success(r)) =>
      var factors := CriticalEntries(r);
      CriticalFactorsBody(factors, |factors|, if |factors| == 0 then "Healthy" else "Needs Attention")
  }

  /** GET /api/soil-health/optimal-ranges */
  const LegacyOptimalRanges: seq<RangeEntry> := [
    RangeEntry("N", 15.0, 30.0, "mg/kg", "Nitrogen"),
    RangeEntry("P", 10.0, 25.0, "mg/kg", "Phosphorus"),
    RangeEntry("K", 100.0, 200.0, "mg/kg", "Potassium"),
    RangeEntry("CO2", 400.0, 600.0, "ppm", "Carbon Dioxide"),
    RangeEntry("Temperature", 15.0, 25.0, "Â°C", "Temperature"),
    RangeEntry("Moisture", 40.0, 60.0, "%", "Moisture"),
    RangeEntry("pH", 6.5, 7.5, "pH", "Acidity/Alkalinity")
  ]

  function OptimalRangesEndpoint(): LegacyResponse {
    OptimalRangesBody(LegacyOptimalRanges)
  }

  // ---------------------------------------------------------------------
  // Properties of the single-reading endpoints

  /**
   * Every endpoint answers a missing field with 400 and the list of
   * required fields, and only then.
   */
  lemma MissingFieldIsBadRequest(m: Models, data: map<string, RawValue>, now: int)
    ensures AnalyzeEndpoint(m, data, now) == MissingFields(RequiredFields) <==> !HasAllFields(data)
    ensures HealthIndexEndpoint(m, data) == MissingFields(RequiredFields) <==> !HasAllFields(data)
    ensures AnomalyEndpoint(m, data) == MissingFields(RequiredFields) <==> !HasAllFields(data)
    ensures CriticalFactorsEndpoint(data) == MissingFields(RequiredFields) <==> !HasAllFields(data)
  {
  }

  /**
   * With every field present, a value float() cannot convert is a 400 in
   * /analyze exactly when the first failing field is an unparseable string,
   * and a 500 in the other endpoints whatever the exception.
   */
  lemma ConversionErrorHandling(m: Models, data: map<string, RawValue>, now: int)
    requires HasAllFields(data) && ConvertReading(data).Failure?
    ensures StatusCode(AnalyzeEndpoint(m, data, now)) == 400 <==> ConvertReading(data).error == ValueError
    ensures StatusCode(AnalyzeEndpoint(m, data, now)) == 500 <==> ConvertReading(data).error == TypeError
    ensures HealthIndexEndpoint(m, data) == InternalServerError
    ensures AnomalyEndpoint(m, data) == InternalServerError
    ensures CriticalFactorsEndpoint(data) == InternalServerError
  {
  }

  /**
   * An analyzer whose scaler was never fitted cannot serve a valid reading:
   * /analyze reports it as a bad data type (400), the health-index and
   * anomaly endpoints as 500 unless no isolation forest is loaded, in which
   * case /anomaly answers with no anomaly at severity Low. Critical factors
   * do not use the models at all.
   */
  lemma UnfittedScaler(m: Models, data: map<string, RawValue>, now: int)
    requires m.scaler.None? && HasAllFields(data) && ConvertReading(data).Success?
    ensures AnalyzeEndpoint(m, data, now) == InvalidDataType
    ensures HealthIndexEndpoint(m, data) == InternalServerError
    ensures m.iso.Some? ==> AnomalyEndpoint(m, data) == InternalServerError
    ensures m.iso.None? ==> AnomalyEndpoint(m, data) == AnomalyBody(false, 0.0, Low)
    ensures StatusCode(CriticalFactorsEndpoint(data)) == 200
  {
  }

  /**
   * A valid reading with a fitted scaler is analysed: /health-index returns
   * its index and status on the 1-100 scale whatever the models. /analyze
   * returns the analyzer's record and /anomaly the flag and score with the
   * severity of the score when no isolation forest is loaded; with one, the
   * flag does not serialize and both answer 500.
   */
  lemma ValidReadingSucceeds(m: Models, data: map<string, RawValue>, now: int)
    requires m.scaler.Some? && HasAllFields(data) && ConvertReading(data).Success?
    ensures m.iso.None? ==>
      AnalyzeEndpoint(m, data, now) == AnalysisBody(ReadingAnalysisOf(m, ConvertReading(data).value, true, now).value)
    ensures m.iso.Some? ==> AnalyzeEndpoint(m, data, now) == InternalServerError
    ensures HealthIndexEndpoint(m, data).HealthIndexBody?
    ensures HealthIndexEndpoint(m, data).healthStatus == StatusFor(HealthIndexEndpoint(m, data).healthIndex)
    ensures HealthIndexEndpoint(m, data).scale == "1-100"
    ensures m.iso.None? ==>
      && AnomalyEndpoint(m, data).AnomalyBody?
      && AnomalyEndpoint(m, data).severity == SeverityOf(AnomalyEndpoint(m, data).anomalyScore)
    ensures m.iso.Some? ==> AnomalyEndpoint(m, data) == InternalServerError
  {
  }

  /** The severity bands: above 0.7 High, above 0.4 Medium, else Low; higher scores never rank lower. */
  lemma SeverityMeaning(x: real, y: real)
    ensures SeverityOf(x) == High <==> x > 0.7
    ensures SeverityOf(x) == Medium <==> 0.4 < x <= 0.7
    ensures SeverityOf(x) == Low <==> x <= 0.4
    ensures x <= y && SeverityOf(x) == High ==> SeverityOf(y) == High
    ensures x <= y && SeverityOf(x) == Medium ==> SeverityOf(y) != Low
  {
  }

  /**
   * The endpoint's bands are not the ANOMALY_SEVERITY_THRESHOLDS of the
   * configuration: a score of 0.68 is High there and Medium here, 0.35 is
   * Medium there and Low here.
   */
  lemma SeverityDiffersFromConfig()
    ensures Config.InSeverityBand(0.68, "High") && SeverityOf(0.68) == Medium
    ensures Config.InSeverityBand(0.35, "Medium") && SeverityOf(0.35) == Low
  {
  }

  /**
   * The factor count is the length of the list, and the status is
   * "Healthy" exactly when no parameter is outside its critical bounds.
   */
  lemma CriticalFactorsMeaning(data: map<string, RawValue>)
    requires HasAllFields(data) && ConvertReading(data).Success?
    ensures CriticalFactorsEndpoint(data).CriticalFactorsBody?
    ensures CriticalFactorsEndpoint(data).factorCount == |CriticalFactorsEndpoint(data).criticalFactors|
    ensures CriticalFactorsEndpoint(data).status == "Healthy" <==>
      forall q: Param :: !OutsideCritical(ConvertReading(data).value, q)
  {
    var r := ConvertReading(data).value;
    CriticalEntriesMeaning(r, |AllParams|);
    if CriticalEntries(r) == [] {
      forall q: Param ensures !OutsideCritical(r, q) {
        assert IndexOf(q) < |AllParams|;
      }
    } else {
      assert OutsideCritical(r, CriticalEntries(r)[0].param);
    }
  }

  /**
   * Every published range has min < max and agrees with OPTIMAL_RANGES of
   * the configuration; the units and the descriptions are shorter texts.
   */
  lemma OptimalRangesWellFormed()
    ensures |LegacyOptimalRanges| == |AllParams|
    ensures forall i :: 0 <= i < |LegacyOptimalRanges| ==>
      && LegacyOptimalRanges[i].min < LegacyOptimalRanges[i].max
      && LegacyOptimalRanges[i].field == FieldName(AllParams[i])
      && LegacyOptimalRanges[i].min == Config.RangeOf(AllParams[i]).min
      && LegacyOptimalRanges[i].max == Config.RangeOf(AllParams[i]).max
  {
  }

  // ---------------------------------------------------------------------
  // POST /api/soil-health/batch-analyze

  /** One reading of a batch: a 400 naming its index when a field is missing, a 500 for any exception. */
  function BatchItem(m: Models, item: map<string, RawValue>, i: nat, now: int): Result<MlAnalysis, LegacyResponse> {
    if !HasAllFields(item) then Failure(MissingFieldsInReading(i, RequiredFields))
    else match ConvertReading(item)
      case Failure(_) => Failure(InternalServerError)
      case Success(r) =>
        match ReadingAnalysisOf(m, r, true, now)
        case Failure(_) => Failure(InternalServerError)
        case Success(a) => Success(a)
  }

  /** The values of the first `k` results in order, or the first failure among them. */
  function Collect<A, E>(results: seq<Result<A, E>>, k: nat): Result<seq<A>, E>
    requires k <= |results|
  {
    if k == 0 then Success([])
    else match Collect(results, k - 1)
      case Failure(e) => Failure(e)
      case Success(prev) =>
        match results[k - 1]
        case Failure(e) => Failure(e)
        case Success(a) => Success(prev + [a])
  }

  /**
   * Collecting succeeds exactly when each result does, with their values
   * in order; otherwise it fails with the first failure.
   */
  lemma {:induction false} CollectMeaning<A, E>(results: seq<Result<A, E>>, k: nat)
    requires k <= |results|
    ensures Collect(results, k).Success? <==> forall i :: 0 <= i < k ==> results[i].Success?
    ensures Collect(results, k).Success? ==>
      |Collect(results, k).value| == k && forall i :: 0 <= i < k ==> Collect(results, k).value[i] == results[i].value
    ensures Collect(results, k).Failure? ==>
      exists j :: 0 <= j < k && results[j] == Failure(Collect(results, k).error)
        && forall i :: 0 <= i < j ==> results[i].Success?
  {
    if k > 0 {
      CollectMeaning(results, k - 1);
      var prev := Collect(results, k - 1);
      if prev.Failure? {
        var j :| 0 <= j < k - 1 && results[j] == Failure(prev.error) && forall i :: 0 <= i < j ==> results[i].Success?;
        assert results[j].Failure?;
      }
    }
  }

  /** Once the first `k` results hold a failure, collecting all of them fails the same way. */
  lemma {:induction false} CollectFailureStays<A, E>(results: seq<Result<A, E>>, k: nat)
    requires k <= |results| && Collect(results, k).Failure?
    ensures Collect(results, |results|) == Collect(results, k)
    decreases |results| - k
  {
    if k < |results| {
      CollectFailureStays(results, k + 1);
    }
  }

  /** The answer for each reading of the batch, in order. */
  function BatchResults(m: Models, items: seq<map<string, RawValue>>, clock: nat -> int)
    : (rs: seq<Result<MlAnalysis, LegacyResponse>>)
    ensures |rs| == |items| && forall i :: 0 <= i < |items| ==> rs[i] == BatchItem(m, items[i], i, clock(i))
  {
    seq(|items|, i requires 0 <= i < |items| => BatchItem(m, items[i], i, clock(i)))
  }

  /** The first `k` readings analysed in order, or the answer for the first one that fails. */
  function BatchUpTo(m: Models, items: seq<map<string, RawValue>>, clock: nat -> int, k: nat)
    : Result<seq<MlAnalysis>, LegacyResponse>
    requires k <= |items|
  {
    Collect(BatchResults(m, items, clock), k)
  }

  /**
   * The response: no "readings" list (absent, or not a list) is a 400;
   * otherwise the batch's analyses with their count, or the answer for the
   * first reading that fails. `clock(i)` is the clock reading taken while
   * analysing reading `i`. A non-empty list of analyses carries the flags
   * of the analyzer, so it serializes only when those do.
   */
  function BatchEndpoint(m: Models, readings: Option<seq<map<string, RawValue>>>, clock: nat -> int): LegacyResponse {
    if readings.None? then InvalidRequestFormat
    else match BatchUpTo(m, readings.value, clock, |readings.value|)
      case Failure(e) => e
      case Success(analyses) =>
        if FlagSerializes(m) || |analyses| == 0 then BatchBody(|analyses|, analyses) else InternalServerError
  }

  /**
   * The batch up to `k` succeeds exactly when each of those readings does,
   * with one analysis per reading in order; otherwise it fails with the
   * answer of the first reading that fails.
   */
  lemma BatchUpToMeaning(m: Models, items: seq<map<string, RawValue>>, clock: nat -> int, k: nat)
    requires k <= |items|
    ensures BatchUpTo(m, items, clock, k).Success? <==>
      forall i :: 0 <= i < k ==> BatchItem(m, items[i], i, clock(i)).Success?
    ensures BatchUpTo(m, items, clock, k).Success? ==>
      |BatchUpTo(m, items, clock, k).value| == k
      && forall i :: 0 <= i < k ==> BatchUpTo(m, items, clock, k).value[i] == BatchItem(m, items[i], i, clock(i)).value
    ensures BatchUpTo(m, items, clock, k).Failure? ==>
      exists j :: 0 <= j < k
        && BatchItem(m, items[j], j, clock(j)) == Failure(BatchUpTo(m, items, clock, k).error)
        && forall i :: 0 <= i < j ==> BatchItem(m, items[i], i, clock(i)).Success?
  {
    CollectMeaning(BatchResults(m, items, clock), k);
  }

  /**
   * A batch is answered 200 exactly when "readings" is a list whose every
   * reading is complete, converts and can be analysed, and the analyses
   * serialize (no isolation forest is loaded, or the list is empty); the
   * analyses then keep the order of the readings and the count is their
   * number. A 400 naming index j means reading j is the first to fail, by a
   * missing field.
   */
  lemma BatchMeaning(m: Models, readings: Option<seq<map<string, RawValue>>>, clock: nat -> int)
    ensures BatchEndpoint(m, readings, clock).BatchBody? <==>
      && readings.Some?
      && (forall i :: 0 <= i < |readings.value| ==> BatchItem(m, readings.value[i], i, clock(i)).Success?)
      && (m.iso.None? || |readings.value| == 0)
    ensures (&& readings.Some? && m.iso.Some? && |readings.value| > 0
             && forall i :: 0 <= i < |readings.value| ==> BatchItem(m, readings.value[i], i, clock(i)).Success?) ==>
      BatchEndpoint(m, readings, clock) == InternalServerError
    ensures BatchEndpoint(m, readings, clock).BatchBody? ==>
      var body := BatchEndpoint(m, readings, clock);
      && body.count == |readings.value| == |body.analyses|
      && forall i :: 0 <= i < |readings.value| ==>
           body.analyses[i] == ReadingAnalysisOf(m, ConvertReading(readings.value[i]).value, true, clock(i)).value
    ensures BatchEndpoint(m, readings, clock).MissingFieldsInReading? ==>
      var j := BatchEndpoint(m, readings, clock).index;
      && readings.Some? && j < |readings.value|
      && !HasAllFields(readings.value[j])
      && forall i :: 0 <= i < j ==> BatchItem(m, readings.value[i], i, clock(i)).Success?
    ensures BatchEndpoint(m, readings, clock) == InvalidRequestFormat <==> readings.None?
  {
    if readings.Some? {
      BatchUpToMeaning(m, readings.value, clock, |readings.value|);
    }
  }

  /** The batch loop: analyses appended in order, returning at the first reading that fails. */
  method BatchAnalyze(m: Models, readings: Option<seq<map<string, RawValue>>>, clock: nat -> int)
    returns (resp: LegacyResponse)
    ensures resp == BatchEndpoint(m, readings, clock)
  {
    if readings.None? {
      return InvalidRequestFormat;
    }
    var items := readings.value;
    var analyses: seq<MlAnalysis> := [];
    var i := 0;
    while i < |items|
      invariant 0 <= i <= |items|
      invariant BatchUpTo(m, items, clock, i) == Success(analyses)
    {
      var item := BatchItem(m, items[i], i, clock(i));
      if item.Failure? {
        BatchFailureStays(m, items, clock, i + 1);
        return item.error;
      }
      analyses := analyses + [item.value];
      i := i + 1;
    }
    if FlagSerializes(m) || |analyses| == 0 {
      resp := BatchBody(|analyses|, analyses);
    } else {
      resp := InternalServerError;
    }
  }

  /** Once a prefix of the batch fails, every longer prefix fails with the same answer. */
  lemma BatchFailureStays(m: Models, items: seq<map<string, RawValue>>, clock: nat -> int, k: nat)
    requires k <= |items| && BatchUpTo(m, items, clock, k).Failure?
    ensures BatchUpTo(m, items, clock, |items|) == BatchUpTo(m, items, clock, k)
  {
    CollectFailureStays(BatchResults(m, items, clock), k);
  }

  /**
   * init_model: load the saved models; when that fails, train on the data
   * file. Saving the trained models to disk is not modelled.
   */
  method InitModel(analyzer: SoilHealthAnalyzer,
                   healthFile: Option<Forest>, anomalyFile: Option<Isolation>, scalerFile: Option<Reading -> Reading>,
                   data: Option<seq<Reading>>, fittedScaler: Reading -> Reading,
                   fittedIsolation: Isolation, fittedForest: Forest)
    returns (ready: bool)
    modifies analyzer
    ensures ready <==> (healthFile.Some? && anomalyFile.Some? && scalerFile.Some?) || data.Some?
    ensures healthFile.Some? && anomalyFile.Some? && scalerFile.Some? ==>
      analyzer.CurrentModels() == Models(healthFile, anomalyFile, scalerFile)
    ensures !(healthFile.Some? && anomalyFile.Some? && scalerFile.Some?) && data.Some? ==>
      analyzer.CurrentModels() == Models(Some(fittedForest), Some(fittedIsolation), Some(fittedScaler))
    ensures !ready ==>
      analyzer.CurrentModels() == Models(
        if healthFile.Some? then healthFile else old(analyzer.rfModel),
        if healthFile.Some? && anomalyFile.Some? then anomalyFile else old(analyzer.isolationForest),
        old(analyzer.scaler))
  {
    var loaded := analyzer.LoadModel(healthFile, anomalyFile, scalerFile);
    if loaded {
      return true;
    }
    ready := analyzer.TrainOnCsv(data, fittedScaler, fittedIsolation, fittedForest);
  }
}
