/**
 * The stateful part of backend/app.py: the module-level `mysql_available`
 * flag, the CSV file data/sensor_readings.csv and the MySQL table
 * sensor_readings, the dual write of /analyze, and the read endpoints.
 * Whether the file append, the MySQL connection and the MySQL insert
 * succeed is decided outside the program, so each is a parameter.
 */
module Backend {
  import opened Wrappers
  import opened Soil
  import opened PySeq
  import opened CsvText
  import opened CsvQueries
  import RuleAnalysis

  /** What analyze_soil computes for an accepted reading. */
  datatype Analysis = Analysis(healthIndex: int, healthStatus: HealthStatus, isAnomalous: bool,
                               anomalyScore: real, criticalFactors: seq<string>)

  /** The three rule-based analyses of a reading, through the dict analyze_soil builds. */
  function AnalysisOf(r: Reading): Analysis {
    var d := RuleAnalysis.AnalysisDict(r);
    var index := RuleAnalysis.HealthIndexOf(d);
    Analysis(index, StatusFor(index), RuleAnalysis.AnomalyResultOf(d).0,
             RuleAnalysis.AnomalyResultOf(d).1, RuleAnalysis.CriticalNames(RuleAnalysis.FactorTable, d))
  }

  /** The seven request values in the order of `required_fields`. */
  function RawValues(data: map<string, RawValue>): (vs: seq<RawValue>)
    requires HasAllFields(data)
    ensures |vs| == 7
  {
    [data[FieldName(N)], data[FieldName(P)], data[FieldName(K)], data[FieldName(CO2)],
     data[FieldName(Temperature)], data[FieldName(Moisture)], data[FieldName(PH)]]
  }

  /** The line save_to_csv appends, in the column order of its writer. */
  function AppLine(now: int, data: map<string, RawValue>, a: Analysis): (line: seq<CellText>)
    requires HasAllFields(data)
    ensures |line| == |AppColumns|
  {
    [TimeText(now)]
      + seq(7, i requires 0 <= i < 7 => RawText(RawValues(data)[i]))
      + [IntText(a.healthIndex), Literal(StatusName(a.healthStatus)),
         Literal(if a.isAnomalous then "True" else "False"), FloatText(a.anomalyScore),
         JsonList(a.criticalFactors)]
  }

  /** One row of the sensor_readings table; the FLOAT columns hold the converted values. */
  datatype MysqlRow = MysqlRow(id: nat, timestamp: int, reading: Reading, healthIndex: int,
                               healthStatus: HealthStatus, isAnomalous: bool, anomalyScore: real,
                               criticalFactors: seq<string>)

  /** The response of /analyze. */
  datatype AnalyzeResponse =
    | Analyzed(timestamp: int, analysis: Analysis, sensorReadings: seq<RawValue>)  // 200
    | MissingFields(required: seq<string>)                                          // 400
    | InvalidDataType                                                               // 400
    | InternalError                                                                 // 500

  /** The store a write went to, in the order analyze_soil attempts them. */
  datatype Store = CsvStore | MysqlStore

  /** The response analyze_soil gives, which no store outcome affects. */
  function AnalyzeResponseOf(data: map<string, RawValue>, now: int): AnalyzeResponse {
    if !HasAllFields(data) then MissingFields(RequiredFields)
    else match ConvertReading(data)
      case Failure(e) => if e == ValueError then InvalidDataType else InternalError
      case Success(r) => Analyzed(now, AnalysisOf(r), RawValues(data))
  }

  /**
   * A request missing a field gets 400 with the field list. Otherwise the
   * fields are converted in table order and the first failure decides: a
   * string float() rejects gives 400, a value of the wrong type (None, a
   * list, an object) 500. With every field converted, 200 with the analysis.
   */
  lemma AnalyzeResponseMeaning(data: map<string, RawValue>, now: int)
    ensures AnalyzeResponseOf(data, now).MissingFields? <==> exists q: Param :: FieldName(q) !in data
    ensures AnalyzeResponseOf(data, now).MissingFields? ==> AnalyzeResponseOf(data, now).required == RequiredFields
    ensures AnalyzeResponseOf(data, now).InvalidDataType? <==>
      HasAllFields(data)
      && exists j :: 0 <= j < |AllParams| && ToFloat(data[FieldName(AllParams[j])]) == Failure(ValueError)
           && forall i :: 0 <= i < j ==> ToFloat(data[FieldName(AllParams[i])]).Success?
    ensures AnalyzeResponseOf(data, now).Analyzed? <==>
      HasAllFields(data) && forall q: Param :: ToFloat(data[FieldName(q)]).Success?
    ensures AnalyzeResponseOf(data, now).Analyzed? ==>
      AnalyzeResponseOf(data, now) == Analyzed(now, AnalysisOf(ConvertReading(data).value), RawValues(data))
  {
    if HasAllFields(data) {
      assert AllParams[0..] == AllParams;
      FirstConversionErrorIsFirst(data, AllParams, 0);
    }
  }

  /** The error reported for the fields of `ps` from position `k` on is that of the first one that fails. */
  lemma {:induction false} FirstConversionErrorIsFirst(data: map<string, RawValue>, ps: seq<Param>, k: nat)
    requires HasAllFields(data) && k <= |ps|
    ensures FirstConversionError(data, ps[k..]) == Some(ValueError) <==>
      exists j :: k <= j < |ps| && ToFloat(data[FieldName(ps[j])]) == Failure(ValueError)
        && forall i :: k <= i < j ==> ToFloat(data[FieldName(ps[i])]).Success?
    decreases |ps| - k
  {
    if k < |ps| {
      assert ps[k..][1..] == ps[k + 1..];
      assert ps[k..][0] == ps[k];
      FirstConversionErrorIsFirst(data, ps, k + 1);
    }
  }

  // ---------------------------------------------------------------------
  // /latest, MySQL branch

  /** A row with the largest timestamp: the first of them, in table order. */
  function Newest(rows: seq<MysqlRow>): (r: MysqlRow)
    requires |rows| > 0
    ensures r in rows && forall x :: x in rows ==> x.timestamp <= r.timestamp
  {
    if |rows| == 1 then rows[0]
    else
      var rest := Newest(rows[1..]);
      assert forall x :: x in rows ==> x == rows[0] || x in rows[1..];
      if rows[0].timestamp >= rest.timestamp then rows[0] else rest
  }

  function MysqlEntry(row: MysqlRow): ReadingEntry {
    ReadingEntry(Some(TimeText(row.timestamp)), row.healthIndex, Some(Literal(StatusName(row.healthStatus))),
                 row.isAnomalous, row.anomalyScore,
                 [row.reading.n, row.reading.p, row.reading.k, row.reading.co2,
                  row.reading.temperature, row.reading.moisture, row.reading.ph])
  }

  /** `ORDER BY timestamp DESC LIMIT 1`: an empty table is a 404 in MySQL mode, not a fallback. */
  function MysqlLatestOf(rows: seq<MysqlRow>): (r: LatestResponse)
    ensures |rows| == 0 <==> r == LatestNotFound(MySQL)
    ensures |rows| > 0 ==>
      && r.LatestOk? && r.mode == MySQL
      && exists x :: x in rows && r.entry == MysqlEntry(x) && r.criticalFactors == x.criticalFactors
           && forall y :: y in rows ==> y.timestamp <= x.timestamp
  {
    if |rows| == 0 then LatestNotFound(MySQL)
    else
      var x := Newest(rows);
      LatestOk(MysqlEntry(x), x.criticalFactors, MySQL)
  }

  /**
   * One pass of /stats' loop over the CSV rows: a row whose health index
   * parses adds the index, counts as anomalous when marked 'True', and
   * adds one to its status; any other row changes nothing.
   */
  method TallyRow(ghost rows: seq<CsvRow>, row: CsvRow, healthIndices: seq<int>, anomalyCount: nat,
                  statusDist: map<Option<CellText>, nat>)
    returns (indices: seq<int>, count: nat, dist: map<Option<CellText>, nat>)
    requires healthIndices == ParsedIndices(rows) && anomalyCount == AnomalyCount(rows)
    requires statusDist == StatusDistribution(rows)
    ensures indices == ParsedIndices(rows + [row]) && count == AnomalyCount(rows + [row])
    ensures dist == StatusDistribution(rows + [row])
  {
    assert (rows + [row])[..|rows|] == rows && (rows + [row])[|rows|] == row;
    indices, count, dist := healthIndices, anomalyCount, statusDist;
    var healthIdx := IntOfCell(Get(row, "health_index", IntText(0)));
    if healthIdx.Some? {
      indices := indices + [healthIdx.value];
      if GetOrNone(row, "is_anomalous") == Some(Literal("True")) {
        count := count + 1;
      }
      var status := Get(row, "health_status", Literal("Unknown"));
      dist := dist[status := (if status in dist then dist[status] else 0) + 1];
    }
  }

  // ---------------------------------------------------------------------
  // The backend state

  class SoilBackend {
    /** The module-level `mysql_available`: the outcome of the last connection attempt. */
    var mysqlAvailable: bool
    var csvExists: bool
    var csvHeader: seq<string>
    var csvLines: seq<seq<CellText>>
    var mysqlRows: seq<MysqlRow>
    /** The AUTO_INCREMENT counter of sensor_readings. */
    var nextId: nat
    /** Every write attempt, in order. */
    ghost var writes: seq<Store>

    /** Every MySQL row has an id below the counter, and ids grow with position. */
    ghost predicate Valid()
      reads this
    {
      (forall i :: 0 <= i < |mysqlRows| ==> mysqlRows[i].id < nextId)
      && (forall i, j :: 0 <= i < j < |mysqlRows| ==> mysqlRows[i].id < mysqlRows[j].id)
    }

    /** The state after init_database failed or succeeded, before any reading: no file yet. */
    constructor (mysqlUp: bool)
      ensures Valid()
      ensures mysqlAvailable == mysqlUp && !csvExists && csvLines == [] && mysqlRows == []
      ensures writes == []
    {
      mysqlAvailable := mysqlUp;
      csvExists := false;
      csvHeader := [];
      csvLines := [];
      mysqlRows := [];
      nextId := 1;
      writes := [];
    }

    /** get_mysql_connection: records whether the connection succeeded. */
    method GetMysqlConnection(connects: bool) returns (conn: bool)
      modifies this
      ensures conn == connects && mysqlAvailable == connects
      ensures csvExists == old(csvExists) && csvHeader == old(csvHeader) && csvLines == old(csvLines)
      ensures mysqlRows == old(mysqlRows) && nextId == old(nextId) && writes == old(writes)
    {
      mysqlAvailable := connects;
      conn := connects;
    }

    /**
     * save_to_csv: writes the header when the file is new, then the line;
     * a failed append leaves the file as it was and is swallowed.
     */
    method SaveToCsv(now: int, data: map<string, RawValue>, a: Analysis, appendOk: bool)
      requires HasAllFields(data)
      modifies this
      ensures appendOk ==> csvExists && csvLines == old(csvLines) + [AppLine(now, data, a)]
      ensures appendOk ==> csvHeader == if old(csvExists) then old(csvHeader) else AppColumns
      ensures !appendOk ==> csvExists == old(csvExists) && csvHeader == old(csvHeader) && csvLines == old(csvLines)
      ensures writes == old(writes) + [CsvStore]
      ensures mysqlAvailable == old(mysqlAvailable) && mysqlRows == old(mysqlRows) && nextId == old(nextId)
    {
      writes := writes + [CsvStore];
      if appendOk {
        if !csvExists {
          csvHeader := AppColumns;
          csvExists := true;
        }
        csvLines := csvLines + [AppLine(now, data, a)];
      }
    }

    /**
     * save_to_mysql: None when there is no connection or the insert fails,
     * otherwise the id of the new row.
     */
    method SaveToMysql(now: int, r: Reading, a: Analysis, connects: bool, insertOk: bool)
      returns (sensorId: Option<nat>)
      requires Valid()
      modifies this
      ensures Valid()
      ensures mysqlAvailable == connects
      ensures sensorId.Some? <==> connects && insertOk
      ensures connects && insertOk ==>
        sensorId.value == old(nextId) && nextId == old(nextId) + 1
        && mysqlRows == old(mysqlRows) + [MysqlRow(old(nextId), now, r, a.healthIndex, a.healthStatus,
                                                   a.isAnomalous, a.anomalyScore, a.criticalFactors)]
      ensures !(connects && insertOk) ==> mysqlRows == old(mysqlRows) && nextId == old(nextId)
      ensures writes == old(writes) + [MysqlStore]
      ensures csvExists == old(csvExists) && csvHeader == old(csvHeader) && csvLines == old(csvLines)
    {
      writes := writes + [MysqlStore];
      var conn := GetMysqlConnection(connects);
      if !conn {
        return None;
      }
      if !insertOk {
        return None;
      }
      mysqlRows := mysqlRows + [MysqlRow(nextId, now, r, a.healthIndex, a.healthStatus,
                                         a.isAnomalous, a.anomalyScore, a.criticalFactors)];
      sensorId := Some(nextId);
      nextId := nextId + 1;
    }

    /**
     * analyze_soil: validate, convert, analyse, append to the CSV file,
     * then insert into MySQL, and answer 200 whatever the stores did. A
     * rejected request writes nothing.
     */
    method AnalyzeSoil(data: map<string, RawValue>, now: int, appendOk: bool, connects: bool, insertOk: bool)
      returns (resp: AnalyzeResponse)
      requires Valid()
      modifies this
      ensures Valid()
      ensures resp == AnalyzeResponseOf(data, now)
      ensures !resp.Analyzed? ==>
        mysqlAvailable == old(mysqlAvailable) && csvExists == old(csvExists) && csvHeader == old(csvHeader)
        && csvLines == old(csvLines) && mysqlRows == old(mysqlRows) && nextId == old(nextId)
        && writes == old(writes)
      ensures resp.Analyzed? ==>
        writes == old(writes) + [CsvStore, MysqlStore]
        && csvLines == old(csvLines) + (if appendOk then [AppLine(now, data, resp.analysis)] else [])
        && (appendOk ==> csvExists && csvHeader == if old(csvExists) then old(csvHeader) else AppColumns)
        && (!appendOk ==> csvExists == old(csvExists) && csvHeader == old(csvHeader))
        && mysqlAvailable == connects
    ensures resp.Analyzed? ==>
        HasAllFields(data) && ConvertReading(data).Success?
        && mysqlRows == old(mysqlRows) +
          (if connects && insertOk then
             [MysqlRow(old(nextId), now, ConvertReading(data).value, resp.analysis.healthIndex,
                       resp.analysis.healthStatus, resp.analysis.isAnomalous, resp.analysis.anomalyScore,
                       resp.analysis.criticalFactors)]
           else [])
        && nextId == old(nextId) + (if connects && insertOk then 1 else 0)
    {
      if !HasAllFields(data) {
        return MissingFields(RequiredFields);
      }
      var conv := ConvertReading(data);
      if conv.Failure? {
        if conv.error == ValueError {
          return InvalidDataType;
        }
        return InternalError;
      }
      var r := conv.value;
      var d := RuleAnalysis.AnalysisDict(r);
      var healthIndex, healthStatus := RuleAnalysis.CalculateHealthIndex(d);
      var isAnomalous, anomalyScore := RuleAnalysis.DetectAnomalies(d);
      var criticalFactors := RuleAnalysis.IdentifyCriticalFactors(d);
      var a := Analysis(healthIndex, healthStatus, isAnomalous, anomalyScore, criticalFactors);
      assert a == AnalysisOf(r);
      SaveToCsv(now, data, a, appendOk);
      var sensorId := SaveToMysql(now, r, a, connects, insertOk);
      resp := Analyzed(now, a, RawValues(data));
    }

    /** The CSV branch of /latest. */
    method LatestFromCsv() returns (resp: LatestResponse)
      ensures resp == CsvLatestOf(csvExists, csvHeader, csvLines)
    {
      if csvExists {
        var reader := Reader(csvHeader, csvLines);
        if |reader| > 0 {
          var latest := reader[|reader| - 1];
          var entry := ParseEntry(latest);
          var factors := JsonListOfCell(Get(latest, "critical_factors", Literal("[]")));
          if entry.Some? && factors.Some? {
            return LatestOk(entry.value, factors.value, CsvFallback);
          }
          return LatestError;
        }
      }
      resp := LatestNotFound(CsvFallback);
    }

    /** get_latest_reading: MySQL when it connects, the CSV file otherwise. */
    method GetLatestReading(connects: bool) returns (resp: LatestResponse)
      modifies this
      ensures mysqlAvailable == connects
      ensures resp == if connects then MysqlLatestOf(mysqlRows) else CsvLatestOf(csvExists, csvHeader, csvLines)
      ensures csvExists == old(csvExists) && csvHeader == old(csvHeader) && csvLines == old(csvLines)
      ensures mysqlRows == old(mysqlRows) && nextId == old(nextId) && writes == old(writes)
    {
      var conn := GetMysqlConnection(connects);
      if conn {
        resp := MysqlLatestOf(mysqlRows);
      } else {
        resp := LatestFromCsv();
      }
    }

    /** The CSV branch of /history: the last `limit` rows, newest first, skipping those that do not parse. */
    method HistoryFromCsv(limit: int) returns (resp: HistoryResponse)
      ensures resp == CsvHistoryOf(csvExists, csvHeader, csvLines, limit)
    {
      if !csvExists {
        return HistoryNotFound(CsvFallback);
      }
      var reader := Reader(csvHeader, csvLines);
      var rows := if |reader| > 0 then TailSlice(reader, limit) else [];
      var readings := [];
      var i := |rows|;
      while i > 0
        invariant 0 <= i <= |rows|
        invariant readings == NewestFirst(rows[i..])
      {
        i := i - 1;
        var entry := ParseEntry(rows[i]);
        if entry.Some? {
          readings := readings + [entry.value];
        }
        assert rows[i..][1..] == rows[i + 1..];
      }
      resp := HistoryOk(readings, CsvFallback);
    }

    /** The CSV branch of /stats: counts every row, aggregates those whose health index parses. */
    method StatsFromCsv() returns (resp: StatsResponse)
      ensures resp == CsvStatsOf(csvExists, csvHeader, csvLines)
    {
      if !csvExists {
        return ZeroStats(true);
      }
      var reader := Reader(csvHeader, csvLines);
      if |reader| == 0 {
        return ZeroStats(false);
      }
      var totalReadings := |reader|;
      var healthIndices := [];
      var anomalyCount := 0;
      var statusDist: map<Option<CellText>, nat> := map[];
      var i := 0;
      while i < |reader|
        invariant 0 <= i <= |reader|
        invariant healthIndices == ParsedIndices(reader[..i])
        invariant anomalyCount == AnomalyCount(reader[..i])
        invariant statusDist == StatusDistribution(reader[..i])
      {
        assert reader[..i + 1] == reader[..i] + [reader[i]];
        healthIndices, anomalyCount, statusDist := TallyRow(reader[..i], reader[i], healthIndices, anomalyCount, statusDist);
        i := i + 1;
      }
      assert reader[..i] == reader;
      var avgHealth := if |healthIndices| > 0 then SumInt(healthIndices) as real / |healthIndices| as real else 0.0;
      resp := StatsResponse(totalReadings, avgHealth, anomalyCount,
                            anomalyCount as real / totalReadings as real * 100.0,
                            statusDist, CsvFallback, false);
    }
  }

  // ---------------------------------------------------------------------
  // Reading back what analyze_soil wrote

  /**
   * Under either header the file can carry (app.py's, or the generator's
   * without critical_factors), each column of a full line from app.py
   * holds the cell at its position.
   */
  lemma AppRowAt(header: seq<string>, line: seq<CellText>, j: nat)
    requires header == AppColumns || header == GeneratorColumns
    requires |line| == |AppColumns| && j < |header|
    ensures DictRow(header, line)[header[j]] == Some(line[j])
  {
    AppColumnsDistinct();
    assert forall a, b :: 0 <= a < b < |header| ==> header[a] != header[b];
    DictRowAt(header, line, |header|, j);
  }

  /** A line app.py wrote parses back to the written analysis, under either header. */
  lemma AppLineReadsBack(header: seq<string>, now: int, data: map<string, RawValue>, a: Analysis)
    requires header == AppColumns || header == GeneratorColumns
    requires HasAllFields(data)
    ensures var row := DictRow(header, AppLine(now, data, a));
      && RowIndex(row) == Some(a.healthIndex)
      && StatusKey(row) == Some(Literal(StatusName(a.healthStatus)))
      && (IsTrueCell(GetOrNone(row, "is_anomalous")) <==> a.isAnomalous)
      && FloatOfCell(Get(row, "anomaly_score", IntText(0))) == Some(a.anomalyScore)
      && GetOrNone(row, "timestamp") == Some(TimeText(now))
  {
    var line := AppLine(now, data, a);
    AppRowAt(header, line, 0);
    AppRowAt(header, line, 8);
    AppRowAt(header, line, 9);
    AppRowAt(header, line, 10);
    AppRowAt(header, line, 11);
    assert line[8] == IntText(a.healthIndex);
    assert line[9] == Literal(StatusName(a.healthStatus));
    assert line[10] == Literal(if a.isAnomalous then "True" else "False");
    assert line[11] == FloatText(a.anomalyScore);
  }

  /**
   * The critical factors of a line app.py wrote read back under its own
   * header. Under the generator's header the critical_factors cell falls
   * outside the header, so `row.get('critical_factors', '[]')` reads none.
   */
  lemma AppLineFactorsReadBack(header: seq<string>, now: int, data: map<string, RawValue>, a: Analysis)
    requires header == AppColumns || header == GeneratorColumns
    requires HasAllFields(data)
    ensures JsonListOfCell(Get(DictRow(header, AppLine(now, data, a)), "critical_factors", Literal("[]")))
      == Some(if header == AppColumns then a.criticalFactors else [])
  {
    var line := AppLine(now, data, a);
    if header == AppColumns {
      AppRowAt(header, line, 12);
      assert line[12] == JsonList(a.criticalFactors);
    } else {
      assert "critical_factors" !in header;
      EmptyArrayReads();
    }
  }

  /** The sensor values of a reading in column order. */
  function ColumnValues(r: Reading): seq<real> {
    seq(7, i requires 0 <= i < 7 => r.Get(AllParams[i]))
  }

  /**
   * The sensor cells of a line app.py wrote read back as the converted
   * request values, when no field was a JSON boolean.
   */
  lemma AppLineSensorsReadBack(header: seq<string>, now: int, data: map<string, RawValue>, a: Analysis)
    requires header == AppColumns || header == GeneratorColumns
    requires HasAllFields(data)
    requires forall q: Param :: ToFloat(data[FieldName(q)]).Success? && !data[FieldName(q)].Bool?
    ensures ConvertReading(data).Success?
    ensures FloatsOf(DictRow(header, AppLine(now, data, a)), RequiredFields) == Some(ColumnValues(ConvertReading(data).value))
  {
    var r := ConvertReading(data).value;
    var line := AppLine(now, data, a);
    var row := DictRow(header, line);
    forall j | 0 <= j < |RequiredFields|
      ensures FloatOfCell(Get(row, RequiredFields[j], IntText(0))) == Some(ColumnValues(r)[j])
    {
      var q := AllParams[j];
      assert IndexOf(q) == j;
      AppLineSensorCell(now, data, a, q);
      AppRowAt(header, line, 1 + j);
    }
    FloatsOfAll(row, RequiredFields, ColumnValues(r));
  }

  /**
   * While the line an accepted /analyze appended is the last one, the CSV
   * branch of /latest answers 200 with that reading and its analysis:
   * the critical factors under app.py's header, none under the
   * generator's.
   */
  lemma AppLineIsLatest(header: seq<string>, lines: seq<seq<CellText>>, now: int, data: map<string, RawValue>,
                        a: Analysis)
    requires header == AppColumns || header == GeneratorColumns
    requires HasAllFields(data)
    requires forall q: Param :: ToFloat(data[FieldName(q)]).Success? && !data[FieldName(q)].Bool?
    requires |lines| > 0 && lines[|lines| - 1] == AppLine(now, data, a)
    ensures ConvertReading(data).Success?
    ensures CsvLatestOf(true, header, lines)
      == LatestOk(ReadingEntry(Some(TimeText(now)), a.healthIndex, Some(Literal(StatusName(a.healthStatus))),
                               a.isAnomalous, a.anomalyScore, ColumnValues(ConvertReading(data).value)),
                  if header == AppColumns then a.criticalFactors else [], CsvFallback)
  {
    LastDataLine(lines);
    AppLineReadsBack(header, now, data, a);
    AppLineFactorsReadBack(header, now, data, a);
    AppLineSensorsReadBack(header, now, data, a);
    CsvLatestMeaning(true, header, lines);
  }

  /**
   * float(True) is 1.0, so /analyze accepts a JSON boolean in a sensor
   * field, but the line it writes holds the text 'True' or 'False' there,
   * which float() rejects on the way back: the line does not parse.
   */
  lemma BooleanFieldLineDoesNotParse(now: int, data: map<string, RawValue>, a: Analysis, q: Param)
    requires HasAllFields(data) && data[FieldName(q)].Bool?
    ensures ToFloat(data[FieldName(q)]).Success?
    ensures ParseEntry(DictRow(AppColumns, AppLine(now, data, a))).None?
  {
    var line := AppLine(now, data, a);
    var row := DictRow(AppColumns, line);
    var j := IndexOf(q);
    AppLineSensorCell(now, data, a, q);
    AppRowAt(AppColumns, line, 1 + j);
    assert Get(row, RequiredFields[j], IntText(0)) == Some(RawText(data[FieldName(q)]));
    FloatsOfFailsAt(row, RequiredFields, j);
  }

  /** The cell of a sensor column in the line save_to_csv writes is the request's value. */
  lemma AppLineSensorCell(now: int, data: map<string, RawValue>, a: Analysis, q: Param)
    requires HasAllFields(data)
    ensures AppColumns[1 + IndexOf(q)] == RequiredFields[IndexOf(q)] == FieldName(q)
    ensures AppLine(now, data, a)[1 + IndexOf(q)] == RawText(data[FieldName(q)])
  {
    var j := IndexOf(q);
    SensorColumn(q);
    assert AppLine(now, data, a)[1 + j] == RawText(RawValues(data)[j]);
    RawValueAt(data, q);
  }

  /** Column 1 + IndexOf(q) of the app's header is the request field of q. */
  lemma SensorColumn(q: Param)
    ensures AppColumns[1 + IndexOf(q)] == RequiredFields[IndexOf(q)] == FieldName(q)
  {
    match q
    case N => case P => case K => case CO2 => case Temperature => case Moisture => case PH =>
  }

  /** The request values are listed in column order: position IndexOf(q) holds the value of q's field. */
  lemma RawValueAt(data: map<string, RawValue>, q: Param)
    requires HasAllFields(data)
    ensures RawValues(data)[IndexOf(q)] == data[FieldName(q)]
  {
    match q
    case N => case P => case K => case CO2 => case Temperature => case Moisture => case PH =>
  }

  /** When that line is the last one, the CSV branch of /latest answers 500. */
  lemma BooleanFieldLatestIsError(lines: seq<seq<CellText>>, now: int, data: map<string, RawValue>, a: Analysis, q: Param)
    requires HasAllFields(data) && data[FieldName(q)].Bool?
    requires |lines| > 0 && lines[|lines| - 1] == AppLine(now, data, a)
    ensures CsvLatestOf(true, AppColumns, lines) == LatestError
  {
    BooleanFieldLineDoesNotParse(now, data, a, q);
    LastDataLine(lines);
    CsvLatestMeaning(true, AppColumns, lines);
  }

  /** Wherever that line sits among the rows /history visits, it contributes no entry. */
  lemma BooleanFieldHistorySkips(pre: seq<CsvRow>, post: seq<CsvRow>, now: int, data: map<string, RawValue>,
                                 a: Analysis, q: Param)
    requires HasAllFields(data) && data[FieldName(q)].Bool?
    ensures NewestFirst(pre + [DictRow(AppColumns, AppLine(now, data, a))] + post) == NewestFirst(pre + post)
  {
    BooleanFieldLineDoesNotParse(now, data, a, q);
    NewestFirstSkipsUnparsed(pre, DictRow(AppColumns, AppLine(now, data, a)), post);
  }
}
