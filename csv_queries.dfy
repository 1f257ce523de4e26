/**
 * The CSV-fallback branches of the read endpoints of backend/app.py
 * (/latest, /history, /stats): what each returns for a given content of
 * data/sensor_readings.csv when MySQL cannot be reached. The file is its
 * header and its lines; csv.DictReader turns each line into a row, except
 * a blank line (one with no cell at all), which it skips.
 */
module CsvQueries {
  import opened Wrappers
  import opened Soil
  import opened PySeq
  import opened CsvText

  /** The `mode` field of a response. */
  datatype Mode = MySQL | CsvFallback

  /** One reading as /latest and /history return it. */
  datatype ReadingEntry = ReadingEntry(timestamp: Option<CellText>, healthIndex: int,
                                       healthStatus: Option<CellText>, isAnomalous: bool,
                                       anomalyScore: real, sensorReadings: seq<real>)

  /** The lines csv.DictReader makes a row of, in order: every line but the blank ones. */
  function DataLines(lines: seq<seq<CellText>>): (kept: seq<seq<CellText>>)
    ensures |kept| <= |lines|
    ensures forall l :: l in kept <==> l in lines && l != []
  {
    if |lines| == 0 then []
    else
      var last := lines[|lines| - 1];
      assert lines == lines[..|lines| - 1] + [last];
      DataLines(lines[..|lines| - 1]) + if last == [] then [] else [last]
  }

  /** Appending a line adds it to the data lines unless it is blank. */
  lemma DataLinesAppend(lines: seq<seq<CellText>>, line: seq<CellText>)
    ensures DataLines(lines + [line]) == DataLines(lines) + if line == [] then [] else [line]
  {
    assert (lines + [line])[..|lines|] == lines;
  }

  /** The data lines of two parts of a file, one after the other, are those of each part in turn. */
  lemma {:induction false} DataLinesConcat(xs: seq<seq<CellText>>, ys: seq<seq<CellText>>)
    ensures DataLines(xs + ys) == DataLines(xs) + DataLines(ys)
    decreases |ys|
  {
    if |ys| == 0 {
      assert xs + ys == xs;
    } else {
      var init := ys[..|ys| - 1];
      var last := ys[|ys| - 1];
      DataLinesConcat(xs, init);
      assert xs + ys == (xs + init) + [last];
      assert ys == init + [last];
      DataLinesAppend(xs + init, last);
      DataLinesAppend(init, last);
    }
  }

  /** A file with no blank line is all data lines. */
  lemma {:induction false} DataLinesWithoutBlanks(lines: seq<seq<CellText>>)
    requires forall i :: 0 <= i < |lines| ==> lines[i] != []
    ensures DataLines(lines) == lines
  {
    if |lines| > 0 {
      DataLinesWithoutBlanks(lines[..|lines| - 1]);
      assert lines == lines[..|lines| - 1] + [lines[|lines| - 1]];
    }
  }

  /** `list(csv.DictReader(f))`: one row per data line, read under the header. */
  function Reader(header: seq<string>, lines: seq<seq<CellText>>): (rows: seq<CsvRow>)
    ensures |rows| == |DataLines(lines)|
    ensures forall i :: 0 <= i < |rows| ==> rows[i] == DictRow(header, DataLines(lines)[i])
  {
    var kept := DataLines(lines);
    seq(|kept|, i requires 0 <= i < |kept| => DictRow(header, kept[i]))
  }

  /** `row.get('is_anomalous') == 'True'` */
  predicate IsTrueCell(c: Option<CellText>) {
    c == Some(Literal("True"))
  }

  /** `float(row.get(col, 0))` for each column of `cols`; None when one of them raises. */
  function FloatsOf(row: CsvRow, cols: seq<string>): (r: Option<seq<real>>)
    ensures r.Some? ==> |r.value| == |cols|
  {
    if |cols| == 0 then Some([])
    else
      var prev := FloatsOf(row, cols[..|cols| - 1]);
      var x := FloatOfCell(Get(row, cols[|cols| - 1], IntText(0)));
      if prev.Some? && x.Some? then Some(prev.value + [x.value]) else None
  }

  /** One column whose float() raises makes the whole conversion raise. */
  lemma {:induction false} FloatsOfFailsAt(row: CsvRow, cols: seq<string>, j: nat)
    requires j < |cols| && FloatOfCell(Get(row, cols[j], IntText(0))).None?
    ensures FloatsOf(row, cols).None?
    decreases |cols|
  {
    if j < |cols| - 1 {
      FloatsOfFailsAt(row, cols[..|cols| - 1], j);
    }
  }

  /** When every column converts, the conversion yields their values in column order. */
  lemma {:induction false} FloatsOfAll(row: CsvRow, cols: seq<string>, vals: seq<real>)
    requires |vals| == |cols|
    requires forall j :: 0 <= j < |cols| ==> FloatOfCell(Get(row, cols[j], IntText(0))) == Some(vals[j])
    ensures FloatsOf(row, cols) == Some(vals)
    decreases |cols|
  {
    if |cols| > 0 {
      FloatsOfAll(row, cols[..|cols| - 1], vals[..|vals| - 1]);
      assert vals == vals[..|vals| - 1] + [vals[|vals| - 1]];
    }
  }

  /**
   * The reading dict built from one CSV row, or None when one of its
   * int()/float() conversions raises.
   */
  function ParseEntry(row: CsvRow): Option<ReadingEntry> {
    var index := IntOfCell(Get(row, "health_index", IntText(0)));
    var score := FloatOfCell(Get(row, "anomaly_score", IntText(0)));
    var values := FloatsOf(row, RequiredFields);
    if index.Some? && score.Some? && values.Some? then
      Some(ReadingEntry(GetOrNone(row, "timestamp"), index.value, GetOrNone(row, "health_status"),
                        IsTrueCell(GetOrNone(row, "is_anomalous")), score.value, values.value))
    else None
  }

  // ---------------------------------------------------------------------
  // /latest

  datatype LatestResponse =
    | LatestOk(entry: ReadingEntry, criticalFactors: seq<string>, mode: Mode)  // 200
    | LatestNotFound(mode: Mode)                                              // 404
    | LatestError                                                             // 500

  /** The CSV branch of /latest: the last row of the file, or 404 when there is none. */
  function CsvLatestOf(fileExists: bool, header: seq<string>, lines: seq<seq<CellText>>): LatestResponse {
    var reader := Reader(header, lines);
    if !fileExists || |reader| == 0 then LatestNotFound(CsvFallback)
    else
      var row := reader[|reader| - 1];
      var entry := ParseEntry(row);
      var factors := JsonListOfCell(Get(row, "critical_factors", Literal("[]")));
      if entry.Some? && factors.Some? then LatestOk(entry.value, factors.value, CsvFallback)
      else LatestError
  }

  /**
   * The CSV branch of /latest answers 404 exactly when there is no file
   * or no line that is not blank. Otherwise it reads the last such line:
   * 200 with that line's reading and critical factors exactly when every
   * conversion of the line succeeds, and 500 when one of them raises.
   */
  lemma CsvLatestMeaning(fileExists: bool, header: seq<string>, lines: seq<seq<CellText>>)
    ensures CsvLatestOf(fileExists, header, lines).LatestNotFound? <==> !fileExists || |DataLines(lines)| == 0
    ensures CsvLatestOf(fileExists, header, lines).LatestNotFound? ==>
      CsvLatestOf(fileExists, header, lines).mode == CsvFallback
    ensures fileExists && |DataLines(lines)| > 0 ==>
      var kept := DataLines(lines);
      var row := DictRow(header, kept[|kept| - 1]);
      var entry := ParseEntry(row);
      var factors := JsonListOfCell(Get(row, "critical_factors", Literal("[]")));
      && (CsvLatestOf(fileExists, header, lines).LatestOk? <==> entry.Some? && factors.Some?)
      && (entry.Some? && factors.Some? ==>
            CsvLatestOf(fileExists, header, lines) == LatestOk(entry.value, factors.value, CsvFallback))
      && (entry.None? || factors.None? ==> CsvLatestOf(fileExists, header, lines) == LatestError)
  {
    var reader := Reader(header, lines);
    var kept := DataLines(lines);
    if fileExists && |kept| > 0 {
      assert reader[|reader| - 1] == DictRow(header, kept[|kept| - 1]);
    }
  }

  /** When the file ends with a line that is not blank, that line is the last data line. */
  lemma LastDataLine(lines: seq<seq<CellText>>)
    requires |lines| > 0 && lines[|lines| - 1] != []
    ensures |DataLines(lines)| > 0 && DataLines(lines)[|DataLines(lines)| - 1] == lines[|lines| - 1]
  {
    DataLinesAppend(lines[..|lines| - 1], lines[|lines| - 1]);
    assert lines[..|lines| - 1] + [lines[|lines| - 1]] == lines;
  }

  // ---------------------------------------------------------------------
  // /history

  datatype HistoryResponse =
    | HistoryOk(readings: seq<ReadingEntry>, mode: Mode)  // 200, total = |readings|
    | HistoryNotFound(mode: Mode)                          // 404

  /** `reader[-limit:] if reader else []` */
  function HistoryRows(reader: seq<CsvRow>, limit: int): seq<CsvRow> {
    if |reader| > 0 then TailSlice(reader, limit) else []
  }

  /**
   * `for row in reversed(rows)`, keeping the rows that parse: the last row
   * first. The first row of `rows` is visited last.
   */
  function NewestFirst(rows: seq<CsvRow>): seq<ReadingEntry> {
    if |rows| == 0 then []
    else
      var e := ParseEntry(rows[0]);
      NewestFirst(rows[1..]) + if e.Some? then [e.value] else []
  }

  function CsvHistoryOf(fileExists: bool, header: seq<string>, lines: seq<seq<CellText>>, limit: int): HistoryResponse {
    if !fileExists then HistoryNotFound(CsvFallback)
    else HistoryOk(NewestFirst(HistoryRows(Reader(header, lines), limit)), CsvFallback)
  }

  /** Skipping never adds rows: at most one entry per row, each the parse of some row. */
  lemma {:induction false} NewestFirstEntries(rows: seq<CsvRow>)
    ensures |NewestFirst(rows)| <= |rows|
    ensures forall e :: e in NewestFirst(rows) ==> exists i :: 0 <= i < |rows| && ParseEntry(rows[i]) == Some(e)
  {
    if |rows| > 0 {
      NewestFirstEntries(rows[1..]);
      forall e | e in NewestFirst(rows)
        ensures exists i :: 0 <= i < |rows| && ParseEntry(rows[i]) == Some(e)
      {
        if e in NewestFirst(rows[1..]) {
          var i :| 0 <= i < |rows[1..]| && ParseEntry(rows[1..][i]) == Some(e);
          assert ParseEntry(rows[i + 1]) == Some(e);
        } else {
          assert ParseEntry(rows[0]) == Some(e);
        }
      }
    }
  }

  /** A row that does not parse adds no entry wherever it sits: the loop's `continue`. */
  lemma {:induction false} NewestFirstSkipsUnparsed(pre: seq<CsvRow>, row: CsvRow, post: seq<CsvRow>)
    requires ParseEntry(row).None?
    ensures NewestFirst(pre + [row] + post) == NewestFirst(pre + post)
    decreases |pre|
  {
    if |pre| == 0 {
      assert pre + [row] + post == [row] + post && pre + post == post;
      assert ([row] + post)[1..] == post;
    } else {
      NewestFirstSkipsUnparsed(pre[1..], row, post);
      assert (pre + [row] + post)[0] == pre[0] && (pre + [row] + post)[1..] == pre[1..] + [row] + post;
      assert (pre + post)[0] == pre[0] && (pre + post)[1..] == pre[1..] + post;
    }
  }

  /** When every row parses, the entries are the rows in reverse order: newest first. */
  lemma {:induction false} NewestFirstReverses(rows: seq<CsvRow>)
    requires forall i :: 0 <= i < |rows| ==> ParseEntry(rows[i]).Some?
    ensures |NewestFirst(rows)| == |rows|
    ensures forall j :: 0 <= j < |rows| ==> Some(NewestFirst(rows)[j]) == ParseEntry(rows[|rows| - 1 - j])
  {
    if |rows| > 0 {
      var rest := rows[1..];
      assert forall i :: 0 <= i < |rest| ==> rest[i] == rows[i + 1];
      NewestFirstReverses(rest);
    }
  }

  /**
   * /history with a positive `limit` returns at most `limit` readings, each
   * the parse of one of the last `limit` data lines; without the file it is
   * 404.
   */
  lemma CsvHistoryBounds(fileExists: bool, header: seq<string>, lines: seq<seq<CellText>>, limit: int)
    ensures CsvHistoryOf(fileExists, header, lines, limit).HistoryNotFound? <==> !fileExists
    ensures CsvHistoryOf(fileExists, header, lines, limit).HistoryOk? ==>
      |CsvHistoryOf(fileExists, header, lines, limit).readings| <= |DataLines(lines)|
    ensures limit > 0 && CsvHistoryOf(fileExists, header, lines, limit).HistoryOk? ==>
      |CsvHistoryOf(fileExists, header, lines, limit).readings| <= limit
    ensures limit > 0 && CsvHistoryOf(fileExists, header, lines, limit).HistoryOk? ==>
      var kept := DataLines(lines);
      forall e :: e in CsvHistoryOf(fileExists, header, lines, limit).readings ==>
        exists i :: |kept| - limit <= i < |kept| && 0 <= i && ParseEntry(DictRow(header, kept[i])) == Some(e)
  {
    var reader := Reader(header, lines);
    var kept := DataLines(lines);
    HistoryEntriesFromTail(reader, limit);
    if limit > 0 && fileExists {
      forall e | e in NewestFirst(HistoryRows(reader, limit))
        ensures exists i :: |kept| - limit <= i < |kept| && 0 <= i && ParseEntry(DictRow(header, kept[i])) == Some(e)
      {
        var i :| |reader| - limit <= i < |reader| && 0 <= i && ParseEntry(reader[i]) == Some(e);
        assert reader[i] == DictRow(header, kept[i]);
      }
    }
  }

  /**
   * The rows /history keeps: at most `limit` entries when `limit` is
   * positive, each the parse of one of the last `limit` rows.
   */
  lemma HistoryEntriesFromTail(reader: seq<CsvRow>, limit: int)
    ensures |NewestFirst(HistoryRows(reader, limit))| <= |reader|
    ensures limit > 0 ==> |NewestFirst(HistoryRows(reader, limit))| <= limit
    ensures limit > 0 ==> forall e :: e in NewestFirst(HistoryRows(reader, limit)) ==>
      exists i :: |reader| - limit <= i < |reader| && 0 <= i && ParseEntry(reader[i]) == Some(e)
  {
    var rows := HistoryRows(reader, limit);
    NewestFirstEntries(rows);
    if limit > 0 && |reader| > 0 {
      TailSlicePositive(reader, limit);
      forall e | e in NewestFirst(rows)
        ensures exists i :: |reader| - limit <= i < |reader| && 0 <= i && ParseEntry(reader[i]) == Some(e)
      {
        var j :| 0 <= j < |rows| && ParseEntry(rows[j]) == Some(e);
        var i := |reader| - |rows| + j;
        assert rows[j] == reader[i];
      }
    }
  }

  /**
   * `reader[-0:]` is the whole list: /history?limit=0 returns every line
   * that parses, newest first, not an empty list.
   */
  lemma CsvHistoryLimitZero(header: seq<string>, lines: seq<seq<CellText>>)
    ensures CsvHistoryOf(true, header, lines, 0) == HistoryOk(NewestFirst(Reader(header, lines)), CsvFallback)
  {
    TailSliceZero(Reader(header, lines));
  }

  // ---------------------------------------------------------------------
  // /stats

  datatype StatsResponse = StatsResponse(totalReadings: nat, averageHealthIndex: real, anomalyCount: nat,
                                         anomalyPercentage: real, statusDistribution: map<Option<CellText>, nat>,
                                         mode: Mode, noData: bool)

  /** The `health_index` of a row, when int() accepts it. */
  function RowIndex(row: CsvRow): Option<int> {
    IntOfCell(Get(row, "health_index", IntText(0)))
  }

  /** `row.get('health_status', 'Unknown')` */
  function StatusKey(row: CsvRow): Option<CellText> {
    Get(row, "health_status", Literal("Unknown"))
  }

  /** `health_indices` after the loop over `rows`. */
  function ParsedIndices(rows: seq<CsvRow>): seq<int> {
    if |rows| == 0 then []
    else
      var row := rows[|rows| - 1];
      ParsedIndices(rows[..|rows| - 1]) + if RowIndex(row).Some? then [RowIndex(row).value] else []
  }

  /** `anomaly_count` after the loop over `rows`: parsed rows marked 'True'. */
  function AnomalyCount(rows: seq<CsvRow>): nat {
    if |rows| == 0 then 0
    else
      var row := rows[|rows| - 1];
      AnomalyCount(rows[..|rows| - 1])
        + if RowIndex(row).Some? && IsTrueCell(GetOrNone(row, "is_anomalous")) then 1 else 0
  }

  /** `status_dist` after the loop over `rows`. */
  function StatusDistribution(rows: seq<CsvRow>): map<Option<CellText>, nat> {
    if |rows| == 0 then map[]
    else
      var row := rows[|rows| - 1];
      var dist := StatusDistribution(rows[..|rows| - 1]);
      if RowIndex(row).Some? then
        dist[StatusKey(row) := (if StatusKey(row) in dist then dist[StatusKey(row)] else 0) + 1]
      else dist
  }

  /** The aggregate with every count zero. */
  function ZeroStats(noData: bool): StatsResponse {
    StatsResponse(0, 0.0, 0, 0.0, map[], CsvFallback, noData)
  }

  function CsvStatsOf(fileExists: bool, header: seq<string>, lines: seq<seq<CellText>>): StatsResponse {
    if !fileExists then ZeroStats(true)
    else
      var reader := Reader(header, lines);
      if |reader| == 0 then ZeroStats(false)
      else
        var indices := ParsedIndices(reader);
        var count := AnomalyCount(reader);
        StatsResponse(|reader|,
                      if |indices| > 0 then SumInt(indices) as real / |indices| as real else 0.0,
                      count, count as real / |reader| as real * 100.0,
                      StatusDistribution(reader), CsvFallback, false)
  }

  /** Anomalies are counted among parsed rows, which are among all rows. */
  lemma {:induction false} StatsCountsOrdered(rows: seq<CsvRow>)
    ensures AnomalyCount(rows) <= |ParsedIndices(rows)| <= |rows|
  {
    if |rows| > 0 {
      StatsCountsOrdered(rows[..|rows| - 1]);
    }
  }

  /** Every parsed row is counted under exactly one status: the counts add up to the parsed rows. */
  lemma {:induction false} DistributionCountsParsedRows(rows: seq<CsvRow>, key: Option<CellText>)
    ensures key in StatusDistribution(rows) ==> StatusDistribution(rows)[key] > 0
    ensures (if key in StatusDistribution(rows) then StatusDistribution(rows)[key] else 0)
      == |ParsedOfStatus(rows, key)|
  {
    if |rows| > 0 {
      DistributionCountsParsedRows(rows[..|rows| - 1], key);
    }
  }

  /** The parsed rows whose status column is `key`. */
  function ParsedOfStatus(rows: seq<CsvRow>, key: Option<CellText>): seq<CsvRow> {
    if |rows| == 0 then []
    else
      var row := rows[|rows| - 1];
      ParsedOfStatus(rows[..|rows| - 1], key)
        + if RowIndex(row).Some? && StatusKey(row) == key then [row] else []
  }

  /**
   * /stats over the file: all zero without a file (flagged as no data) or
   * with no data line; otherwise the total counts every data line,
   * including those that do not parse but not the blank ones, and the
   * percentage is 100 * anomalies / total, in [0, 100].
   */
  lemma CsvStatsMeaning(fileExists: bool, header: seq<string>, lines: seq<seq<CellText>>)
    ensures !fileExists ==> CsvStatsOf(fileExists, header, lines) == ZeroStats(true)
    ensures fileExists && |DataLines(lines)| == 0 ==> CsvStatsOf(fileExists, header, lines) == ZeroStats(false)
    ensures fileExists && |DataLines(lines)| > 0 ==>
      var s := CsvStatsOf(fileExists, header, lines);
      var n := |DataLines(lines)|;
      && s.totalReadings == n
      && s.anomalyCount <= |ParsedIndices(Reader(header, lines))| <= n
      && s.anomalyPercentage == 100.0 * (s.anomalyCount as real) / (n as real)
      && 0.0 <= s.anomalyPercentage <= 100.0
  {
    var reader := Reader(header, lines);
    if fileExists && |reader| > 0 {
      var s := CsvStatsOf(fileExists, header, lines);
      assert s.totalReadings == |reader| && s.anomalyCount == AnomalyCount(reader);
      StatsCountsOrdered(reader);
      Percentage(AnomalyCount(reader), |reader|);
    }
  }

  /**
   * A blank line anywhere in the file changes none of the CSV answers:
   * /latest, /history and /stats read the file as if it were not there.
   */
  lemma BlankLineIgnored(fileExists: bool, header: seq<string>, pre: seq<seq<CellText>>, post: seq<seq<CellText>>,
                         limit: int)
    ensures CsvLatestOf(fileExists, header, pre + [[]] + post) == CsvLatestOf(fileExists, header, pre + post)
    ensures CsvHistoryOf(fileExists, header, pre + [[]] + post, limit) == CsvHistoryOf(fileExists, header, pre + post, limit)
    ensures CsvStatsOf(fileExists, header, pre + [[]] + post) == CsvStatsOf(fileExists, header, pre + post)
  {
    BlankLineDropped(pre, post);
    SameDataLinesSameRows(header, pre + [[]] + post, pre + post);
  }

  /** A blank line is not among the data lines, wherever it sits. */
  lemma BlankLineDropped(pre: seq<seq<CellText>>, post: seq<seq<CellText>>)
    ensures DataLines(pre + [[]] + post) == DataLines(pre + post)
  {
    DataLinesConcat(pre + [[]], post);
    DataLinesAppend(pre, []);
    DataLinesConcat(pre, post);
  }

  /** Two files with the same data lines read as the same rows. */
  lemma SameDataLinesSameRows(header: seq<string>, xs: seq<seq<CellText>>, ys: seq<seq<CellText>>)
    requires DataLines(xs) == DataLines(ys)
    ensures Reader(header, xs) == Reader(header, ys)
  {
    assert |Reader(header, xs)| == |Reader(header, ys)|;
    assert forall i :: 0 <= i < |Reader(header, xs)| ==> Reader(header, xs)[i] == Reader(header, ys)[i];
  }

  /** `count / total * 100` of a part of a non-empty whole. */
  lemma Percentage(count: nat, total: nat)
    requires 0 < total && count <= total
    ensures count as real / total as real * 100.0 == 100.0 * (count as real) / (total as real)
    ensures 0.0 <= count as real / total as real * 100.0 <= 100.0
  {
    var c := count as real;
    var n := total as real;
    assert c / n <= 1.0;
  }
}
