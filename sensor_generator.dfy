/**
 * backend/sensor_generator.py: the generator that, once a tick, steps the
 * last reading and sends it either over MQTT (when MQTT is in use and
 * connected) or straight to the analysis API, and appends a line to
 * data/sensor_readings.csv after a successful send. The broker, the API
 * and the clock are outside the model: their answers are parameters.
 */
module SensorGenerator {
  import opened Wrappers
  import opened Soil
  import opened CsvText
  import opened SensorSim
  import opened CsvQueries
  import Backend

  /** How _init_mqtt ended: the client could not be built, connect raised, the wait timed out, or on_connect(0) came in time. */
  datatype MqttInit = ClientError | ConnectError | TimedOut | ConnectedInTime

  /** `float(last_reading.get(q, BASE_READINGS[q]))` */
  function FieldOrBase(m: map<string, RawValue>, q: Param): Result<real, ConversionError> {
    if FieldName(q) in m then ToFloat(m[FieldName(q)]) else Success(BaseReadings.Get(q))
  }

  /**
   * The seed _load_historical_data leaves: from the `sensor_readings` of the
   * first answer of /latest that carried a non-empty one (`latest`), each
   * field converted or taken from BASE_READINGS when absent; BASE_READINGS
   * itself when there was no such answer or a conversion raised.
   */
  function HistoricalReading(latest: Option<map<string, RawValue>>): (r: Reading)
    ensures latest.None? || latest.value == map[] ==> r == BaseReadings
    ensures latest.Some? && latest.value != map[] && (forall q: Param :: FieldOrBase(latest.value, q).Success?) ==>
      forall q: Param :: r.Get(q) == FieldOrBase(latest.value, q).value
    ensures latest.Some? && (exists q: Param :: FieldOrBase(latest.value, q).Failure?) ==> r == BaseReadings
  {
    if latest.None? || latest.value == map[] then BaseReadings
    else
      var m := latest.value;
      if forall q: Param :: FieldOrBase(m, q).Success? then
        Reading(FieldOrBase(m, N).value, FieldOrBase(m, P).value, FieldOrBase(m, K).value,
                FieldOrBase(m, CO2).value, FieldOrBase(m, Temperature).value,
                FieldOrBase(m, Moisture).value, FieldOrBase(m, PH).value)
      else BaseReadings
  }

  /**
   * The line save_to_csv appends, under the columns of GeneratorColumns:
   * the time, the seven values, and the API's analysis or four blank cells.
   */
  function GeneratorLine(now: int, r: Reading, analysis: Option<Backend.Analysis>): (line: seq<CellText>)
    ensures |line| == |GeneratorColumns|
    ensures line[0] == TimeText(now)
    ensures forall i :: 0 <= i < |AllParams| ==> line[1 + i] == FloatText(r.Get(AllParams[i]))
    ensures analysis.None? ==> forall j :: 8 <= j < |line| ==> line[j] == Literal("")
  {
    var a := analysis;
    [TimeText(now), FloatText(r.n), FloatText(r.p), FloatText(r.k), FloatText(r.co2),
     FloatText(r.temperature), FloatText(r.moisture), FloatText(r.ph),
     if a.Some? then IntText(a.value.healthIndex) else Literal(""),
     if a.Some? then Literal(StatusName(a.value.healthStatus)) else Literal(""),
     if a.Some? then Literal(if a.value.isAnomalous then "True" else "False") else Literal(""),
     if a.Some? then FloatText(a.value.anomalyScore) else Literal("")]
  }

  class SensorDataGenerator {
    var useMqtt: bool
    var running: bool
    var lastReading: Reading
    var readingsCount: nat
    var lastUpdateTime: Option<int>
    /** Whether `mqtt_client` has been built. */
    var hasClient: bool
    var mqttConnected: bool
    var csvHeader: seq<string>
    var csvLines: seq<seq<CellText>>
    /** Messages handed to the broker, in order. */
    var outbox: seq<Envelope>
    /** Readings posted to the analysis API, in order. */
    var apiPosts: seq<Reading>

    /** Only a client that exists can have reported a connection. */
    ghost predicate Valid()
      reads this
    {
      mqttConnected ==> hasClient
    }

    /**
     * __init__: the file is created with the generator's header when
     * missing, the seed is loaded, and _init_mqtt runs when MQTT is asked for.
     */
    constructor (wantMqtt: bool, existingCsv: Option<(seq<string>, seq<seq<CellText>>)>,
                 latest: Option<map<string, RawValue>>, init: MqttInit)
      ensures Valid()
      ensures useMqtt <==> wantMqtt && init == ConnectedInTime
      ensures mqttConnected <==> wantMqtt && init == ConnectedInTime
      ensures !running && readingsCount == 0 && lastUpdateTime == None
      ensures lastReading == HistoricalReading(latest)
      ensures existingCsv.Some? ==> csvHeader == existingCsv.value.0 && csvLines == existingCsv.value.1
      ensures existingCsv.None? ==> csvHeader == GeneratorColumns && csvLines == []
      ensures outbox == [] && apiPosts == []
    {
      useMqtt := wantMqtt;
      running := false;
      lastReading := HistoricalReading(latest);
      readingsCount := 0;
      lastUpdateTime := None;
      hasClient := false;
      mqttConnected := false;
      if existingCsv.Some? {
        csvHeader := existingCsv.value.0;
        csvLines := existingCsv.value.1;
      } else {
        csvHeader := GeneratorColumns;
        csvLines := [];
      }
      outbox := [];
      apiPosts := [];
      new;
      if wantMqtt {
        InitMqtt(init);
      }
    }

    /**
     * _init_mqtt: MQTT stays in use only when the connection came up within
     * the wait; every other ending turns it off. Nothing turns it back on.
     */
    method InitMqtt(init: MqttInit)
      requires Valid()
      modifies this
      ensures Valid()
      ensures useMqtt <==> old(useMqtt) && init == ConnectedInTime
      ensures hasClient <==> old(hasClient) || init != ClientError
      ensures mqttConnected <==> old(mqttConnected) || init == ConnectedInTime
      ensures running == old(running) && lastReading == old(lastReading) && readingsCount == old(readingsCount)
      ensures lastUpdateTime == old(lastUpdateTime)
      ensures csvHeader == old(csvHeader) && csvLines == old(csvLines)
      ensures outbox == old(outbox) && apiPosts == old(apiPosts)
    {
      if init == ClientError {
        useMqtt := false;
        return;
      }
      hasClient := true;
      if init == ConnectError {
        useMqtt := false;
      } else if init == ConnectedInTime {
        mqttConnected := true;
      } else {
        useMqtt := false;
      }
    }

    /** _on_mqtt_connect: connected exactly when rc is 0. */
    method OnMqttConnect(rc: int)
      requires Valid() && hasClient
      modifies this`mqttConnected
      ensures Valid()
      ensures mqttConnected <==> rc == 0
    {
      mqttConnected := rc == 0;
    }

    /** _on_mqtt_disconnect: never connected afterwards. */
    method OnMqttDisconnect(rc: int)
      modifies this`mqttConnected
      ensures !mqttConnected
    {
      mqttConnected := false;
    }

    /**
     * _publish_via_mqtt: refuses without a client or a connection; otherwise
     * publishes the envelope and reports whether the broker took it. `rc`
     * is the publish return code, None when publish raised.
     */
    method PublishViaMqtt(reading: Reading, now: int, rc: Option<int>) returns (ok: bool)
      modifies this`outbox
      ensures !hasClient || !mqttConnected ==> !ok && outbox == old(outbox)
      ensures hasClient && mqttConnected ==> (ok <==> rc == Some(MqttErrSuccess))
      ensures outbox == old(outbox) + if ok then [Envelope(now, PublisherId, reading)] else []
    {
      if !hasClient || !mqttConnected {
        return false;
      }
      var message := Envelope(now, PublisherId, reading);
      if rc.Some? && rc.value == MqttErrSuccess {
        outbox := outbox + [message];
        ok := true;
      } else {
        ok := false;
      }
    }

    /** generate_reading: the next step of the walk, which becomes the last reading. */
    method GenerateReading(draws: Param -> Draw) returns (reading: Reading)
      modifies this`lastReading
      ensures reading == Next(old(lastReading), draws) && lastReading == reading
    {
      reading := GenerateFrom(lastReading, draws);
      lastReading := reading;
    }

    /** save_to_csv: one line appended; a failed append is caught and the file unchanged. */
    method SaveToCsv(reading: Reading, analysis: Option<Backend.Analysis>, now: int, appendOk: bool)
      modifies this`csvLines
      ensures csvLines == old(csvLines) + if appendOk then [GeneratorLine(now, reading, analysis)] else []
    {
      if appendOk {
        csvLines := csvLines + [GeneratorLine(now, reading, analysis)];
      }
    }

    /**
     * The sending half of a tick: over MQTT when it is in use and
     * connected, to the API otherwise, saving a line after a success.
     */
    method Send(reading: Reading, now: int, rc: Option<int>, apiAnswer: Option<Backend.Analysis>, appendOk: bool)
      requires Valid()
      modifies this`outbox, this`apiPosts, this`csvLines
      ensures useMqtt && mqttConnected ==>
        && apiPosts == old(apiPosts)
        && outbox == old(outbox) + (if rc == Some(MqttErrSuccess) then [Envelope(now, PublisherId, reading)] else [])
        && csvLines == old(csvLines) + (if rc == Some(MqttErrSuccess) && appendOk then [GeneratorLine(now, reading, None)] else [])
      ensures !(useMqtt && mqttConnected) ==>
        && apiPosts == old(apiPosts) + [reading]
        && outbox == old(outbox)
        && csvLines == old(csvLines) + (if apiAnswer.Some? && appendOk then [GeneratorLine(now, reading, apiAnswer)] else [])
    {
      if useMqtt && mqttConnected {
        var success := PublishViaMqtt(reading, now, rc);
        if success {
          SaveToCsv(reading, None, now, appendOk);
        }
      } else {
        apiPosts := apiPosts + [reading];
        if apiAnswer.Some? {
          SaveToCsv(reading, apiAnswer, now, appendOk);
        }
      }
    }

    /**
     * One pass of _loop while running: count, step, send over MQTT when it
     * is in use and connected and to the API otherwise (`apiAnswer` is the
     * analysis of a 200, None for an error or no connection), then append
     * a line only after a successful send: blank analysis on the MQTT path,
     * the API's analysis on the other.
     */
    method Tick(draws: Param -> Draw, now: int, rc: Option<int>, apiAnswer: Option<Backend.Analysis>, appendOk: bool)
      requires Valid() && running
      modifies this`readingsCount, this`lastReading, this`lastUpdateTime, this`outbox, this`apiPosts, this`csvLines
      ensures Valid()
      ensures readingsCount == old(readingsCount) + 1
      ensures lastReading == Next(old(lastReading), draws)
      ensures lastUpdateTime == Some(now)
      ensures useMqtt && mqttConnected ==>
        && apiPosts == old(apiPosts)
        && outbox == old(outbox) + (if rc == Some(MqttErrSuccess) then [Envelope(now, PublisherId, lastReading)] else [])
        && csvLines == old(csvLines) + (if rc == Some(MqttErrSuccess) && appendOk then [GeneratorLine(now, lastReading, None)] else [])
      ensures !(useMqtt && mqttConnected) ==>
        && apiPosts == old(apiPosts) + [lastReading]
        && outbox == old(outbox)
        && csvLines == old(csvLines) + (if apiAnswer.Some? && appendOk then [GeneratorLine(now, lastReading, apiAnswer)] else [])
    {
      readingsCount := readingsCount + 1;
      var reading := GenerateReading(draws);
      Send(reading, now, rc, apiAnswer, appendOk);
      lastUpdateTime := Some(now);
    }

    /**
     * start: running, and the mode it reports, MQTT exactly when MQTT is in
     * use and connected. The background thread is not modelled.
     */
    method Start() returns (viaMqtt: bool)
      modifies this`running
      ensures running && (viaMqtt <==> useMqtt && mqttConnected)
    {
      running := true;
      viaMqtt := useMqtt && mqttConnected;
    }

    method Stop()
      modifies this`running
      ensures !running
    {
      running := false;
    }
  }

  /** The one input a tick consumes. */
  datatype TickInput = TickInput(draws: Param -> Draw, now: int, rc: Option<int>,
                                 apiAnswer: Option<Backend.Analysis>, appendOk: bool)

  /** The draws of a run of ticks, in order. */
  function DrawsOf(ticks: seq<TickInput>): (steps: seq<Param -> Draw>)
    ensures |steps| == |ticks| && forall i :: 0 <= i < |ticks| ==> steps[i] == ticks[i].draws
  {
    seq(|ticks|, i requires 0 <= i < |ticks| => ticks[i].draws)
  }

  /** What one tick hands to the broker: on the MQTT path, the envelope of `r` when its publish was queued. */
  function TickEnvelopes(viaMqtt: bool, t: TickInput, r: Reading): seq<Envelope> {
    if viaMqtt && t.rc == Some(MqttErrSuccess) then [Envelope(t.now, PublisherId, r)] else []
  }

  /** What one tick posts to the API: `r` on the API path. */
  function TickPosts(viaMqtt: bool, r: Reading): seq<Reading> {
    if viaMqtt then [] else [r]
  }

  /**
   * The line one tick appends: after a queued publish on the MQTT path,
   * blank analysis; after an answered post on the API path, with the API's
   * analysis; in both only when the append succeeds.
   */
  function TickLines(viaMqtt: bool, t: TickInput, r: Reading): seq<seq<CellText>> {
    if viaMqtt then (if t.rc == Some(MqttErrSuccess) && t.appendOk then [GeneratorLine(t.now, r, None)] else [])
    else (if t.apiAnswer.Some? && t.appendOk then [GeneratorLine(t.now, r, t.apiAnswer)] else [])
  }

  /** The reading each tick of a run from the last reading `start` generates: tick j's is the walk after j + 1 steps. */
  function RunReadings(start: Reading, ticks: seq<TickInput>): (rs: seq<Reading>)
    ensures |rs| == |ticks| && forall j :: 0 <= j < |ticks| ==> rs[j] == Walk(start, DrawsOf(ticks), j + 1)
  {
    seq(|ticks|, j requires 0 <= j < |ticks| => Walk(start, DrawsOf(ticks), j + 1))
  }

  /** What the first `k` ticks hand to the broker, `readings[j]` being the reading of tick j. */
  function RunEnvelopes(viaMqtt: bool, ticks: seq<TickInput>, readings: seq<Reading>, k: nat): (sent: seq<Envelope>)
    requires k <= |ticks| && k <= |readings|
    ensures |sent| <= k
    ensures !viaMqtt ==> sent == []
  {
    if k == 0 then []
    else RunEnvelopes(viaMqtt, ticks, readings, k - 1) + TickEnvelopes(viaMqtt, ticks[k - 1], readings[k - 1])
  }

  /** What the first `k` ticks post to the API, in order. */
  function RunPosts(viaMqtt: bool, readings: seq<Reading>, k: nat): (posted: seq<Reading>)
    requires k <= |readings|
    ensures viaMqtt ==> posted == []
  {
    if k == 0 then []
    else RunPosts(viaMqtt, readings, k - 1) + TickPosts(viaMqtt, readings[k - 1])
  }

  /** The lines the first `k` ticks append, in order. */
  function RunLines(viaMqtt: bool, ticks: seq<TickInput>, readings: seq<Reading>, k: nat): (lines: seq<seq<CellText>>)
    requires k <= |ticks| && k <= |readings|
    ensures |lines| <= k
  {
    if k == 0 then []
    else RunLines(viaMqtt, ticks, readings, k - 1) + TickLines(viaMqtt, ticks[k - 1], readings[k - 1])
  }

  /**
   * _loop over a run of ticks while nothing stops it and no callback
   * changes the connection: the last reading is the walk over the ticks'
   * draws, and the broker, the API and the file receive exactly what each
   * tick sends and writes, in tick order.
   */
  method RunTicks(g: SensorDataGenerator, ticks: seq<TickInput>)
    requires g.Valid() && g.running
    modifies g
    ensures g.Valid() && g.running
    ensures g.useMqtt == old(g.useMqtt) && g.mqttConnected == old(g.mqttConnected)
    ensures g.readingsCount == old(g.readingsCount) + |ticks|
    ensures g.lastReading == Walk(old(g.lastReading), DrawsOf(ticks), |ticks|)
    ensures g.lastUpdateTime == if |ticks| == 0 then old(g.lastUpdateTime) else Some(ticks[|ticks| - 1].now)
    ensures var readings := RunReadings(old(g.lastReading), ticks);
      && g.outbox == old(g.outbox) + RunEnvelopes(g.useMqtt && g.mqttConnected, ticks, readings, |ticks|)
      && g.apiPosts == old(g.apiPosts) + RunPosts(g.useMqtt && g.mqttConnected, readings, |ticks|)
      && g.csvLines == old(g.csvLines) + RunLines(g.useMqtt && g.mqttConnected, ticks, readings, |ticks|)
  {
    var viaMqtt := g.useMqtt && g.mqttConnected;
    var start := g.lastReading;
    ghost var readings := RunReadings(start, ticks);
    var i := 0;
    while i < |ticks|
      invariant 0 <= i <= |ticks|
      invariant g.Valid() && g.running
      invariant g.useMqtt == old(g.useMqtt) && g.mqttConnected == old(g.mqttConnected)
      invariant g.readingsCount == old(g.readingsCount) + i
      invariant g.lastReading == Walk(start, DrawsOf(ticks), i)
      invariant g.lastUpdateTime == if i == 0 then old(g.lastUpdateTime) else Some(ticks[i - 1].now)
      invariant g.outbox == old(g.outbox) + RunEnvelopes(viaMqtt, ticks, readings, i)
      invariant g.apiPosts == old(g.apiPosts) + RunPosts(viaMqtt, readings, i)
      invariant g.csvLines == old(g.csvLines) + RunLines(viaMqtt, ticks, readings, i)
    {
      RunReadingStep(start, ticks, i);
      TickOfRun(g, ticks, readings, i, old(g.outbox), old(g.apiPosts), old(g.csvLines));
      i := i + 1;
    }
  }

  /**
   * Pass i of the run's loop: Tick with the inputs of `ticks[i]`, whose
   * reading is `readings[i]`, carries the run's records from the first i
   * ticks to the first i + 1.
   */
  method TickOfRun(g: SensorDataGenerator, ticks: seq<TickInput>, ghost readings: seq<Reading>, i: nat,
                   ghost outbox0: seq<Envelope>, ghost posts0: seq<Reading>, ghost lines0: seq<seq<CellText>>)
    requires i < |ticks| && i < |readings| && readings[i] == Next(g.lastReading, ticks[i].draws)
    requires g.Valid() && g.running
    requires g.outbox == outbox0 + RunEnvelopes(g.useMqtt && g.mqttConnected, ticks, readings, i)
    requires g.apiPosts == posts0 + RunPosts(g.useMqtt && g.mqttConnected, readings, i)
    requires g.csvLines == lines0 + RunLines(g.useMqtt && g.mqttConnected, ticks, readings, i)
    modifies g
    ensures g.Valid() && g.running
    ensures g.useMqtt == old(g.useMqtt) && g.mqttConnected == old(g.mqttConnected)
    ensures g.readingsCount == old(g.readingsCount) + 1
    ensures g.lastReading == readings[i]
    ensures g.lastUpdateTime == Some(ticks[i].now)
    ensures g.outbox == outbox0 + RunEnvelopes(g.useMqtt && g.mqttConnected, ticks, readings, i + 1)
    ensures g.apiPosts == posts0 + RunPosts(g.useMqtt && g.mqttConnected, readings, i + 1)
    ensures g.csvLines == lines0 + RunLines(g.useMqtt && g.mqttConnected, ticks, readings, i + 1)
  {
    TickRecords(g, ticks[i]);
  }

  /** One pass of the run's loop: Tick with the inputs of `t`, stated through the per-tick records. */
  method TickRecords(g: SensorDataGenerator, t: TickInput)
    requires g.Valid() && g.running
    modifies g
    ensures g.Valid() && g.running
    ensures g.useMqtt == old(g.useMqtt) && g.mqttConnected == old(g.mqttConnected)
    ensures g.readingsCount == old(g.readingsCount) + 1
    ensures g.lastReading == Next(old(g.lastReading), t.draws)
    ensures g.lastUpdateTime == Some(t.now)
    ensures g.outbox == old(g.outbox) + TickEnvelopes(g.useMqtt && g.mqttConnected, t, g.lastReading)
    ensures g.apiPosts == old(g.apiPosts) + TickPosts(g.useMqtt && g.mqttConnected, g.lastReading)
    ensures g.csvLines == old(g.csvLines) + TickLines(g.useMqtt && g.mqttConnected, t, g.lastReading)
  {
    g.Tick(t.draws, t.now, t.rc, t.apiAnswer, t.appendOk);
  }

  /** Tick i's reading is one step of the walk from tick i - 1's, or from `start` for the first tick. */
  lemma RunReadingStep(start: Reading, ticks: seq<TickInput>, i: nat)
    requires i < |ticks|
    ensures RunReadings(start, ticks)[i] == Walk(start, DrawsOf(ticks), i + 1)
    ensures Walk(start, DrawsOf(ticks), i + 1) == Next(Walk(start, DrawsOf(ticks), i), ticks[i].draws)
  {
    assert DrawsOf(ticks)[i] == ticks[i].draws;
  }

  /** A run sends at most one message or post per tick, and on the MQTT path appends at most one line per message. */
  lemma {:induction false} RunSendsAtMostOnePerTick(viaMqtt: bool, ticks: seq<TickInput>, readings: seq<Reading>, k: nat)
    requires k <= |ticks| && k <= |readings|
    ensures |RunEnvelopes(viaMqtt, ticks, readings, k)| + |RunPosts(viaMqtt, readings, k)| <= k
    ensures viaMqtt ==> |RunLines(viaMqtt, ticks, readings, k)| <= |RunEnvelopes(viaMqtt, ticks, readings, k)|
  {
    if k > 0 {
      RunSendsAtMostOnePerTick(viaMqtt, ticks, readings, k - 1);
      var t, r := ticks[k - 1], readings[k - 1];
      assert |TickEnvelopes(viaMqtt, t, r)| + |TickPosts(viaMqtt, r)| <= 1;
      assert viaMqtt ==> |TickLines(viaMqtt, t, r)| <= |TickEnvelopes(viaMqtt, t, r)|;
    }
  }

  /** On the API path every reading is posted, in tick order. */
  lemma {:induction false} ApiRunPostsEveryReading(readings: seq<Reading>, k: nat)
    requires k <= |readings|
    ensures RunPosts(false, readings, k) == readings[..k]
  {
    if k > 0 {
      ApiRunPostsEveryReading(readings, k - 1);
      assert readings[..k] == readings[..k - 1] + [readings[k - 1]];
    }
  }

  /**
   * Every line a run writes on the MQTT path has a blank health index, so
   * none of them counts among the parsed rows of /stats.
   */
  lemma {:induction false} MqttRunLinesHaveNoIndex(header: seq<string>, ticks: seq<TickInput>, readings: seq<Reading>, k: nat)
    requires header == AppColumns || header == GeneratorColumns
    requires k <= |ticks| && k <= |readings|
    ensures forall line :: line in RunLines(true, ticks, readings, k) ==> RowIndex(DictRow(header, line)).None?
  {
    if k > 0 {
      MqttRunLinesHaveNoIndex(header, ticks, readings, k - 1);
      var t, r := ticks[k - 1], readings[k - 1];
      var prev := RunLines(true, ticks, readings, k - 1);
      assert RunLines(true, ticks, readings, k) == prev + TickLines(true, t, r);
      forall line | line in prev + TickLines(true, t, r)
        ensures RowIndex(DictRow(header, line)).None?
      {
        if line !in prev {
          MqttLineHasNoIndex(header, t.now, r);
        }
      }
    }
  }

  // ---------------------------------------------------------------------
  // What the backend makes of the generator's lines

  /** Both headers the shared file can carry have distinct column names. */
  lemma HeadersDistinct(header: seq<string>)
    requires header == AppColumns || header == GeneratorColumns
    ensures forall a, b :: 0 <= a < b < |header| ==> header[a] != header[b]
    ensures |header| > 8 && header[8] == "health_index"
  {
    AppColumnsDistinct();
  }

  /** A generator line has no health index int() accepts, whichever header the file has. */
  lemma MqttLineHasNoIndex(header: seq<string>, now: int, r: Reading)
    requires header == AppColumns || header == GeneratorColumns
    ensures RowIndex(DictRow(header, GeneratorLine(now, r, None))).None?
  {
    var line := GeneratorLine(now, r, None);
    HeadersDistinct(header);
    DictRowAt(header, line, |header|, 8);
    assert line[8] == Literal("");
    assert ParseIntLiteral("") == None;
  }

  /**
   * A line the generator wrote on the MQTT path, blank analysis and all,
   * makes the CSV branch of /latest answer 500 while it is the last line,
   * and is left out of the parsed indices and anomaly count of /stats
   * although it counts in total_readings (it is never a blank line).
   */
  lemma MqttLineInCsvQueries(header: seq<string>, lines: seq<seq<CellText>>, now: int, r: Reading)
    requires header == AppColumns || header == GeneratorColumns
    ensures CsvLatestOf(true, header, lines + [GeneratorLine(now, r, None)]) == LatestError
    ensures ParsedIndices(Reader(header, lines + [GeneratorLine(now, r, None)])) == ParsedIndices(Reader(header, lines))
    ensures AnomalyCount(Reader(header, lines + [GeneratorLine(now, r, None)])) == AnomalyCount(Reader(header, lines))
    ensures |Reader(header, lines + [GeneratorLine(now, r, None)])| == |Reader(header, lines)| + 1
  {
    var line := GeneratorLine(now, r, None);
    MqttLineHasNoIndex(header, now, r);
    DataLinesAppend(lines, line);
    LastDataLine(lines + [line]);
    var all := Reader(header, lines + [line]);
    var before := Reader(header, lines);
    assert all[..|before|] == before;
    assert all[|before|] == DictRow(header, line);
  }
}
