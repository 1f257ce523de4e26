/**
 * backend/mqtt_sensor_publisher.py: the stand-alone publisher that seeds
 * itself from the last line of data/sensor_readings.csv, then once a tick
 * steps the reading and publishes it to the broker when connected. It has
 * no fallback: a tick without a connection publishes nothing. The broker
 * and the clock are outside the model: their answers are parameters.
 */
module MqttPublisher {
  import opened Wrappers
  import opened Soil
  import opened CsvText
  import opened SensorSim

  /** The fields of a line as the loader sees them: `line.strip().split(',')`. */
  function FieldsOf(line: string): seq<string> {
    Split(Strip(line), ',')
  }

  /**
   * The reading in the fields of one CSV line: fields 1 to 7 through
   * float(), provided there are at least eight fields; None where a
   * conversion raises.
   */
  function ReadingOfFields(values: seq<string>): (r: Option<Reading>)
    ensures r.Some? <==> |values| >= 8 && forall i :: 1 <= i < 8 ==> FloatLiteral(values[i]).Some?
    ensures r.Some? ==> forall q: Param :: r.value.Get(q) == FloatLiteral(values[1 + IndexOf(q)]).value
  {
    if |values| >= 8 && forall i :: 1 <= i < 8 ==> FloatLiteral(values[i]).Some? then
      Some(Reading(FloatLiteral(values[1]).value, FloatLiteral(values[2]).value, FloatLiteral(values[3]).value,
                   FloatLiteral(values[4]).value, FloatLiteral(values[5]).value, FloatLiteral(values[6]).value,
                   FloatLiteral(values[7]).value))
    else None
  }

  /** The reading in one CSV line, as the loader parses it. */
  function LineReading(line: string): Option<Reading> {
    ReadingOfFields(FieldsOf(line))
  }

  /**
   * The seed after _load_historical_data, from the file's lines (None when
   * the file does not exist or cannot be read) and the reading before.
   */
  function HistoricalSeed(file: Option<seq<string>>, before: Reading): (r: Reading)
    ensures file.None? || |file.value| <= 1 ==> r == before
    ensures file.Some? && |file.value| > 1 && LineReading(file.value[|file.value| - 1]).None? ==> r == before
    ensures file.Some? && |file.value| > 1 && LineReading(file.value[|file.value| - 1]).Some? ==>
      r == LineReading(file.value[|file.value| - 1]).value
  {
    if file.None? || |file.value| <= 1 then before
    else
      var parsed := LineReading(file.value[|file.value| - 1]);
      if parsed.Some? then parsed.value else before
  }

  /** A line whose fields 1 to 7 are the float texts of a reading reads as that reading. */
  lemma LineOfReading(line: string, values: seq<string>, r: Reading)
    requires FieldsOf(line) == values && |values| >= 8
    requires forall i :: 0 <= i < |AllParams| ==> FloatLiteral(values[1 + i]) == Some(r.Get(AllParams[i]))
    ensures LineReading(line) == Some(r)
  {
    assert forall i :: 1 <= i < 8 ==> FloatLiteral(values[i]).Some? by {
      forall i | 1 <= i < 8 ensures FloatLiteral(values[i]).Some? {
        assert FloatLiteral(values[1 + (i - 1)]) == Some(r.Get(AllParams[i - 1]));
      }
    }
    var seed := LineReading(line).value;
    forall q: Param ensures seed.Get(q) == r.Get(q) {
      assert AllParams[IndexOf(q)] == q;
    }
    ReadingExtensional(seed, r);
  }

  /** A stripped line of comma-free fields joined by commas splits back into them. */
  lemma JoinedLineFields(line: string, fields: seq<string>)
    requires |fields| >= 1 && forall i :: 0 <= i < |fields| ==> ',' !in fields[i]
    requires Strip(line) == Join(fields, ',')
    ensures FieldsOf(line) == fields
  {
    SplitOfJoin(fields, ',');
  }

  /**
   * The round trip with the writer: when the last line, stripped, is at
   * least eight comma-free fields joined by commas, and fields 1 to 7 are
   * the float texts of a reading, that reading is the seed.
   */
  lemma WrittenLineSeeds(lines: seq<string>, fields: seq<string>, r: Reading, before: Reading)
    requires |fields| >= 8 && forall i :: 0 <= i < |fields| ==> ',' !in fields[i]
    requires |lines| > 1 && Strip(lines[|lines| - 1]) == Join(fields, ',')
    requires forall i :: 0 <= i < |AllParams| ==> FloatLiteral(fields[1 + i]) == Some(r.Get(AllParams[i]))
    ensures HistoricalSeed(Some(lines), before) == r
  {
    var line := lines[|lines| - 1];
    JoinedLineFields(line, fields);
    LineOfReading(line, fields, r);
    LastLineSeeds(lines, r, before);
  }

  /** A file of a header and more whose last line reads as a reading is seeded with it. */
  lemma LastLineSeeds(lines: seq<string>, r: Reading, before: Reading)
    requires |lines| > 1 && LineReading(lines[|lines| - 1]) == Some(r)
    ensures HistoricalSeed(Some(lines), before) == r
  {
  }

  /** A line of seven fields or fewer, such as a blank last line, leaves the seed alone. */
  lemma ShortLineKeepsSeed(lines: seq<string>, before: Reading)
    requires |lines| > 1 && |FieldsOf(lines[|lines| - 1])| < 8
    ensures HistoricalSeed(Some(lines), before) == before
  {
  }

  /** How connect ended: it raised, the wait ran out, or on_connect(0) came within the wait. */
  datatype ConnectOutcome = ConnectRaised | ConnectTimedOut | ConnectAccepted

  class MqttSensorPublisher {
    var running: bool
    var lastReading: Reading
    var readingsCount: nat
    var connected: bool
    /** Messages handed to the broker, in order. */
    var outbox: seq<Envelope>

    /** __init__: not running, not connected, seeded from the file when it can be. */
    constructor (file: Option<seq<string>>)
      ensures !running && !connected && readingsCount == 0 && outbox == []
      ensures lastReading == HistoricalSeed(file, BaseReadings)
    {
      running := false;
      lastReading := BaseReadings;
      readingsCount := 0;
      connected := false;
      outbox := [];
      new;
      LoadHistoricalData(file);
    }

    /** _load_historical_data */
    method LoadHistoricalData(file: Option<seq<string>>)
      modifies this`lastReading
      ensures lastReading == HistoricalSeed(file, old(lastReading))
    {
      if file.Some? && |file.value| > 1 {
        var lastLine := file.value[|file.value| - 1];
        var parsed := LineReading(lastLine);
        if parsed.Some? {
          lastReading := parsed.value;
        }
      }
    }

    /** on_connect: connected exactly when rc is 0. */
    method OnConnect(rc: int)
      modifies this`connected
      ensures connected <==> rc == 0
    {
      connected := rc == 0;
    }

    /** on_disconnect: never connected afterwards. */
    method OnDisconnect(rc: int)
      modifies this`connected
      ensures !connected
    {
      connected := false;
    }

    /**
     * connect: true once connected within the wait, false when connect
     * raised or the wait ran out with no connection.
     */
    method Connect(outcome: ConnectOutcome) returns (ok: bool)
      modifies this`connected
      ensures outcome == ConnectRaised ==> !ok && connected == old(connected)
      ensures outcome != ConnectRaised ==> (connected <==> old(connected) || outcome == ConnectAccepted)
      ensures ok <==> outcome != ConnectRaised && connected
    {
      if outcome == ConnectRaised {
        return false;
      }
      if outcome == ConnectAccepted {
        connected := true;
      }
      ok := connected;
    }

    /** generate_reading: the next step of the walk, which becomes the last reading. */
    method GenerateReading(draws: Param -> Draw) returns (reading: Reading)
      modifies this`lastReading
      ensures reading == Next(old(lastReading), draws) && lastReading == reading
    {
      reading := GenerateFrom(lastReading, draws);
      lastReading := reading;
    }

    /**
     * publish_reading: publishes the envelope and reports whether the
     * broker took it; unlike the generator's, it does not look at the
     * connection first. `rc` is None when publish raised.
     */
    method PublishReading(reading: Reading, now: int, rc: Option<int>) returns (ok: bool)
      modifies this`outbox
      ensures ok <==> rc == Some(MqttErrSuccess)
      ensures outbox == old(outbox) + if ok then [Envelope(now, PublisherId, reading)] else []
    {
      var message := Envelope(now, PublisherId, reading);
      if rc.Some? && rc.value == MqttErrSuccess {
        outbox := outbox + [message];
        ok := true;
      } else {
        ok := false;
      }
    }

    /**
     * One pass of _publish_loop while running: count, step, and publish
     * only when connected; nothing is sent anywhere else.
     */
    method Tick(draws: Param -> Draw, now: int, rc: Option<int>)
      requires running
      modifies this
      ensures running && connected == old(connected)
      ensures readingsCount == old(readingsCount) + 1
      ensures lastReading == Next(old(lastReading), draws)
      ensures outbox == old(outbox) +
        if connected && rc == Some(MqttErrSuccess) then [Envelope(now, PublisherId, lastReading)] else []
    {
      readingsCount := readingsCount + 1;
      var reading := GenerateReading(draws);
      if connected {
        var success := PublishReading(reading, now, rc);
      }
    }

    /**
     * start: running from then on, even when it gives up; the loop starts
     * only when connect succeeds. The thread itself is not modelled.
     */
    method Start(outcome: ConnectOutcome) returns (started: bool)
      modifies this
      ensures running
      ensures started <==> outcome != ConnectRaised && (old(connected) || outcome == ConnectAccepted)
      ensures connected == (if outcome == ConnectRaised then old(connected) else old(connected) || outcome == ConnectAccepted)
      ensures lastReading == old(lastReading) && readingsCount == old(readingsCount) && outbox == old(outbox)
    {
      running := true;
      started := Connect(outcome);
    }

    /** stop: the loop ends; the client's own shutdown is not modelled. */
    method Stop()
      modifies this`running
      ensures !running
    {
      running := false;
    }
  }

  /** The input one tick consumes. */
  datatype TickInput = TickInput(draws: Param -> Draw, now: int, rc: Option<int>)

  /** The draws of a run of ticks, in order. */
  function DrawsOf(ticks: seq<TickInput>): (steps: seq<Param -> Draw>)
    ensures |steps| == |ticks| && forall i :: 0 <= i < |ticks| ==> steps[i] == ticks[i].draws
  {
    seq(|ticks|, i requires 0 <= i < |ticks| => ticks[i].draws)
  }

  /** The reading each tick of a run from the last reading `start` generates: tick j's is the walk after j + 1 steps. */
  function RunReadings(start: Reading, ticks: seq<TickInput>): (rs: seq<Reading>)
    ensures |rs| == |ticks| && forall j :: 0 <= j < |ticks| ==> rs[j] == Walk(start, DrawsOf(ticks), j + 1)
  {
    seq(|ticks|, j requires 0 <= j < |ticks| => Walk(start, DrawsOf(ticks), j + 1))
  }

  /** What one tick publishes: the envelope of `r` when connected and the broker queued it. */
  function TickMessages(connected: bool, t: TickInput, r: Reading): seq<Envelope> {
    if connected && t.rc == Some(MqttErrSuccess) then [Envelope(t.now, PublisherId, r)] else []
  }

  /** What the first `k` ticks publish, in order, `readings[j]` being the reading of tick j. */
  function RunMessages(connected: bool, ticks: seq<TickInput>, readings: seq<Reading>, k: nat): (sent: seq<Envelope>)
    requires k <= |ticks| && k <= |readings|
    ensures |sent| <= k
    ensures !connected ==> sent == []
  {
    if k == 0 then []
    else RunMessages(connected, ticks, readings, k - 1) + TickMessages(connected, ticks[k - 1], readings[k - 1])
  }

  /**
   * _publish_loop over a run of ticks with no callback in between: the
   * connection stays as it was, the last reading is the walk over the
   * ticks' draws, and the broker receives exactly what each tick publishes,
   * in tick order; nothing at all while disconnected.
   */
  method RunTicks(p: MqttSensorPublisher, ticks: seq<TickInput>)
    requires p.running
    modifies p
    ensures p.running && p.connected == old(p.connected)
    ensures p.readingsCount == old(p.readingsCount) + |ticks|
    ensures p.lastReading == Walk(old(p.lastReading), DrawsOf(ticks), |ticks|)
    ensures p.outbox == old(p.outbox) + RunMessages(p.connected, ticks, RunReadings(old(p.lastReading), ticks), |ticks|)
  {
    var start := p.lastReading;
    ghost var readings := RunReadings(start, ticks);
    var i := 0;
    while i < |ticks|
      invariant 0 <= i <= |ticks|
      invariant p.running && p.connected == old(p.connected)
      invariant p.readingsCount == old(p.readingsCount) + i
      invariant p.lastReading == Walk(start, DrawsOf(ticks), i)
      invariant p.outbox == old(p.outbox) + RunMessages(p.connected, ticks, readings, i)
    {
      RunReadingStep(start, ticks, i);
      TickOfRun(p, ticks, readings, i, old(p.outbox));
      i := i + 1;
    }
  }

  /**
   * Pass i of the run's loop: Tick with the inputs of `ticks[i]`, whose
   * reading is `readings[i]`, carries the published messages from the
   * first i ticks to the first i + 1.
   */
  method TickOfRun(p: MqttSensorPublisher, ticks: seq<TickInput>, ghost readings: seq<Reading>, i: nat,
                   ghost outbox0: seq<Envelope>)
    requires i < |ticks| && i < |readings| && readings[i] == Next(p.lastReading, ticks[i].draws)
    requires p.running
    requires p.outbox == outbox0 + RunMessages(p.connected, ticks, readings, i)
    modifies p
    ensures p.running && p.connected == old(p.connected)
    ensures p.readingsCount == old(p.readingsCount) + 1
    ensures p.lastReading == readings[i]
    ensures p.outbox == outbox0 + RunMessages(p.connected, ticks, readings, i + 1)
  {
    var t := ticks[i];
    p.Tick(t.draws, t.now, t.rc);
  }

  /** Tick i's reading is one step of the walk from tick i - 1's, or from `start` for the first tick. */
  lemma RunReadingStep(start: Reading, ticks: seq<TickInput>, i: nat)
    requires i < |ticks|
    ensures RunReadings(start, ticks)[i] == Walk(start, DrawsOf(ticks), i + 1)
    ensures Walk(start, DrawsOf(ticks), i + 1) == Next(Walk(start, DrawsOf(ticks), i), ticks[i].draws)
  {
    assert DrawsOf(ticks)[i] == ticks[i].draws;
  }

  /**
   * While connected, a run whose every publish is queued publishes one
   * message per tick, in tick order, each carrying its tick's reading.
   */
  lemma {:induction false} AcceptedRunPublishesEveryReading(ticks: seq<TickInput>, readings: seq<Reading>, k: nat)
    requires k <= |ticks| && k <= |readings|
    requires forall j :: 0 <= j < k ==> ticks[j].rc == Some(MqttErrSuccess)
    ensures |RunMessages(true, ticks, readings, k)| == k
    ensures forall j :: 0 <= j < k ==>
      RunMessages(true, ticks, readings, k)[j] == Envelope(ticks[j].now, PublisherId, readings[j])
  {
    if k > 0 {
      AcceptedRunPublishesEveryReading(ticks, readings, k - 1);
    }
  }
}
