/**
 * backend/mqtt_sensor_subscriber.py: the subscriber that takes sensor
 * envelopes off the broker, forwards valid readings to the analysis API and
 * keeps an audit trail in data/mqtt_sensor_received.csv. The broker, the
 * HTTP call and the file are outside the model: the outcome of each is a
 * parameter, and the file is the sequence of its lines.
 */
module MqttSubscriber {
  import opened Wrappers
  import opened Soil
  import opened CsvText

  const SensorDataTopic: string := "harit-samarth/sensor/data"

  /** The columns of the audit file, in the order its rows are written. */
  const AuditColumns: seq<string> := ["timestamp", "publisher_id", "N", "P", "K", "CO2", "Temperature",
    "Moisture", "pH", "health_index", "health_status", "is_anomalous", "anomaly_score"]

  /**
   * A message as json.loads leaves it: text that does not decode, a JSON
   * value that is not an object (its `.get` raises), or an object with the
   * three keys the subscriber looks up, each possibly absent.
   */
  datatype Payload =
    | Undecodable
    | NotAnObject
    | Envelope(sensorReadings: Option<map<string, RawValue>>, timestamp: Option<RawValue>, publisherId: Option<RawValue>)

  /** What on_message does with one message. */
  datatype Outcome =
    | Malformed          // JSON error or a payload that is not an object: counted as failed
    | Invalid            // a reading field is missing: counted as failed, the API is not called
    | ApiFailed          // the API did not answer 200: counted as failed
    | Processed          // the API answered 200: counted as processed, audit row appended

  /** `payload.get('sensor_readings', {})` */
  function ReadingsOf(p: Payload): map<string, RawValue>
    requires p.Envelope?
  {
    if p.sensorReadings.Some? then p.sensorReadings.value else map[]
  }

  function OutcomeOf(p: Payload, apiOk: bool): Outcome {
    if !p.Envelope? then Malformed
    else if !HasAllFields(ReadingsOf(p)) then Invalid
    else if apiOk then Processed
    else ApiFailed
  }

  /**
   * The audit row of _save_to_csv: the envelope's timestamp or the time of
   * receipt, its publisher id or 'unknown', the seven readings as received,
   * and four blank analysis cells left for the API to fill elsewhere.
   */
  function AuditRow(p: Payload, now: int): (row: seq<CellText>)
    requires p.Envelope? && HasAllFields(ReadingsOf(p))
    ensures |row| == |AuditColumns|
    ensures row[0] == if p.timestamp.Some? then RawText(p.timestamp.value) else TimeText(now)
    ensures row[1] == if p.publisherId.Some? then RawText(p.publisherId.value) else Literal("unknown")
    ensures forall i :: 0 <= i < |AllParams| ==> row[2 + i] == RawText(ReadingsOf(p)[FieldName(AllParams[i])])
    ensures forall j :: 9 <= j < |row| ==> row[j] == Literal("") && FloatOf(row[j]).None?
  {
    var sr := ReadingsOf(p);
    [if p.timestamp.Some? then RawText(p.timestamp.value) else TimeText(now),
     if p.publisherId.Some? then RawText(p.publisherId.value) else Literal("unknown"),
     RawText(sr[FieldName(N)]), RawText(sr[FieldName(P)]), RawText(sr[FieldName(K)]),
     RawText(sr[FieldName(CO2)]), RawText(sr[FieldName(Temperature)]), RawText(sr[FieldName(Moisture)]),
     RawText(sr[FieldName(PH)]),
     Literal(""), Literal(""), Literal(""), Literal("")]
  }

  /** The success rate of the stats loop, printed only once a message has arrived. */
  function SuccessRate(received: nat, processed: nat): (rate: Option<real>)
    requires processed <= received
    ensures rate.None? <==> received == 0
    ensures rate.Some? ==> 0.0 <= rate.value <= 100.0
    ensures rate.Some? ==> rate.value * (received as real) == (processed as real) * 100.0
  {
    if received > 0 then
      var r := (processed as real) / (received as real) * 100.0;
      assert (processed as real) / (received as real) <= 1.0;
      Some(r)
    else None
  }

  class MqttSensorSubscriber {
    var running: bool
    var connected: bool
    var messagesReceived: nat
    var messagesProcessed: nat
    var messagesFailed: nat
    /** Topics subscribed to, in order. */
    var subscriptions: seq<string>
    /** The lines of data/mqtt_sensor_received.csv; None while the file does not exist. */
    var auditFile: Option<seq<seq<CellText>>>
    /** The readings forwarded to the API, in order. */
    ghost var forwarded: seq<map<string, RawValue>>

    /** Every message received was counted exactly once, as processed or as failed. */
    ghost predicate Valid()
      reads this
    {
      messagesReceived == messagesProcessed + messagesFailed
    }

    /**
     * A new subscriber: nothing counted, not connected, not running. The
     * audit file gets its header when it did not exist and creating it
     * succeeded (`created`).
     */
    constructor (fileExists: Option<seq<seq<CellText>>>, created: bool)
      ensures Valid()
      ensures !running && !connected && messagesReceived == 0 && subscriptions == [] && forwarded == []
      ensures fileExists.Some? ==> auditFile == fileExists
      ensures fileExists.None? ==>
        auditFile == if created then Some([HeaderLine(AuditColumns)]) else None
    {
      running := false;
      connected := false;
      messagesReceived := 0;
      messagesProcessed := 0;
      messagesFailed := 0;
      subscriptions := [];
      forwarded := [];
      if fileExists.Some? {
        auditFile := fileExists;
      } else if created {
        auditFile := Some([HeaderLine(AuditColumns)]);
      } else {
        auditFile := None;
      }
    }

    /** on_connect: connected exactly when rc is 0, and only then subscribed to the sensor topic. */
    method OnConnect(rc: int)
      modifies this
      ensures connected <==> rc == 0
      ensures subscriptions == old(subscriptions) + if rc == 0 then [SensorDataTopic] else []
      ensures running == old(running) && messagesReceived == old(messagesReceived)
      ensures messagesProcessed == old(messagesProcessed) && messagesFailed == old(messagesFailed)
      ensures auditFile == old(auditFile) && forwarded == old(forwarded)
    {
      if rc == 0 {
        connected := true;
        subscriptions := subscriptions + [SensorDataTopic];
      } else {
        connected := false;
      }
    }

    /** on_disconnect: never connected afterwards, whatever the code. */
    method OnDisconnect(rc: int)
      modifies this
      ensures !connected
      ensures running == old(running) && subscriptions == old(subscriptions)
      ensures messagesReceived == old(messagesReceived)
      ensures messagesProcessed == old(messagesProcessed) && messagesFailed == old(messagesFailed)
      ensures auditFile == old(auditFile) && forwarded == old(forwarded)
    {
      connected := false;
    }

    /**
     * on_message. `apiOk` says the API answered 200 with a readable body,
     * `appendOk` that appending to the audit file raised nothing, `now` the
     * time of receipt.
     */
    method OnMessage(p: Payload, now: int, apiOk: bool, appendOk: bool)
      requires Valid()
      modifies this
      ensures Valid()
      ensures messagesReceived == old(messagesReceived) + 1
      ensures OutcomeOf(p, apiOk) == Processed ==>
        messagesProcessed == old(messagesProcessed) + 1 && messagesFailed == old(messagesFailed)
      ensures OutcomeOf(p, apiOk) != Processed ==>
        messagesProcessed == old(messagesProcessed) && messagesFailed == old(messagesFailed) + 1
      ensures forwarded == old(forwarded) +
        if OutcomeOf(p, apiOk) == Processed || OutcomeOf(p, apiOk) == ApiFailed then [ReadingsOf(p)] else []
      ensures OutcomeOf(p, apiOk) == Processed && appendOk ==>
        auditFile == Some(old(auditFile).GetOr([]) + [AuditRow(p, now)])
      ensures !(OutcomeOf(p, apiOk) == Processed && appendOk) ==> auditFile == old(auditFile)
      ensures connected == old(connected) && running == old(running) && subscriptions == old(subscriptions)
    {
      messagesReceived := messagesReceived + 1;
      if !p.Envelope? {
        messagesFailed := messagesFailed + 1;
        return;
      }
      var sensorReadings := if p.sensorReadings.Some? then p.sensorReadings.value else map[];
      if !HasAllFields(sensorReadings) {
        messagesFailed := messagesFailed + 1;
        return;
      }
      forwarded := forwarded + [sensorReadings];
      if apiOk {
        messagesProcessed := messagesProcessed + 1;
        SaveToCsv(p, now, appendOk);
      } else {
        messagesFailed := messagesFailed + 1;
      }
    }

    /**
     * _save_to_csv: appends the audit row, without a header, creating the
     * file if it is missing; a failure is caught and logged.
     */
    method SaveToCsv(p: Payload, now: int, appendOk: bool)
      requires p.Envelope? && HasAllFields(ReadingsOf(p))
      modifies this`auditFile
      ensures appendOk ==> auditFile == Some(old(auditFile).GetOr([]) + [AuditRow(p, now)])
      ensures !appendOk ==> auditFile == old(auditFile)
    {
      if appendOk {
        var lines := if auditFile.Some? then auditFile.value else [];
        auditFile := Some(lines + [AuditRow(p, now)]);
      }
    }

    /** stop: the stats loop ends; the transport shutdown is not modelled. */
    method Stop()
      modifies this`running
      ensures !running
    {
      running := false;
    }
  }

  /** A reading with a field missing is classed invalid, so it never reaches the API. */
  lemma InvalidReadingNotForwarded(p: Payload, apiOk: bool)
    requires p.Envelope? && !HasAllFields(ReadingsOf(p))
    ensures OutcomeOf(p, apiOk) == Invalid
    ensures exists q: Param :: FieldName(q) !in ReadingsOf(p)
  {
  }

  /** An envelope without "sensor_readings" is invalid: the default `{}` has no field. */
  lemma MissingReadingsKeyIsInvalid(timestamp: Option<RawValue>, publisherId: Option<RawValue>, apiOk: bool)
    ensures OutcomeOf(Envelope(None, timestamp, publisherId), apiOk) == Invalid
  {
    assert FieldName(N) !in ReadingsOf(Envelope(None, timestamp, publisherId));
  }
}
