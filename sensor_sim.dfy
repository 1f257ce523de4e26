/**
 * The random walk shared by backend/sensor_generator.py and
 * backend/mqtt_sensor_publisher.py: each parameter moves from its last
 * value by a draw within its variation range, or, on a 5% roll, by a spike
 * within [-30, 30]; Temperature, Moisture, pH and CO2 are then clamped to
 * plausible ranges. The random draws are inputs; rounding to two decimals
 * is not modelled.
 */
module SensorSim {
  import opened Wrappers
  import opened Soil

  /** The publisher id both senders put in their messages. */
  const PublisherId: string := "sensor-publisher-01"

  /** MQTT_ERR_SUCCESS, the return code of a publish that was queued. */
  const MqttErrSuccess: int := 0

  /** The JSON message both senders publish: {timestamp, publisher_id, sensor_readings}. */
  datatype Envelope = Envelope(timestamp: int, publisherId: string, sensorReadings: Reading)

  /** BASE_READINGS */
  const BaseReadings: Reading := Reading(22.0, 18.0, 150.0, 500.0, 22.0, 55.0, 7.2)

  /** VARIATIONS: the range of the ordinary step of each parameter. */
  function Variation(q: Param): (real, real) {
    match q
    case N => (-2.0, 2.0)
    case P => (-1.0, 1.0)
    case K => (-10.0, 10.0)
    case CO2 => (-50.0, 50.0)
    case Temperature => (-2.0, 2.0)
    case Moisture => (-5.0, 5.0)
    case PH => (-0.3, 0.3)
  }

  /** Chance below which a spike replaces the ordinary step. */
  const SpikeChance: real := 0.05
  const SpikeBound: real := 30.0

  /**
   * The random numbers one parameter consumes: `random.uniform` over its
   * variation range, `random.random()` for the spike roll, and the spike's
   * own `random.uniform(-30, 30)` (drawn only when the roll is below 0.05).
   */
  datatype Draw = Draw(variation: real, spikeRoll: real, spike: real)

  /** What the random generator can return for parameter `q`. */
  predicate ValidDraw(q: Param, d: Draw) {
    && Variation(q).0 <= d.variation <= Variation(q).1
    && 0.0 <= d.spikeRoll < 1.0
    && -SpikeBound <= d.spike <= SpikeBound
  }

  /** The clamp applied to a parameter, if any: (low, high). */
  function ClampOf(q: Param): Option<(real, real)> {
    match q
    case Temperature => Some((5.0, 35.0))
    case Moisture => Some((20.0, 80.0))
    case PH => Some((4.0, 9.0))
    case CO2 => Some((300.0, 1000.0))
    case _ => None
  }

  /** The value before clamping: the last value plus the step or the spike. */
  function Stepped(value: real, d: Draw): real {
    if d.spikeRoll < SpikeChance then value + d.spike else value + d.variation
  }

  /** The next value of parameter `q`. */
  function NextValue(q: Param, value: real, d: Draw): real {
    var v := Stepped(value, d);
    if ClampOf(q).Some? then ClampReal(ClampOf(q).value.0, ClampOf(q).value.1, v) else v
  }

  /** The next reading: every parameter stepped from its last value. */
  function Next(last: Reading, draws: Param -> Draw): (r: Reading)
    ensures forall q: Param :: r.Get(q) == NextValue(q, last.Get(q), draws(q))
  {
    Reading(NextValue(N, last.n, draws(N)), NextValue(P, last.p, draws(P)), NextValue(K, last.k, draws(K)),
            NextValue(CO2, last.co2, draws(CO2)), NextValue(Temperature, last.temperature, draws(Temperature)),
            NextValue(Moisture, last.moisture, draws(Moisture)), NextValue(PH, last.ph, draws(PH)))
  }

  /**
   * Before the clamp, a value moves by at most its variation range, or by
   * at most 30 on a spike; a clamped parameter ends inside its clamp, and
   * is untouched by the clamp when the stepped value was already inside.
   * N, P and K are never clamped.
   */
  lemma NextValueBounds(q: Param, value: real, d: Draw)
    requires ValidDraw(q, d)
    ensures d.spikeRoll >= SpikeChance ==>
      value + Variation(q).0 <= Stepped(value, d) <= value + Variation(q).1
    ensures d.spikeRoll < SpikeChance ==> value - SpikeBound <= Stepped(value, d) <= value + SpikeBound
    ensures ClampOf(q).None? <==> q in {N, P, K}
    ensures ClampOf(q).None? ==> NextValue(q, value, d) == Stepped(value, d)
    ensures ClampOf(q).Some? ==> ClampOf(q).value.0 <= NextValue(q, value, d) <= ClampOf(q).value.1
    ensures ClampOf(q).Some? && ClampOf(q).value.0 <= Stepped(value, d) <= ClampOf(q).value.1 ==>
      NextValue(q, value, d) == Stepped(value, d)
  {
  }

  /** N is not clamped: an ordinary step from 0 takes it below zero. */
  lemma NitrogenCanGoNegative()
    ensures ValidDraw(N, Draw(-2.0, 0.5, 0.0)) && NextValue(N, 0.0, Draw(-2.0, 0.5, 0.0)) == -2.0
  {
  }

  /**
   * generate_reading's loop: one new value per parameter of the last
   * reading, in its key order, stepped then clamped.
   */
  method GenerateFrom(last: Reading, draws: Param -> Draw) returns (reading: Reading)
    ensures reading == Next(last, draws)
  {
    var values: seq<real> := [];
    var i := 0;
    while i < |AllParams|
      invariant 0 <= i <= |AllParams| && |values| == i
      invariant forall j :: 0 <= j < i ==> values[j] == NextValue(AllParams[j], last.Get(AllParams[j]), draws(AllParams[j]))
    {
      var param := AllParams[i];
      var value := last.Get(param);
      var d := draws(param);
      var newValue := value + d.variation;
      if d.spikeRoll < SpikeChance {
        newValue := value + d.spike;
      }
      if param == Temperature {
        newValue := ClampReal(5.0, 35.0, newValue);
      } else if param == Moisture {
        newValue := ClampReal(20.0, 80.0, newValue);
      } else if param == PH {
        newValue := ClampReal(4.0, 9.0, newValue);
      } else if param == CO2 {
        newValue := ClampReal(300.0, 1000.0, newValue);
      }
      values := values + [newValue];
      i := i + 1;
    }
    reading := Reading(values[0], values[1], values[2], values[3], values[4], values[5], values[6]);
    assert forall q: Param :: reading.Get(q) == values[IndexOf(q)];
    ReadingExtensional(reading, Next(last, draws));
  }

  /**
   * The reading after the first `k` steps of a run of the walk from
   * `start`, `steps[i]` holding the draws of step i + 1: what the last
   * reading is after k passes of either sender's loop.
   */
  function Walk(start: Reading, steps: seq<Param -> Draw>, k: nat): Reading
    requires k <= |steps|
  {
    if k == 0 then start else Next(Walk(start, steps, k - 1), steps[k - 1])
  }

  /**
   * Once the walk has taken a step, each clamped parameter lies inside its
   * clamp whatever the draws; a step of valid draws moves N, P and K by at
   * most 30.
   */
  lemma WalkStaysClamped(start: Reading, steps: seq<Param -> Draw>, k: nat, q: Param)
    requires 0 < k <= |steps|
    ensures ClampOf(q).Some? ==> ClampOf(q).value.0 <= Walk(start, steps, k).Get(q) <= ClampOf(q).value.1
    ensures ClampOf(q).None? && ValidDraw(q, steps[k - 1](q)) ==>
      Walk(start, steps, k - 1).Get(q) - SpikeBound <= Walk(start, steps, k).Get(q) <= Walk(start, steps, k - 1).Get(q) + SpikeBound
  {
    var prev := Walk(start, steps, k - 1);
    assert Walk(start, steps, k).Get(q) == NextValue(q, prev.Get(q), steps[k - 1](q));
    if ClampOf(q).None? && ValidDraw(q, steps[k - 1](q)) {
      NextValueBounds(q, prev.Get(q), steps[k - 1](q));
    }
  }
}
