/**
 * Vocabulary shared by every part of the soil-health backend: the seven
 * sensor parameters, a typed reading, the loosely typed JSON values that
 * requests and MQTT payloads carry, Python's float() and int() on them,
 * and the five-way health status that both scoring paths derive from an
 * integer index.
 */
module Soil {
  import opened Wrappers

  /** The seven parameters, in the order every table of the backend lists them. */
  datatype Param = N | P | K | CO2 | Temperature | Moisture | PH

  const AllParams: seq<Param> := [N, P, K, CO2, Temperature, Moisture, PH]

  /** The JSON key of a parameter in a request body or payload. */
  function FieldName(q: Param): string {
    match q
    case N => "N"
    case P => "P"
    case K => "K"
    case CO2 => "CO2"
    case Temperature => "Temperature"
    case Moisture => "Moisture"
    case PH => "pH"
  }

  /** `required_fields` of every endpoint and of the subscriber. */
  const RequiredFields: seq<string> := ["N", "P", "K", "CO2", "Temperature", "Moisture", "pH"]

  lemma AllParamsListsEveryParam(q: Param)
    ensures q in AllParams
  {
  }

  lemma RequiredFieldsAreFieldNames()
    ensures |RequiredFields| == |AllParams| == 7
    ensures forall i :: 0 <= i < 7 ==> RequiredFields[i] == FieldName(AllParams[i])
    ensures forall q: Param :: FieldName(q) in RequiredFields
  {
  }

  /** A typed reading: one real per parameter. */
  datatype Reading = Reading(n: real, p: real, k: real, co2: real,
                             temperature: real, moisture: real, ph: real)
  {
    function Get(q: Param): real {
      match q
      case N => n
      case P => p
      case K => k
      case CO2 => co2
      case Temperature => temperature
      case Moisture => moisture
      case PH => ph
    }

    /** The reading with parameter `q` replaced by `v`. */
    function With(q: Param, v: real): (r: Reading)
      ensures r.Get(q) == v
      ensures forall o: Param :: o != q ==> r.Get(o) == Get(o)
    {
      match q
      case N => this.(n := v)
      case P => this.(p := v)
      case K => this.(k := v)
      case CO2 => this.(co2 := v)
      case Temperature => this.(temperature := v)
      case Moisture => this.(moisture := v)
      case PH => this.(ph := v)
    }
  }

  /** Two readings are equal exactly when they agree on every parameter. */
  lemma ReadingExtensional(a: Reading, b: Reading)
    requires forall q: Param :: a.Get(q) == b.Get(q)
    ensures a == b
  {
    assert a.Get(N) == b.Get(N) && a.Get(P) == b.Get(P) && a.Get(K) == b.Get(K);
    assert a.Get(CO2) == b.Get(CO2) && a.Get(Temperature) == b.Get(Temperature);
    assert a.Get(Moisture) == b.Get(Moisture) && a.Get(PH) == b.Get(PH);
  }

  /**
   * A decoded JSON value as Python holds it. `Text` carries what float()
   * makes of the string (None when float() raises ValueError on it).
   * A JSON boolean is a `Bool`: float() takes it as 1.0 or 0.0, but its
   * str() is 'True' or 'False'.
   */
  datatype RawValue =
    | Num(x: real)
    | Bool(b: bool)
    | Text(parsed: Option<real>)
    | Null
    | Arr(items: seq<RawValue>)
    | Obj(fields: map<string, RawValue>)

  /** The two exceptions float() raises: on a bad string, and on None, a list or a dict. */
  datatype ConversionError = ValueError | TypeError

  /** Python's float() applied to a decoded JSON value. */
  function ToFloat(v: RawValue): (r: Result<real, ConversionError>)
    ensures r.Success? <==> (v.Num? || v.Bool? || (v.Text? && v.parsed.Some?))
    ensures r.Failure? && r.error == ValueError <==> v.Text? && v.parsed.None?
    ensures v.Num? ==> r == Success(v.x)
    ensures v.Bool? ==> r == Success(if v.b then 1.0 else 0.0)
  {
    match v
    case Num(x) => Success(x)
    case Bool(b) => Success(if b then 1.0 else 0.0)
    case Text(parsed) => if parsed.Some? then Success(parsed.value) else Failure(ValueError)
    case _ => Failure(TypeError)
  }

  /** `all(field in data for field in required_fields)` */
  predicate HasAllFields(m: map<string, RawValue>) {
    forall q: Param :: FieldName(q) in m
  }

  /** The first required field whose key is absent, in the listed order. */
  function FirstMissing(m: map<string, RawValue>, ps: seq<Param>): (r: Option<Param>)
    ensures r.None? <==> forall i :: 0 <= i < |ps| ==> FieldName(ps[i]) in m
    ensures r.Some? ==> r.value in ps && FieldName(r.value) !in m
  {
    if |ps| == 0 then None
    else if FieldName(ps[0]) !in m then Some(ps[0])
    else FirstMissing(m, ps[1..])
  }

  /**
   * The exception, if any, raised by converting the fields `ps` in order:
   * the error of the first field float() rejects.
   */
  function FirstConversionError(m: map<string, RawValue>, ps: seq<Param>): (r: Option<ConversionError>)
    requires forall i :: 0 <= i < |ps| ==> FieldName(ps[i]) in m
    ensures r.None? <==> forall i :: 0 <= i < |ps| ==> ToFloat(m[FieldName(ps[i])]).Success?
    ensures r.Some? ==> exists i :: 0 <= i < |ps| && ToFloat(m[FieldName(ps[i])]) == Failure(r.value)
  {
    if |ps| == 0 then None
    else
      match ToFloat(m[FieldName(ps[0])])
      case Failure(e) => Some(e)
      case Success(_) =>
        var rest := FirstConversionError(m, ps[1..]);
        assert forall i :: 1 <= i < |ps| ==> ps[i] == ps[1..][i - 1];
        rest
  }

  /**
   * `{field: float(data[field]) for field in required_fields}`: the typed
   * reading, or the exception of the first field that does not convert.
   */
  function ConvertReading(m: map<string, RawValue>): (r: Result<Reading, ConversionError>)
    requires HasAllFields(m)
    ensures r.Success? <==> forall q: Param :: ToFloat(m[FieldName(q)]).Success?
    ensures r.Success? ==> forall q: Param :: ToFloat(m[FieldName(q)]) == Success(r.value.Get(q))
    ensures r.Failure? ==> exists q: Param :: ToFloat(m[FieldName(q)]) == Failure(r.error)
  {
    match FirstConversionError(m, AllParams)
    case Some(e) =>
      var i :| 0 <= i < |AllParams| && ToFloat(m[FieldName(AllParams[i])]) == Failure(e);
      Failure(e)
    case None =>
      assert forall q: Param :: ToFloat(m[FieldName(q)]).Success? by {
        forall q: Param ensures ToFloat(m[FieldName(q)]).Success? {
          assert AllParams[IndexOf(q)] == q;
        }
      }
      var f := (q: Param) requires FieldName(q) in m && ToFloat(m[FieldName(q)]).Success? =>
        ToFloat(m[FieldName(q)]).value;
      Success(Reading(f(N), f(P), f(K), f(CO2), f(Temperature), f(Moisture), f(PH)))
  }

  /** Position of a parameter in AllParams. */
  function IndexOf(q: Param): (i: nat)
    ensures i < |AllParams| && AllParams[i] == q
  {
    match q
    case N => 0
    case P => 1
    case K => 2
    case CO2 => 3
    case Temperature => 4
    case Moisture => 5
    case PH => 6
  }

  /** The five health statuses, from best to worst. */
  datatype HealthStatus = Excellent | Good | Fair | Poor | Critical

  function StatusName(s: HealthStatus): string {
    match s
    case Excellent => "Excellent"
    case Good => "Good"
    case Fair => "Fair"
    case Poor => "Poor"
    case Critical => "Critical"
  }

  /** 4 for Excellent down to 0 for Critical. */
  function Rank(s: HealthStatus): nat {
    match s
    case Critical => 0
    case Poor => 1
    case Fair => 2
    case Good => 3
    case Excellent => 4
  }

  /**
   * The status chain written out in both scoring paths: >= 75 Excellent,
   * >= 60 Good, >= 45 Fair, >= 30 Poor, otherwise Critical.
   */
  function StatusFor(index: int): HealthStatus {
    if index >= 75 then Excellent
    else if index >= 60 then Good
    else if index >= 45 then Fair
    else if index >= 30 then Poor
    else Critical
  }

  /** A higher index never gives a worse status. */
  lemma StatusForMonotone(i: int, j: int)
    requires i <= j
    ensures Rank(StatusFor(i)) <= Rank(StatusFor(j))
  {
  }

  /** Python's int() on a float: truncation toward zero. */
  function Trunc(x: real): (r: int)
    ensures x >= 0.0 ==> 0 <= r && r as real <= x < r as real + 1.0
    ensures x < 0.0 ==> r <= 0 && r as real - 1.0 < x <= r as real
  {
    if x >= 0.0 then x.Floor else -((-x).Floor)
  }

  /** `max(lo, min(hi, x))` */
  function ClampInt(lo: int, hi: int, x: int): (r: int)
    requires lo <= hi
    ensures lo <= r <= hi
    ensures lo <= x <= hi ==> r == x
  {
    if x < lo then lo else if x > hi then hi else x
  }

  function ClampReal(lo: real, hi: real, x: real): (r: real)
    requires lo <= hi
    ensures lo <= r <= hi
    ensures lo <= x <= hi ==> r == x
    ensures x < lo ==> r == lo
    ensures x > hi ==> r == hi
  {
    if x < lo then lo else if x > hi then hi else x
  }

  /** The seven parameters of a reading as request fields, as numbers. */
  function AsRaw(r: Reading): (m: map<string, RawValue>)
    ensures HasAllFields(m)
    ensures forall q: Param :: m[FieldName(q)] == Num(r.Get(q))
  {
    map["N" := Num(r.n), "P" := Num(r.p), "K" := Num(r.k), "CO2" := Num(r.co2),
        "Temperature" := Num(r.temperature), "Moisture" := Num(r.moisture), "pH" := Num(r.ph)]
  }

  /** Converting a reading that was sent as numbers gives the reading back. */
  lemma ConvertAsRaw(r: Reading)
    ensures ConvertReading(AsRaw(r)) == Success(r)
  {
    var c := ConvertReading(AsRaw(r));
    assert c.Success?;
    ReadingExtensional(c.value, r);
  }
}
