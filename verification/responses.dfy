/**
 * Turning search responses into the records the resolvers return: each
 * listing hit's stored fields become a Measurement, and the aggregate's
 * average and unit buckets become an Aggregate or an error.
 */
module Responses {
  import opened Results
  import opened Errors

  /** A JSON value as stored in a document's `_source`, other than an object. */
  datatype Scalar = Str(s: string) | Num(x: real) | Bool(b: bool) | Null | List(items: seq<Scalar>)

  /** A hit's `_source`: its stored fields by name. */
  type Source = map<string, Scalar>

  /** The fields the Measurement type exposes. */
  const MeasurementFields: set<string> := {"u", "v", "n", "uuid", "timestamp"}

  /** One reading; a field the document lacks resolves to None. */
  datatype Measurement = Measurement(
    u: Option<Scalar>,
    v: Option<Scalar>,
    n: Option<Scalar>,
    uuid: Option<Scalar>,
    timestamp: Option<Scalar>)

  function Lookup(src: Source, key: string): Option<Scalar> {
    if key in src then Some(src[key]) else None
  }

  /** The value a Measurement field resolves to, by field name. */
  function Field(m: Measurement, key: string): Option<Scalar> {
    if key == "u" then m.u
    else if key == "v" then m.v
    else if key == "n" then m.n
    else if key == "uuid" then m.uuid
    else if key == "timestamp" then m.timestamp
    else None
  }

  /** A Measurement over a hit's source: each exposed field reads the stored value of that name. */
  function ToMeasurement(src: Source): (m: Measurement)
    ensures forall k :: k in MeasurementFields ==> Field(m, k) == Lookup(src, k)
  {
    Measurement(Lookup(src, "u"), Lookup(src, "v"), Lookup(src, "n"), Lookup(src, "uuid"), Lookup(src, "timestamp"))
  }

  /** The stored fields a Measurement stands for. */
  function ToSource(m: Measurement): (src: Source)
    ensures src.Keys <= MeasurementFields
    ensures forall k :: k in MeasurementFields ==> Lookup(src, k) == Field(m, k)
  {
    map k | k in MeasurementFields && Field(m, k).Some? :: Field(m, k).value
  }

  /** Every field of a Measurement survives being stored and read back. */
  lemma MeasurementRoundTrip(m: Measurement)
    ensures ToMeasurement(ToSource(m)) == m
  {
    var m' := ToMeasurement(ToSource(m));
    assert Field(m', "u") == Field(m, "u");
    assert Field(m', "v") == Field(m, "v");
    assert Field(m', "n") == Field(m, "n");
    assert Field(m', "uuid") == Field(m, "uuid");
    assert Field(m', "timestamp") == Field(m, "timestamp");
  }

  /**
   * Reading a hit keeps every exposed field it stores, unchanged, and
   * nothing else.
   */
  lemma SourceRoundTrip(src: Source)
    ensures ToSource(ToMeasurement(src)) == map k | k in src && k in MeasurementFields :: src[k]
  {
    var back := ToSource(ToMeasurement(src));
    var kept := map k | k in src && k in MeasurementFields :: src[k];
    forall k | k in MeasurementFields
      ensures Lookup(back, k) == Lookup(kept, k)
    {
    }
    assert back.Keys == kept.Keys;
  }

  /** The listing result: one Measurement per hit, in the engine's order. */
  function MapHits(hits: seq<Source>): (ms: seq<Measurement>)
    ensures |ms| == |hits|
    ensures forall i, k :: 0 <= i < |hits| && k in MeasurementFields ==> Field(ms[i], k) == Lookup(hits[i], k)
  {
    seq(|hits|, i requires 0 <= i < |hits| => ToMeasurement(hits[i]))
  }

  /** The part of an aggregate response the resolver reads. */
  datatype AggResponse = AggResponse(avg: Option<real>, unitKeys: seq<string>)

  datatype Aggregate = Aggregate(avg: Option<real>, unit: Option<string>)

  /**
   * An Aggregate when exactly one unit bucket came back, carrying the
   * average as given and that bucket's key as the unit; otherwise the
   * multiple-units error.
   */
  function MapAggregate(resp: AggResponse): (r: Result<Aggregate, ResolveError>)
    ensures r.Success? <==> |resp.unitKeys| == 1
    ensures r.Failure? ==> r.error == MultipleUnits
    ensures r.Failure? ==> r.error.Message() == "Multiple different units in aggregation!"
    ensures r.Success? ==> r.value.avg == resp.avg && r.value.unit == Some(resp.unitKeys[0])
  {
    if |resp.unitKeys| != 1 then Failure(MultipleUnits)
    else Success(Aggregate(resp.avg, Some(resp.unitKeys[0])))
  }

  /**
   * A `terms` answer over the distinct values `terms`, capped at `cap`
   * buckets: distinct keys drawn from the values, as many as the cap allows.
   */
  predicate IsTermsAnswer(keys: seq<string>, terms: set<string>, cap: nat) {
    && (forall i :: 0 <= i < |keys| ==> keys[i] in terms)
    && (forall i, j :: 0 <= i < j < |keys| ==> keys[i] != keys[j])
    && |keys| == (if |terms| < cap then |terms| else cap)
  }

  /**
   * With a bucket cap of at least two, the aggregate succeeds exactly when
   * the matched documents carry one unit, and then reports that unit.
   */
  lemma OneUnitDecides(resp: AggResponse, units: set<string>, cap: nat)
    requires cap >= 2
    requires IsTermsAnswer(resp.unitKeys, units, cap)
    ensures MapAggregate(resp).Success? <==> |units| == 1
    ensures MapAggregate(resp).Success? ==> units == {MapAggregate(resp).value.unit.value}
  {
    if |units| == 1 {
      var u := resp.unitKeys[0];
      assert u in units;
      assert |units - {u}| == 0;
    }
  }
}
