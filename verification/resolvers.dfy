/**
 * The two resolvers end to end: `resolve_measurements` and
 * `resolve_avgbydate`. The clock reading `now` and the search engine
 * (`search`) are parameters.
 */
module Resolvers {
  import opened Results
  import opened Errors
  import opened CivilTime
  import opened Timestamps
  import opened Params
  import opened Queries
  import opened Responses

  /** The number of hits the engine returns for a search without a body. */
  const EngineDefaultSize: int := 10

  /** The most hits a listing request lets the engine return. */
  function RequestedSize(r: ListingRequest): int {
    if r.body.Some? then r.body.value.size else EngineDefaultSize
  }

  /** The listing request `resolve_measurements` sends, or the error it raises first. */
  function PlanListing(args: ListingArgs, now: Instant): (r: Result<ListingRequest, ResolveError>)
    ensures r.Failure? <==> Blank(args.fromDate) && Ordinal(now) <= WindowDays
    ensures r.Success? ==> r.value.index == IndexPattern && 0 <= RequestedSize(r.value) <= MaxAmount
    ensures r.Success? ==> (r.value.body.None? <==> Blank(args.sensorName))
  {
    var p :- NormaliseListing(args, now);
    Success(BuildListing(p))
  }

  /** `resolve_measurements`: one search, then one Measurement per hit. */
  function ResolveMeasurements(args: ListingArgs, now: Instant, search: ListingRequest -> seq<Source>)
    : (r: Result<seq<Measurement>, ResolveError>)
    ensures r.Failure? <==> PlanListing(args, now).Failure?
    ensures r.Success? ==>
      var hits := search(PlanListing(args, now).value);
      && |r.value| == |hits|
      && forall i, k :: 0 <= i < |hits| && k in MeasurementFields ==> Field(r.value[i], k) == Lookup(hits[i], k)
  {
    var request :- PlanListing(args, now);
    Success(MapHits(search(request)))
  }

  /**
   * When the engine honours the requested size, a listing never returns
   * more than MaxAmount measurements, with or without a sensor name.
   */
  lemma ListingSizeCap(args: ListingArgs, now: Instant, search: ListingRequest -> seq<Source>)
    requires forall r :: |search(r)| <= RequestedSize(r)
    ensures var res := ResolveMeasurements(args, now, search);
      res.Success? ==> |res.value| <= MaxAmount
  {
  }

  /** The aggregate request `resolve_avgbydate` sends, or the error it raises first. */
  function PlanAggregate(args: AggregateArgs, now: Instant): (r: Result<AggregateRequest, ResolveError>)
    ensures r.Failure? <==> Blank(args.fromDate) && Ordinal(now) <= WindowDays
    ensures r.Success? ==> r.value.index == IndexPattern
    ensures r.Success? ==> |r.value.filters| == 2 && r.value.filters[0].Wildcard? && r.value.filters[0].pattern in AllowedTypes
  {
    var p :- NormaliseAggregate(args, now);
    Success(BuildAggregate(p))
  }

  /** `resolve_avgbydate`: one aggregation search, then the unit check. */
  function ResolveAvgByDate(args: AggregateArgs, now: Instant, search: AggregateRequest -> AggResponse)
    : (r: Result<Aggregate, ResolveError>)
    ensures PlanAggregate(args, now).Failure? ==> r.Failure? && r.error == DateOutOfRange
    ensures PlanAggregate(args, now).Success? ==>
      var resp := search(PlanAggregate(args, now).value);
      && (r.Success? <==> |resp.unitKeys| == 1)
      && (r.Failure? ==> r.error == MultipleUnits)
      && (r.Success? ==> r.value.avg == resp.avg && r.value.unit == Some(resp.unitKeys[0]))
  {
    var request :- PlanAggregate(args, now);
    MapAggregate(search(request))
  }

  /** The units indexed on the documents of `corpus` that `filters` select. */
  function MatchedUnits(filters: seq<Filter>, corpus: seq<Doc>): set<string> {
    set d, u | d in corpus && Selects(filters, d) && UnitKeywordField in d && u in d[UnitKeywordField] :: u
  }

  /** The units indexed on the documents of type `t` whose timestamp lies in `w`. */
  function TypeUnits(t: string, w: Window, corpus: seq<Doc>): set<string> {
    set d, u | d in corpus && NameField in d && t in d[NameField] && InWindow(d, w)
                 && UnitKeywordField in d && u in d[UnitKeywordField] :: u
  }

  /**
   * Against an engine whose `terms` answer is faithful to `corpus`, the
   * aggregate succeeds exactly when the documents of the normalised type in
   * the window carry a single unit, and then reports that unit.
   */
  lemma AvgByDateUnitCheck(args: AggregateArgs, now: Instant, search: AggregateRequest -> AggResponse, corpus: seq<Doc>)
    requires PlanAggregate(args, now).Success?
    requires var req := PlanAggregate(args, now).value;
      IsTermsAnswer(search(req).unitKeys, MatchedUnits(req.filters, corpus), UnitBucketCap)
    ensures var p := NormaliseAggregate(args, now).value;
      var units := TypeUnits(p.sensorType, p.window, corpus);
      var res := ResolveAvgByDate(args, now, search);
      && (res.Success? <==> |units| == 1)
      && (res.Success? ==> units == {res.value.unit.value})
  {
    var p := NormaliseAggregate(args, now).value;
    var req := PlanAggregate(args, now).value;
    AggregateTypeFallback(args, now);
    forall d | d in corpus
      ensures Selects(req.filters, d) <==> NameField in d && p.sensorType in d[NameField] && InWindow(d, p.window)
    {
      AggregateSelection(p, d);
    }
    assert MatchedUnits(req.filters, corpus) == TypeUnits(p.sensorType, p.window, corpus);
    OneUnitDecides(search(req), MatchedUnits(req.filters, corpus), UnitBucketCap);
  }

  // ---------------------------------------------------------------------
  // Worked examples

  /** A same-day listing for one sensor's temperature readings. */
  lemma ListingExample(now: Instant)
    ensures PlanListing(
      ListingArgs(Some("urn:dev:mac:fcc23d000000050f"), Some(5), Some("temp"),
                  Some("2019-03-28T10:00:00"), Some("2019-03-28T10:10:00")),
      now)
      == Success(ListingRequest("measurements-*", Some(ListingBody(
           [Wildcard("n.keyword", "urn:dev:mac:fcc23d000000050f*temp"),
            Range("timestamp", "2019-03-28T10:00:00", "2019-03-28T10:10:00")],
           5))))
  {
    var name := "urn:dev:mac:fcc23d000000050f";
    assert "temp" in AllowedTypes;
    assert NamePattern(name, Some("temp")) == "urn:dev:mac:fcc23d000000050f*temp";
  }

  /** An unknown type and out-of-range amount on the listing path: the type is dropped, the amount reset. */
  lemma ListingFallbackExample(now: Instant)
    ensures PlanListing(
      ListingArgs(Some("urn:dev:mac:fcc23d000000050f"), Some(500), Some("bogus"),
                  Some("2019-03-28T10:00:00"), Some("2019-03-28T10:10:00")),
      now)
      == Success(ListingRequest("measurements-*", Some(ListingBody(
           [Wildcard("n.keyword", "urn:dev:mac:fcc23d000000050f*"),
            Range("timestamp", "2019-03-28T10:00:00", "2019-03-28T10:10:00")],
           10))))
  {
    var name := "urn:dev:mac:fcc23d000000050f";
    ExampleUnknownType();
    assert NamePattern(name, None) == "urn:dev:mac:fcc23d000000050f*";
  }

  /**
   * An unknown type on the aggregate path becomes "temp", and missing bounds
   * span the week up to the clock reading, here across a year boundary.
   */
  lemma AggregateFallbackExample(now: Instant)
    requires now == DateTime(2020, 1, 3, 8, 15, 30)
    ensures PlanAggregate(AggregateArgs(Some("bogus"), None, None), now)
      == Success(AggregateRequest(
           "measurements-*",
           [Wildcard("n", "temp"), Range("timestamp", "2019-12-27T08:15:30", "2020-01-03T08:15:30")],
           "false",
           map["avg" := Avg("v"), "units" := Terms("u.keyword", "2")],
           "aggregations"))
  {
    ExampleWindow(now);
    ExampleUnknownType();
  }

  /** "bogus" is not an allowed type: the listing path drops it, the aggregate path substitutes "temp". */
  lemma ExampleUnknownType()
    ensures NormaliseType(ListingTypePolicy, Some("bogus")) == None
    ensures NormaliseType(AggregateTypePolicy, Some("bogus")) == Some("temp")
  {
    assert "bogus" !in AllowedTypes;
  }

  /** The default window for the clock reading 2020-01-03T08:15:30. */
  lemma ExampleWindow(now: Instant)
    requires now == DateTime(2020, 1, 3, 8, 15, 30)
    ensures NormaliseWindow(None, None, now)
      == Success(Window("2019-12-27T08:15:30", "2020-01-03T08:15:30"))
  {
    ExampleDefaults();
  }

  /** The default bounds for the clock reading 2020-01-03T08:15:30. */
  lemma ExampleDefaults()
    ensures DefaultStart(DateTime(2020, 1, 3, 8, 15, 30)) == Success("2019-12-27T08:15:30")
    ensures DefaultEnd(DateTime(2020, 1, 3, 8, 15, 30)) == "2020-01-03T08:15:30"
  {
    ExampleWeekBefore();
    FormatExamples();
  }

  /** Seven days before 2020-01-03 crosses into December 2019. */
  lemma ExampleWeekBefore()
    ensures DaysBefore(DateTime(2020, 1, 3, 8, 15, 30), WindowDays) == Some(DateTime(2019, 12, 27, 8, 15, 30))
  {
    var now: Instant := DateTime(2020, 1, 3, 8, 15, 30);
    assert PrevDay(now) == Some(DateTime(2020, 1, 2, 8, 15, 30));
    assert PrevDay(DateTime(2020, 1, 2, 8, 15, 30)) == Some(DateTime(2020, 1, 1, 8, 15, 30));
    assert PrevDay(DateTime(2020, 1, 1, 8, 15, 30)) == Some(DateTime(2019, 12, 31, 8, 15, 30));
    assert PrevDay(DateTime(2019, 12, 31, 8, 15, 30)) == Some(DateTime(2019, 12, 30, 8, 15, 30));
    assert PrevDay(DateTime(2019, 12, 30, 8, 15, 30)) == Some(DateTime(2019, 12, 29, 8, 15, 30));
    assert PrevDay(DateTime(2019, 12, 29, 8, 15, 30)) == Some(DateTime(2019, 12, 28, 8, 15, 30));
    assert PrevDay(DateTime(2019, 12, 28, 8, 15, 30)) == Some(DateTime(2019, 12, 27, 8, 15, 30));
  }
}
