/**
 * The search requests the two resolvers send: the listing query of
 * `resolve_measurements` and the aggregate query of `resolve_avgbydate`,
 * with what their filters select from the indexed documents.
 */
module Queries {
  import opened Results
  import opened Timestamps
  import opened Params
  import opened Patterns

  /** Both paths search every daily partition. */
  const IndexPattern: string := "measurements-*"

  const NameKeywordField: string := "n.keyword"
  const NameField: string := "n"
  const TimestampField: string := "timestamp"
  const ValueField: string := "v"
  const UnitKeywordField: string := "u.keyword"

  /** The `terms` size the aggregate query sends, verbatim: a string. */
  const UnitBucketSize: string := "2"

  /** Unit buckets the engine returns at most, reading that string as a number: enough to tell one unit from several. */
  const UnitBucketCap: nat := Number(UnitBucketSize)

  /** The `_source` value the aggregate query sends, verbatim. */
  const SourceSpec: string := "false"

  /** The aggregate response is cut down to this path. */
  const AggregationsPath: string := "aggregations"

  const AvgName: string := "avg"
  const UnitsName: string := "units"

  /** One entry of a `bool` query's `filter` list. */
  datatype Filter =
    | Wildcard(field: string, pattern: string)
      /** Inclusive bounds, as the legacy `from`/`to` keys give them. */
    | Range(field: string, from: string, to: string)

  datatype Aggregation =
    | Avg(field: string)
    | Terms(field: string, size: string)

  datatype ListingBody = ListingBody(filters: seq<Filter>, size: int)

  /** A listing search; without a body the engine returns its default page of every document. */
  datatype ListingRequest = ListingRequest(index: string, body: Option<ListingBody>)

  datatype AggregateRequest = AggregateRequest(
    index: string,
    filters: seq<Filter>,
    source: string,
    aggs: map<string, Aggregation>,
    filterPath: string)

  /**
   * The name pattern of the listing query: the sensor name, then `*`, then
   * the sensor type when one survived normalisation.
   */
  function NamePattern(name: string, sensorType: Option<string>): (p: string)
    ensures StartsWith(p, name) && |p| > |name| && p[|name|] == '*'
    ensures sensorType.Some? ==> p[|name| + 1..] == sensorType.value
    ensures sensorType.None? ==> |p| == |name| + 1
  {
    match sensorType
    case Some(t) => name + "*" + t
    case None => name + "*"
  }

  /** The listing request for normalised parameters. */
  function BuildListing(p: ListingParams): (r: ListingRequest)
    ensures r.index == IndexPattern
    ensures r.body.None? <==> Blank(p.sensorName)
    ensures r.body.Some? ==>
      && r.body.value.size == p.amount
      && r.body.value.filters == [
           Wildcard(NameKeywordField, NamePattern(p.sensorName.value, p.sensorType)),
           Range(TimestampField, p.window.from, p.window.to)]
  {
    if Blank(p.sensorName) then ListingRequest(IndexPattern, None)
    else
      var name := NamePattern(p.sensorName.value, p.sensorType);
      ListingRequest(IndexPattern, Some(ListingBody(
        [Wildcard(NameKeywordField, name), Range(TimestampField, p.window.from, p.window.to)],
        p.amount)))
  }

  /** The aggregate request for normalised parameters. */
  function BuildAggregate(p: AggregateParams): (r: AggregateRequest)
    ensures r.index == IndexPattern
    ensures r.filters == [Wildcard(NameField, p.sensorType), Range(TimestampField, p.window.from, p.window.to)]
    ensures r.source == SourceSpec && r.filterPath == AggregationsPath
    ensures r.aggs.Keys == {AvgName, UnitsName}
    ensures r.aggs[AvgName] == Avg(ValueField)
    ensures r.aggs[UnitsName] == Terms(UnitKeywordField, UnitBucketSize)
  {
    AggregateRequest(
      IndexPattern,
      [Wildcard(NameField, p.sensorType), Range(TimestampField, p.window.from, p.window.to)],
      SourceSpec,
      map[AvgName := Avg(ValueField), UnitsName := Terms(UnitKeywordField, UnitBucketSize)],
      AggregationsPath)
  }

  // ---------------------------------------------------------------------
  // What the filters select

  /** An indexed document: the terms each field was indexed under. */
  type Doc = map<string, set<string>>

  predicate Holds(f: Filter, doc: Doc) {
    match f
    case Wildcard(field, p) => field in doc && exists v :: v in doc[field] && Match(p, v)
    case Range(field, lo, hi) => field in doc && exists v :: v in doc[field] && LexLe(lo, v) && LexLe(v, hi)
  }

  /** A `bool` filter list: every filter must hold. */
  predicate Selects(filters: seq<Filter>, doc: Doc) {
    forall i :: 0 <= i < |filters| ==> Holds(filters[i], doc)
  }

  predicate ListingSelects(r: ListingRequest, doc: Doc) {
    r.body.None? || Selects(r.body.value.filters, doc)
  }

  /** The document carries a timestamp inside the window, bounds included. */
  predicate InWindow(doc: Doc, w: Window) {
    TimestampField in doc && exists v :: v in doc[TimestampField] && LexLe(w.from, v) && LexLe(v, w.to)
  }

  /** A sensor name below `name`, ending in the sensor type when one is given. */
  predicate NameFits(v: string, name: string, sensorType: Option<string>) {
    StartsWith(v, name) && (sensorType.Some? ==> EndsWith(v[|name|..], sensorType.value))
  }

  /** No allowed sensor type contains a wildcard character. */
  lemma AllowedTypesLiteral(t: string)
    requires t in AllowedTypes
    ensures IsLiteral(t)
  {
  }

  /**
   * For a sensor name free of wildcard characters, the name pattern matches
   * exactly the names that start with it and, when a type is kept, end with
   * that type after the prefix.
   */
  lemma NamePatternMatches(name: string, sensorType: Option<string>, v: string)
    requires IsLiteral(name)
    requires sensorType.Some? ==> IsLiteral(sensorType.value)
    ensures Match(NamePattern(name, sensorType), v) <==> NameFits(v, name, sensorType)
  {
    var t := sensorType.GetOr("");
    assert NamePattern(name, sensorType) == name + ("*" + t);
    LiteralThen(name, "*" + t, v);
    if StartsWith(v, name) {
      StarThenLiteral(t, v[|name|..]);
    }
  }

  /**
   * A listing request with a sensor name selects exactly the documents whose
   * name keyword fits the name and type and whose timestamp lies in the window.
   */
  lemma ListingSelection(p: ListingParams, doc: Doc)
    requires !Blank(p.sensorName) && IsLiteral(p.sensorName.value)
    requires p.sensorType.None? || p.sensorType.value in AllowedTypes
    ensures ListingSelects(BuildListing(p), doc) <==>
      && NameKeywordField in doc
      && (exists v :: v in doc[NameKeywordField] && NameFits(v, p.sensorName.value, p.sensorType))
      && InWindow(doc, p.window)
  {
    if p.sensorType.Some? {
      AllowedTypesLiteral(p.sensorType.value);
    }
    var filters := BuildListing(p).body.value.filters;
    forall v
      ensures Match(NamePattern(p.sensorName.value, p.sensorType), v) <==> NameFits(v, p.sensorName.value, p.sensorType)
    {
      NamePatternMatches(p.sensorName.value, p.sensorType, v);
    }
    assert Selects(filters, doc) <==> Holds(filters[0], doc) && Holds(filters[1], doc);
  }

  /** Without a sensor name the listing request filters nothing. */
  lemma ListingWithoutName(p: ListingParams, doc: Doc)
    requires Blank(p.sensorName)
    ensures ListingSelects(BuildListing(p), doc)
  {
  }

  /**
   * The aggregate request's type filter has no wildcard: it selects the
   * documents with the type itself among the terms of `n`, in the window.
   */
  lemma AggregateSelection(p: AggregateParams, doc: Doc)
    requires p.sensorType in AllowedTypes
    ensures Selects(BuildAggregate(p).filters, doc) <==>
      NameField in doc && p.sensorType in doc[NameField] && InWindow(doc, p.window)
  {
    AllowedTypesLiteral(p.sensorType);
    var filters := BuildAggregate(p).filters;
    forall v
      ensures Match(p.sensorType, v) <==> v == p.sensorType
    {
      LiteralMatch(p.sensorType, v);
    }
    assert Selects(filters, doc) <==> Holds(filters[0], doc) && Holds(filters[1], doc);
  }
}
