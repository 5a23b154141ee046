/**
 * Normalisation of the caller's arguments by `resolve_measurements` and
 * `resolve_avgbydate`: the sensor-type allow-list, the amount clamp and the
 * default one-week window ending at the clock's reading `now`.
 */
module Params {
  import opened Results
  import opened Errors
  import opened CivilTime
  import opened Timestamps

  /** The sensor types a caller may ask for. */
  const AllowedTypes: seq<string> := ["temp", "humidity", "pressure", "pm1", "pm2_5", "pm10", "no2"]

  /** The amount used when the caller gives none, or one out of range. */
  const DefaultAmount: int := 10
  const MaxAmount: int := 100

  /** Length in days of the window used when a bound is missing. */
  const WindowDays: nat := 7

  /** What a path does with a sensor type outside the allow-list. */
  datatype TypePolicy =
      /** Drop it: no type narrows the search. */
    | DropUnknown
      /** Replace it by a fixed type and carry on. */
    | Substitute(fallback: string)

  const ListingTypePolicy: TypePolicy := DropUnknown
  const AggregateTypePolicy: TypePolicy := Substitute("temp")

  /** Python's falsiness of an optional string argument: None or "". */
  predicate Blank(s: Option<string>) {
    s.None? || s.value == ""
  }

  /** The arguments of the `measurements` field; a None `amount` means it was omitted. */
  datatype ListingArgs = ListingArgs(
    sensorName: Option<string>,
    amount: Option<int>,
    sensorType: Option<string>,
    fromDate: Option<string>,
    toDate: Option<string>)

  /** The arguments of the `avgbydate` field. */
  datatype AggregateArgs = AggregateArgs(
    sensorType: Option<string>,
    fromDate: Option<string>,
    toDate: Option<string>)

  /** The timestamp bounds of a search, as the strings sent to the engine. */
  datatype Window = Window(from: string, to: string)

  datatype ListingParams = ListingParams(
    sensorName: Option<string>,
    amount: int,
    sensorType: Option<string>,
    window: Window)

  datatype AggregateParams = AggregateParams(sensorType: string, window: Window)

  /** Checks a sensor type against the allow-list under a path's policy. */
  function NormaliseType(policy: TypePolicy, t: Option<string>): (r: Option<string>)
    ensures t.Some? && t.value in AllowedTypes ==> r == t
    ensures !(t.Some? && t.value in AllowedTypes) && policy.DropUnknown? ==> r.None?
    ensures !(t.Some? && t.value in AllowedTypes) && policy.Substitute? ==> r == Some(policy.fallback)
  {
    if t.Some? && t.value in AllowedTypes then t
    else if policy.DropUnknown? then None
    else Some(policy.fallback)
  }

  /** Keeps an amount within [0, MaxAmount]; any other becomes the default. */
  function ClampAmount(a: int): (r: int)
    ensures 0 <= r <= MaxAmount
    ensures 0 <= a <= MaxAmount ==> r == a
    ensures (a < 0 || a > MaxAmount) ==> r == DefaultAmount
  {
    if a < 0 || a > MaxAmount then DefaultAmount else a
  }

  /**
   * Fills in missing window bounds from the clock: the end defaults to
   * `now`, the start to `now` minus WindowDays days, both written as
   * `%Y-%m-%dT%H:%M:%S`. Supplied bounds are kept verbatim.
   */
  function NormaliseWindow(from: Option<string>, to: Option<string>, now: Instant): (r: Result<Window, ResolveError>)
    ensures r.Failure? <==> Blank(from) && Ordinal(now) <= WindowDays
    ensures r.Failure? ==> r.error == DateOutOfRange
    ensures r.Success? && !Blank(from) ==> r.value.from == from.value
    ensures r.Success? && !Blank(to) ==> r.value.to == to.value
    ensures r.Success? && Blank(to) ==> Parse(r.value.to) == Some(now)
    ensures r.Success? && Blank(from) ==>
      && Parse(r.value.from).Some?
      && Ordinal(Parse(r.value.from).value) == Ordinal(now) - WindowDays
      && SameClock(Parse(r.value.from).value, now)
  {
    var start :- if Blank(from) then DefaultStart(now) else Success(from.value);
    var end := if Blank(to) then DefaultEnd(now) else to.value;
    Success(Window(start, end))
  }

  /** The start bound used when the caller gives none: `now` minus WindowDays days. */
  function DefaultStart(now: Instant): (r: Result<string, ResolveError>)
    ensures r.Failure? <==> Ordinal(now) <= WindowDays
    ensures r.Failure? ==> r.error == DateOutOfRange && r.error.Message() == "date value out of range"
    ensures r.Success? ==>
      && Parse(r.value).Some?
      && Ordinal(Parse(r.value).value) == Ordinal(now) - WindowDays
      && SameClock(Parse(r.value).value, now)
  {
    match DaysBefore(now, WindowDays)
    case None => Failure(DateOutOfRange)
    case Some(w) =>
      FormatParse(w);
      Success(Format(w))
  }

  /** The end bound used when the caller gives none: `now` itself. */
  function DefaultEnd(now: Instant): (r: string)
    ensures Parse(r) == Some(now)
  {
    FormatParse(now);
    Format(now)
  }

  /** The listing path's arguments after normalisation. */
  function NormaliseListing(args: ListingArgs, now: Instant): (r: Result<ListingParams, ResolveError>)
    ensures r.Failure? <==> NormaliseWindow(args.fromDate, args.toDate, now).Failure?
    ensures r.Success? ==>
      && r.value.sensorName == args.sensorName
      && r.value.amount == ClampAmount(args.amount.GetOr(DefaultAmount))
      && r.value.sensorType == NormaliseType(ListingTypePolicy, args.sensorType)
      && r.value.window == NormaliseWindow(args.fromDate, args.toDate, now).value
  {
    var window :- NormaliseWindow(args.fromDate, args.toDate, now);
    Success(ListingParams(
      args.sensorName,
      ClampAmount(args.amount.GetOr(DefaultAmount)),
      NormaliseType(ListingTypePolicy, args.sensorType),
      window))
  }

  /** The aggregate path's arguments after normalisation. */
  function NormaliseAggregate(args: AggregateArgs, now: Instant): (r: Result<AggregateParams, ResolveError>)
    ensures r.Failure? <==> NormaliseWindow(args.fromDate, args.toDate, now).Failure?
    ensures r.Success? ==>
      && Some(r.value.sensorType) == NormaliseType(AggregateTypePolicy, args.sensorType)
      && r.value.window == NormaliseWindow(args.fromDate, args.toDate, now).value
  {
    var window :- NormaliseWindow(args.fromDate, args.toDate, now);
    var t := NormaliseType(AggregateTypePolicy, args.sensorType);
    Success(AggregateParams(t.value, window))
  }

  /**
   * After listing normalisation the type is absent or allowed; an allowed
   * type passes through unchanged and any other is dropped.
   */
  lemma ListingTypeFilter(args: ListingArgs, now: Instant)
    requires NormaliseListing(args, now).Success?
    ensures var t := NormaliseListing(args, now).value.sensorType;
      && (t.None? || t.value in AllowedTypes)
      && (t.Some? <==> args.sensorType.Some? && args.sensorType.value in AllowedTypes)
      && (t.Some? ==> t == args.sensorType)
  {
  }

  /**
   * After aggregate normalisation the type is always allowed: an allowed
   * type passes through and any other becomes "temp" without an error.
   */
  lemma AggregateTypeFallback(args: AggregateArgs, now: Instant)
    requires NormaliseAggregate(args, now).Success?
    ensures var t := NormaliseAggregate(args, now).value.sensorType;
      && t in AllowedTypes
      && (args.sensorType.Some? && args.sensorType.value in AllowedTypes ==> t == args.sensorType.value)
      && (!(args.sensorType.Some? && args.sensorType.value in AllowedTypes) ==> t == "temp")
  {
  }

  /** Only a missing start bound can make normalisation fail; the type and amount never do. */
  lemma NormalisationFailsOnlyOnWindow(args: ListingArgs, now: Instant)
    ensures NormaliseListing(args, now).Failure? <==> Blank(args.fromDate) && Ordinal(now) <= WindowDays
    ensures NormaliseAggregate(AggregateArgs(args.sensorType, args.fromDate, args.toDate), now).Failure?
        <==> NormaliseListing(args, now).Failure?
  {
  }

  /** With neither bound given, the window is written from `now` WindowDays days back and `now`. */
  lemma DefaultWindowBounds(now: Instant)
    requires Ordinal(now) > WindowDays
    ensures NormaliseWindow(None, None, now)
      == Success(Window(Format(DaysBefore(now, WindowDays).value), Format(now)))
  {
  }

  /**
   * The default window runs from the same time of day WindowDays days
   * before `now` up to `now` itself, and is never empty: a written
   * date-time lies between its bounds, in the string order a range filter
   * uses, exactly when it lies between them in time.
   */
  lemma DefaultWindowSpan(now: Instant, t: Instant)
    requires Ordinal(now) > WindowDays
    ensures var start := DaysBefore(now, WindowDays).value;
      var w := NormaliseWindow(None, None, now).value;
      && (LexLe(w.from, Format(t)) && LexLe(Format(t), w.to) <==> NotAfter(start, t) && NotAfter(t, now))
      && NotAfter(start, now) && start != now
  {
    var start := DaysBefore(now, WindowDays).value;
    DefaultWindowBounds(now);
    FormatOrder(start, t);
    FormatOrder(t, now);
    DaysBeforeIsEarlier(now, WindowDays);
  }
}
