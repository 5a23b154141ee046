# Query resolution for the GreenIoT measurement API

This project models the query-resolution layer of a GraphQL service. The service
serves sensor telemetry stored in Elasticsearch, searched through the single index
pattern `measurements-*`. It has two resolvers:

- `measurements` (`resolve_measurements`) lists raw readings. The caller can filter
  them by sensor name, sensor type and a time window, and can cap how many come back.
- `avgbydate` (`resolve_avgbydate`) returns the average value of one sensor type over
  a time window, together with the unit of measurement.

The model covers each resolver's three stages as pure functions over immutable records:

1. **Normalisation** (module `Params`)
   - The sensor type is checked against a fixed allow-list. The listing path drops a
     rejected type. The aggregate path replaces it with `temp`. Each path's choice is a
     named policy value.
   - An `amount` outside [0, 100] is reset to 10.
   - A missing or empty window bound is filled in from the clock reading `now`: the end
     becomes `now`, the start becomes `now` minus 7 days. Both are written as
     `%Y-%m-%dT%H:%M:%S`.
   - Modules `CivilTime` and `Timestamps` model that day arithmetic (Python's proleptic
     Gregorian `toordinal`) and that text layout, with a reader as their partner.
2. **Query construction** (module `Queries`). This builds the exact request each path
   sends, as data:
   - the listing request: a wildcard filter on `n.keyword`, a timestamp range and a size;
   - the aggregate request: a wildcard filter on `n`, a timestamp range, `_source`, an
     `avg` on `v` and a `terms` on `u.keyword` with 2 buckets.

   The filters are also given a meaning over indexed documents, so the lemmas can say
   which documents each request selects. Module `Patterns` gives the search engine's
   wildcard language: `*`, `?` and the backslash escape.
3. **Response mapping** (module `Responses`)
   - Each listing hit's stored fields become a `Measurement` record with optional fields.
   - The aggregate's average and unit buckets become an `Aggregate`, or the error
     "Multiple different units in aggregation!" when the bucket count is not exactly one.

Module `Resolvers` composes the stages into the two resolvers. The search engine is a
function parameter (`search`), and so is the clock reading (`now`). The module also
holds the end-to-end lemmas and worked examples. `Results` holds the `Option` and
`Result` wrappers, and `Errors` holds the two errors a call can raise.

On these points the model follows `schema.py`:

- Both paths always search the index pattern `measurements-*`. Nothing in the code
  picks an index by date.
- Dates the caller supplies are passed through without format validation.
- An aggregate with zero unit buckets fails with the multiple-units error, just as one
  with two buckets does. It does not return an aggregate without a unit.
- The amount bound is 100.
- The listing request carries no sort.

## Model

| member | source | states |
|---|---|---|
| CivilTime.PrevDay | schema.py:71 | one day back keeps the time of day and lowers the ordinal by exactly one; it is absent exactly at 0001-01-01 |
| CivilTime.DaysBefore | schema.py:71 | `now - timedelta(days=n)` keeps the time of day and lowers the ordinal by exactly n; it fails (OverflowError) exactly when the result would precede 0001-01-01 |
| CivilTime.OrdinalOrder | schema.py:71 | one calendar day comes before another exactly when its ordinal is smaller, and two date-times fall on the same day exactly when their ordinals are equal |
| CivilTime.DaysBeforeIsEarlier | schema.py:71 | subtracting a positive number of days gives a strictly earlier date-time |
| CivilTime.OrdinalInjective | schema.py:71 | distinct calendar days have distinct ordinals, so the date DaysBefore returns is the unique one Python's day arithmetic yields |
| Timestamps.Format | schema.py:71-73 | `strftime('%Y-%m-%dT%H:%M:%S')` writes four-digit year and two-digit zero-padded fields in the `dddd-dd-ddTdd:dd:dd` layout |
| Timestamps.Parse | schema.py:71-73 | a string the reader accepts is exactly the formatting of the date-time it returns |
| Timestamps.FormatParse | schema.py:71-73 | reading back a formatted date-time gives the same date-time (round trip) |
| Timestamps.Pad2Order | schema.py:71-73 | two-digit zero padding (`%m`, `%d`, `%H`, `%M`, `%S`) keeps numeric order and distinctness |
| Timestamps.Pad4Order | schema.py:71-73 | four-digit zero padding (`%Y`) keeps numeric order and distinctness |
| Timestamps.LexLeAppend | schema.py:84-90 | strings compared character by character: equal-length leading parts decide unless equal, and then the rest decides |
| Timestamps.FormatOrder | schema.py:84-90 | comparing two written date-times character by character, as the range filter's `from`/`to` bounds are compared, agrees exactly with their order in time |
| Timestamps.FormatExamples | schema.py:71-73 | two concrete readings written out with zero padding |
| Params.NormaliseType | schema.py:63-66 | an allowed type passes through unchanged; any other type, or none, is dropped under the listing policy and replaced by the fallback under the substitution policy |
| Params.ClampAmount | schema.py:67-68 | the effective amount lies in [0, 100]; an amount inside that range is kept and any amount below 0 or above 100 becomes exactly 10 |
| Params.NormaliseWindow | schema.py:69-73 | a non-empty bound is kept verbatim; a missing end reads back as `now`; a missing start reads back as `now` seven days earlier at the same time; only a missing start can fail |
| Params.DefaultStart | schema.py:70-71 | the default start reads back as the date-time seven days before `now`; it fails with Python's "date value out of range" exactly when that precedes 0001-01-01 |
| Params.DefaultEnd | schema.py:72-73 | the default end reads back as `now` |
| Params.DefaultWindowBounds | schema.py:69-73 | with neither bound given, the window is the written date-time seven days before `now` and the written `now` |
| Params.DefaultWindowSpan | schema.py:109-120 | the default window is never empty; a written date-time passes its range filter exactly when it lies between `now` minus seven days and `now` in time, bounds included |
| Params.NormaliseListing | schema.py:60-73 | the listing arguments get the listing type policy, the clamped amount (default 10 when omitted) and the normalised window; the sensor name is untouched |
| Params.NormaliseAggregate | schema.py:103-113 | the aggregate arguments get the substitution type policy and the normalised window |
| Params.ListingTypeFilter | schema.py:63-66 | after listing normalisation the type is absent or allowed; it is present exactly when the caller gave an allowed type, and then it is unchanged |
| Params.AggregateTypeFallback | schema.py:105-108 | after aggregate normalisation the type is always allowed: the caller's allowed type, or else `temp`, with no error |
| Params.NormalisationFailsOnlyOnWindow | schema.py:69-71 | either path fails only when the start bound is missing and the clock is within seven days of 0001-01-01; type and amount never cause an error |
| Queries.NamePattern | schema.py:74-78 | the pattern starts with the sensor name, followed by `*`, followed by the surviving sensor type or by nothing |
| Queries.NamePatternMatches | schema.py:74-78 | for a name without wildcard characters, the pattern matches exactly the names that start with the sensor name and, when a type survived, end with that type after the prefix |
| Queries.AllowedTypesLiteral | schema.py:63 | no allowed type contains a wildcard character |
| Queries.BuildListing | schema.py:74-97 | the listing request targets `measurements-*`; it has no body exactly when the sensor name is missing or empty; otherwise its two filters are a wildcard on `n.keyword` and a range on `timestamp` over the window, and its size is the amount |
| Queries.ListingSelection | schema.py:79-97 | with a sensor name, the listing request selects exactly the documents whose `n.keyword` fits the name and type and whose timestamp lies in the window, bounds included |
| Queries.ListingWithoutName | schema.py:98-99 | without a sensor name the listing request filters nothing |
| Queries.BuildAggregate | schema.py:115-130 | the aggregate request targets `measurements-*`; it filters by a wildcard on `n` equal to the type alone and a timestamp range over the window; it sends `_source: "false"`, an `avg` on `v`, a `terms` on `u.keyword` of size `"2"` (a string, as sent), and keeps only the aggregations |
| Queries.AggregateSelection | schema.py:115-123 | the aggregate request selects exactly the documents with the type itself among the terms of `n` and a timestamp in the window |
| Responses.ToMeasurement | schema.py:101 | every Measurement field reads the hit's stored value of that name, and reads nothing when the hit lacks it |
| Responses.MeasurementRoundTrip | schema.py:101 | a Measurement stored as a hit and read back is unchanged |
| Responses.SourceRoundTrip | schema.py:101 | reading a hit keeps every exposed field it stores, unchanged, and drops every other field |
| Responses.MapHits | schema.py:101 | one Measurement per hit, in the engine's order, each field copied from its hit |
| Responses.MapAggregate | schema.py:131-137 | success exactly when there is one unit bucket, carrying the average as given and that bucket's key as the unit; zero buckets or two or more give the error "Multiple different units in aggregation!" |
| Responses.OneUnitDecides | schema.py:127-136 | with a bucket cap of at least 2, the aggregate succeeds exactly when the matched documents carry one distinct unit, and it reports that unit |
| Resolvers.PlanListing | schema.py:60-96 | the listing request targets `measurements-*`, asks for between 0 and 100 hits, has a body exactly when a sensor name is given, and fails only on the window |
| Resolvers.ResolveMeasurements | schema.py:60-101 | one search of the planned request, then one Measurement per hit with every field copied |
| Resolvers.ListingSizeCap | schema.py:67-101 | when the engine honours the requested size, a listing returns at most 100 measurements, with or without a sensor name |
| Resolvers.PlanAggregate | schema.py:103-129 | the aggregate request targets `measurements-*` and its name filter is always an allowed type |
| Resolvers.ResolveAvgByDate | schema.py:103-137 | a window failure ends the call; otherwise it succeeds exactly when the response has one unit bucket and returns its average and unit, else it raises the multiple-units error |
| Resolvers.AvgByDateUnitCheck | schema.py:115-136 | given a faithful `terms` answer, the aggregate succeeds exactly when the documents of the normalised type in the window carry a single unit, and then reports that unit |
| Resolvers.ListingExample | schema.py:74-96 | a same-day listing for `urn:dev:mac:fcc23d000000050f`/`temp`/5 builds the pattern `urn:dev:mac:fcc23d000000050f*temp`, size 5, over `measurements-*` |
| Resolvers.ListingFallbackExample | schema.py:63-78 | an unknown type and amount 500 give the pattern without a type and size 10 |
| Resolvers.AggregateFallbackExample | schema.py:105-129 | type `bogus` with no dates at 2020-01-03T08:15:30 queries `temp` over 2019-12-27T08:15:30 to 2020-01-03T08:15:30 |
| Resolvers.ExampleUnknownType | schema.py:105-108 | `bogus` is dropped on the listing path and becomes `temp` on the aggregate path |
| Resolvers.ExampleWindow | schema.py:109-113 | the default window at 2020-01-03T08:15:30, across a year boundary |
| Resolvers.ExampleDefaults | schema.py:109-113 | the two default bounds at 2020-01-03T08:15:30 |
| Resolvers.ExampleWeekBefore | schema.py:111 | seven days before 2020-01-03 is 2019-12-27 |

## Left out

- The Elasticsearch client and its network round trip (schema.py:8, 97, 99, 130) are not modelled. The engine is a function parameter `search` of the resolvers. What it returns is constrained only where a lemma states it as a hypothesis.
- GraphQL type and field registration and the `CustomGrapheneDateTime.serialize` override (schema.py:1-29, 40-58) are left out. They are framework plumbing, and the override's date parsing depends on `dateutil`, which is not part of this model.
- `_json_object_hook` / `_json2obj` (schema.py:32-37) are replaced by a fixed record of five optional fields. Three of their behaviours are not modelled:
  - the ValueError that `namedtuple` raises for a stored key that is not a valid identifier;
  - nested objects (a JSON array is modelled, as a `List` value copied unchanged);
  - the GraphQL layer's coercion of field values.
- The clock is a parameter `now`, with whole seconds. The source reads the clock twice, once per default bound; the model uses one reading for both. Microseconds are dropped by `strftime` and do not change the written strings.
- Timestamps.Format: always pads the year to four digits. The C library's `%Y` may not pad years before 1000.
- The `print` diagnostic on the aggregate path (schema.py:107) is a side effect only.
- The average is an `Option<real>` copied through unchanged. No floating-point behaviour is modelled.
- An `amount` passed explicitly as null is not modelled. Python raises TypeError when it compares None. The model's `None` means the argument was omitted, so the keyword default 10 applies.
- Range filters compare timestamps as strings in lexicographic order. For the fixed-width `%Y-%m-%dT%H:%M:%S` layout this is the order in time (Timestamps.FormatOrder). The engine's own date parsing of bounds and stored timestamps in other formats is not modelled.
- How the engine analyses the text field `n` into terms is not modelled. A document carries an abstract set of terms per field.
- Queries.ListingSelection: characterises the selection only for a sensor name without wildcard characters. A name containing `*`, `?` or a backslash widens the match in ways the lemma does not describe.
- Resolvers.ResolveMeasurements: says nothing about which documents the engine returns, because the engine is a parameter. Queries.ListingSelection states which documents the request selects.
- Timestamps.Parse: is the partner of the formatter only. The source validates no caller-supplied date, so the model applies no validation either.
