/**
 * The payload shapes of the time-series API: the closed set of series
 * types, the sample record shared by create payloads, response payloads
 * and stored rows, the per-kind payload constructors with their default
 * tags, and the query filter with its inclusive time bounds.
 */
module TimeSeries {
  import opened Wrappers

  /** Sample identifiers are opaque UUIDs; only equality is used. */
  type Uuid = string

  /** An instant, as an integer count of ticks since an epoch. */
  type Timestamp = int

  /** A decimal value with three fractional digits, scaled by 1000. */
  type Value = int

  /** The metric kinds. The enumeration is closed: no other tag exists. */
  datatype SeriesType = Steps | HeartRate | Energy

  /** The string value of each enumeration member. */
  function Code(t: SeriesType): string
  {
    match t
    case Steps => "steps"
    case HeartRate => "heart_rate"
    case Energy => "energy"
  }

  /** Looks a series type up by its string value, as `SeriesType(s)` does. */
  function Parse(s: string): (r: Option<SeriesType>)
    ensures r.Some? <==> s == "steps" || s == "heart_rate" || s == "energy"
    ensures r.Some? ==> Code(r.value) == s
  {
    if s == "steps" then Some(Steps)
    else if s == "heart_rate" then Some(HeartRate)
    else if s == "energy" then Some(Energy)
    else None
  }

  lemma CodeRoundTrip(t: SeriesType)
    ensures Parse(Code(t)) == Some(t)
    ensures forall u: SeriesType :: Code(u) == Code(t) ==> u == t
  {
  }

  /**
   * One time-stamped measurement. Create payloads, response payloads and
   * rows of data_point_series all have exactly these fields.
   */
  datatype Sample = Sample(
    id: Uuid,
    deviceId: Option<string>,
    recordedAt: Timestamp,
    value: Value,
    seriesType: SeriesType)

  /** The generic payload: the caller supplies the id and the series type. */
  function TimeSeriesSample(
    id: Uuid, recordedAt: Timestamp, value: Value, seriesType: SeriesType,
    deviceId: Option<string> := None): Sample
  {
    Sample(id, deviceId, recordedAt, value, seriesType)
  }

  /** A heart-rate create or response payload; its tag defaults to heart_rate. */
  function HeartRateSample(
    id: Uuid, recordedAt: Timestamp, value: Value,
    deviceId: Option<string> := None, seriesType: SeriesType := HeartRate): Sample
  {
    TimeSeriesSample(id, recordedAt, value, seriesType, deviceId)
  }

  /** A step-count create or response payload; its tag defaults to steps. */
  function StepSample(
    id: Uuid, recordedAt: Timestamp, value: Value,
    deviceId: Option<string> := None, seriesType: SeriesType := Steps): Sample
  {
    TimeSeriesSample(id, recordedAt, value, seriesType, deviceId)
  }

  /** Omitted fields take their defaults: no device, and the kind's own tag. */
  lemma PayloadDefaults(id: Uuid, recordedAt: Timestamp, value: Value)
    ensures HeartRateSample(id, recordedAt, value)
         == Sample(id, None, recordedAt, value, HeartRate)
    ensures StepSample(id, recordedAt, value)
         == Sample(id, None, recordedAt, value, Steps)
  {
  }

  /** The tags are defaults only: a payload of either kind keeps a tag given explicitly. */
  lemma PayloadTagsAreNotFixed(id: Uuid, recordedAt: Timestamp, value: Value, t: SeriesType)
    ensures HeartRateSample(id, recordedAt, value, seriesType := t).seriesType == t
    ensures StepSample(id, recordedAt, value, seriesType := t).seriesType == t
  {
  }

  /**
   * Filters for retrieving samples. Every field is optional and absent by
   * default; the device filter is documented as required but not enforced.
   */
  datatype TimeSeriesQueryParams = TimeSeriesQueryParams(
    startDatetime: Option<Timestamp> := None,
    endDatetime: Option<Timestamp> := None,
    deviceId: Option<string> := None)

  /** Both bounds are inclusive; an absent bound does not filter its side. */
  predicate InWindow(params: TimeSeriesQueryParams, at: Timestamp)
  {
    (params.startDatetime.Some? ==> params.startDatetime.value <= at) &&
    (params.endDatetime.Some? ==> at <= params.endDatetime.value)
  }

  /** A device filter, when given, keeps only samples of exactly that device. */
  predicate DeviceMatches(params: TimeSeriesQueryParams, deviceId: Option<string>)
  {
    params.deviceId.Some? ==> deviceId == params.deviceId
  }

  predicate Admits(params: TimeSeriesQueryParams, s: Sample)
  {
    InWindow(params, s.recordedAt) && DeviceMatches(params, s.deviceId)
  }

  /** The default filter has no bounds and no device, so it admits every sample. */
  lemma DefaultParamsAdmitAll(s: Sample)
    ensures Admits(TimeSeriesQueryParams(), s)
  {
  }

  /** A window whose two bounds are the same instant admits exactly that instant. */
  lemma PointWindow(at: Timestamp, t: Timestamp)
    ensures InWindow(TimeSeriesQueryParams(Some(at), Some(at)), t) <==> t == at
  {
  }

  /** A window whose start is after its end admits nothing. */
  lemma InvertedWindowIsEmpty(params: TimeSeriesQueryParams, at: Timestamp)
    requires params.startDatetime.Some? && params.endDatetime.Some?
    requires params.endDatetime.value < params.startDatetime.value
    ensures !InWindow(params, at)
  {
  }
}
