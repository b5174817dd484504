/**
 * The time-series service: a per-kind facade over the repository. Creates
 * pass payloads through unchanged, bulk creates are a plain loop of single
 * creates, and queries fix the series type and copy rows into responses.
 */
module WorkoutStatisticService {
  import opened Wrappers
  import opened TimeSeries
  import opened Repository

  /** How a bulk create ended: every element stored, or a failure at `index`. */
  datatype BulkOutcome = Done | FailedAt(index: nat, error: StorageError)

  /** The response payload for a stored row, carrying the tag `t`. */
  function ToResponse(row: Sample, t: SeriesType): Sample
  {
    Sample(row.id, row.deviceId, row.recordedAt, row.value, t)
  }

  /** Maps rows to responses: same length and order, fields copied, tag `t`. */
  function ToResponses(rows: seq<Sample>, t: SeriesType): (r: seq<Sample>)
    ensures |r| == |rows|
    ensures forall i | 0 <= i < |r| ::
      r[i].id == rows[i].id && r[i].deviceId == rows[i].deviceId &&
      r[i].recordedAt == rows[i].recordedAt && r[i].value == rows[i].value &&
      r[i].seriesType == t
  {
    seq(|rows|, i requires 0 <= i < |rows| => ToResponse(rows[i], t))
  }

  /** Rows that already carry tag `t` come back from the mapping unchanged. */
  lemma ResponsesOfTagged(rows: seq<Sample>, t: SeriesType)
    requires forall s | s in rows :: s.seriesType == t
    ensures ToResponses(rows, t) == rows
  {
    var r := ToResponses(rows, t);
    forall i | 0 <= i < |rows|
      ensures r[i] == rows[i]
    {
      assert rows[i] in rows;
    }
  }

  /** If element `k` of a bulk insert clashes with what precedes it, the whole batch has no distinct key. */
  lemma PrefixClash(rows: seq<Sample>, samples: seq<Sample>, k: nat)
    requires k < |samples|
    requires HasId(rows + samples[..k], samples[k].id)
    ensures !DistinctIds(rows + samples)
  {
    var prefix := rows + samples[..k];
    var all := rows + samples;
    var i :| 0 <= i < |prefix| && prefix[i].id == samples[k].id;
    assert all[i] == prefix[i];
    assert all[|rows| + k] == samples[k];
  }

  class TimeSeriesService {
    static const HeartRateType: SeriesType := HeartRate
    static const StepType: SeriesType := Steps

    const repo: DataPointSeriesRepository

    ghost predicate Valid()
      reads this, repo
    {
      repo.Valid()
    }

    constructor ()
      ensures Valid() && fresh(repo) && repo.rows == []
    {
      repo := new DataPointSeriesRepository();
    }

    /** Hands the payload to the repository and returns what it created. */
    method CreateSample(sample: Sample) returns (r: Result<Sample, StorageError>)
      requires Valid()
      modifies repo
      ensures Valid()
      ensures r == if HasId(old(repo.rows), sample.id) then Err(DuplicateId(sample.id)) else Ok(sample)
      ensures repo.rows == if r.Ok? then old(repo.rows) + [sample] else old(repo.rows)
    {
      r := repo.Create(sample);
    }

    /** The payload is stored as given: a caller-supplied tag is not overridden. */
    method CreateHeartRateSample(sample: Sample) returns (r: Result<Sample, StorageError>)
      requires Valid()
      modifies repo
      ensures Valid()
      ensures r == if HasId(old(repo.rows), sample.id) then Err(DuplicateId(sample.id)) else Ok(sample)
      ensures repo.rows == if r.Ok? then old(repo.rows) + [sample] else old(repo.rows)
    {
      r := CreateSample(sample);
    }

    /** The payload is stored as given: a caller-supplied tag is not overridden. */
    method CreateStepSample(sample: Sample) returns (r: Result<Sample, StorageError>)
      requires Valid()
      modifies repo
      ensures Valid()
      ensures r == if HasId(old(repo.rows), sample.id) then Err(DuplicateId(sample.id)) else Ok(sample)
      ensures repo.rows == if r.Ok? then old(repo.rows) + [sample] else old(repo.rows)
    {
      r := CreateSample(sample);
    }

    /**
     * Creates the samples one by one in list order. The first failure
     * stops the loop and nothing is rolled back: the elements before it
     * stay stored.
     */
    method BulkCreateHeartRateSamples(samples: seq<Sample>) returns (outcome: BulkOutcome)
      requires Valid()
      modifies repo
      ensures Valid()
      ensures outcome.Done? <==> DistinctIds(old(repo.rows) + samples)
      ensures outcome.Done? ==> repo.rows == old(repo.rows) + samples
      ensures outcome.FailedAt? ==>
        outcome.index < |samples| &&
        repo.rows == old(repo.rows) + samples[..outcome.index] &&
        outcome.error == DuplicateId(samples[outcome.index].id) &&
        HasId(repo.rows, samples[outcome.index].id)
    {
      var i := 0;
      while i < |samples|
        invariant 0 <= i <= |samples|
        invariant Valid()
        invariant repo.rows == old(repo.rows) + samples[..i]
      {
        var r := CreateHeartRateSample(samples[i]);
        if r.Err? {
          PrefixClash(old(repo.rows), samples, i);
          return FailedAt(i, r.error);
        }
        assert samples[..i + 1] == samples[..i] + [samples[i]];
        i := i + 1;
      }
      assert samples[..i] == samples;
      return Done;
    }

    /**
     * Creates the samples one by one in list order. The first failure
     * stops the loop and nothing is rolled back: the elements before it
     * stay stored.
     */
    method BulkCreateStepSamples(samples: seq<Sample>) returns (outcome: BulkOutcome)
      requires Valid()
      modifies repo
      ensures Valid()
      ensures outcome.Done? <==> DistinctIds(old(repo.rows) + samples)
      ensures outcome.Done? ==> repo.rows == old(repo.rows) + samples
      ensures outcome.FailedAt? ==>
        outcome.index < |samples| &&
        repo.rows == old(repo.rows) + samples[..outcome.index] &&
        outcome.error == DuplicateId(samples[outcome.index].id) &&
        HasId(repo.rows, samples[outcome.index].id)
    {
      var i := 0;
      while i < |samples|
        invariant 0 <= i <= |samples|
        invariant Valid()
        invariant repo.rows == old(repo.rows) + samples[..i]
      {
        var r := CreateStepSample(samples[i]);
        if r.Err? {
          PrefixClash(old(repo.rows), samples, i);
          return FailedAt(i, r.error);
        }
        assert samples[..i + 1] == samples[..i] + [samples[i]];
        i := i + 1;
      }
      assert samples[..i] == samples;
      return Done;
    }

    /**
     * The stored heart-rate samples the filter admits, in repository
     * order. The user id takes no part in the query.
     */
    function GetUserHeartRateSeries(userId: string, params: TimeSeriesQueryParams): (r: seq<Sample>)
      reads this, repo
      ensures r == repo.GetSamples(params, HeartRate)
      ensures forall s :: s in r <==> s in repo.rows && Matches(params, HeartRate, s)
    {
      var samples := repo.GetSamples(params, HeartRateType);
      ResponsesOfTagged(samples, HeartRateType);
      ToResponses(samples, HeartRateType)
    }

    /**
     * The stored step samples the filter admits, in repository order.
     * The user id takes no part in the query.
     */
    function GetUserStepSeries(userId: string, params: TimeSeriesQueryParams): (r: seq<Sample>)
      reads this, repo
      ensures r == repo.GetSamples(params, Steps)
      ensures forall s :: s in r <==> s in repo.rows && Matches(params, Steps, s)
    {
      var samples := repo.GetSamples(params, StepType);
      ResponsesOfTagged(samples, StepType);
      ToResponses(samples, StepType)
    }

    /** Two callers asking with the same filter get the same series. */
    lemma QueriesIgnoreUser(u1: string, u2: string, params: TimeSeriesQueryParams)
      ensures GetUserHeartRateSeries(u1, params) == GetUserHeartRateSeries(u2, params)
      ensures GetUserStepSeries(u1, params) == GetUserStepSeries(u2, params)
    {
    }
  }

  /**
   * A heart-rate sample stored and then queried with a point window at its
   * own instant and its own device comes back alone and equal to the
   * payload; a second sample with the same reading but another id is
   * stored beside it.
   */
  method HeartRateScenario()
  {
    var service := new TimeSeriesService();
    var watch := Some("watch-1");
    var payload := HeartRateSample("3f2a", 1704067200, 72500, deviceId := watch);
    var created := service.CreateHeartRateSample(payload);
    assert created == Ok(payload) && created.value.seriesType == HeartRate;
    var params := TimeSeriesQueryParams(Some(1704067200), Some(1704067200), watch);
    assert service.repo.rows == [payload];
    var series := service.GetUserHeartRateSeries("user-1", params);
    assert series == [payload];
    var again := service.CreateHeartRateSample(payload.(id := "9c1d"));
    assert again.Ok? && |service.repo.rows| == 2;
    var repeat := service.CreateHeartRateSample(payload);
    assert repeat == Err(DuplicateId("3f2a"));
  }
}
