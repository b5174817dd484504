/**
 * An in-memory stand-in for the data_point_series repository: the table
 * is a sequence of rows in insertion order, `id` is its primary key.
 */
module Repository {
  import opened Wrappers
  import opened TimeSeries

  /** The storage failure the model can raise: a primary-key clash. */
  datatype StorageError = DuplicateId(id: Uuid)

  predicate HasId(rows: seq<Sample>, id: Uuid)
  {
    exists i | 0 <= i < |rows| :: rows[i].id == id
  }

  /** The primary-key constraint: no two rows share an id. */
  predicate DistinctIds(rows: seq<Sample>)
  {
    forall i, j | 0 <= i < j < |rows| :: rows[i].id != rows[j].id
  }

  /** Appending one row keeps the key distinct exactly when its id is new. */
  lemma AppendDistinct(rows: seq<Sample>, s: Sample)
    requires DistinctIds(rows)
    ensures DistinctIds(rows + [s]) <==> !HasId(rows, s.id)
  {
    var ext := rows + [s];
    if HasId(rows, s.id) {
      var i :| 0 <= i < |rows| && rows[i].id == s.id;
      assert ext[i].id == ext[|rows|].id;
    }
  }

  /** The row predicate of a range query for one series type. */
  predicate Matches(params: TimeSeriesQueryParams, t: SeriesType, s: Sample)
  {
    s.seriesType == t && Admits(params, s)
  }

  /** The rows a range query returns: the matching ones, in table order. */
  function Select(rows: seq<Sample>, params: TimeSeriesQueryParams, t: SeriesType): (r: seq<Sample>)
    ensures |r| <= |rows|
    ensures forall s :: s in r <==> s in rows && Matches(params, t, s)
    ensures multiset(r) <= multiset(rows)
  {
    if rows == [] then []
    else
      assert rows == [rows[0]] + rows[1..];
      (if Matches(params, t, rows[0]) then [rows[0]] else []) + Select(rows[1..], params, t)
  }

  /** Querying a concatenation queries each part and keeps their order. */
  lemma {:induction false} SelectAppend(a: seq<Sample>, b: seq<Sample>, params: TimeSeriesQueryParams, t: SeriesType)
    ensures Select(a + b, params, t) == Select(a, params, t) + Select(b, params, t)
  {
    if a == [] {
      assert a + b == b;
    } else {
      assert (a + b)[1..] == a[1..] + b;
      SelectAppend(a[1..], b, params, t);
    }
  }

  /**
   * After a create, a query returns what it returned before, followed by
   * the new row when that row has the queried type and is admitted.
   */
  lemma SelectAfterCreate(rows: seq<Sample>, s: Sample, params: TimeSeriesQueryParams, t: SeriesType)
    ensures Select(rows + [s], params, t)
         == Select(rows, params, t) + (if Matches(params, t, s) then [s] else [])
  {
    SelectAppend(rows, [s], params, t);
    assert [s][1..] == [];
  }

  class DataPointSeriesRepository {
    var rows: seq<Sample>

    ghost predicate Valid()
      reads this
    {
      DistinctIds(rows)
    }

    constructor ()
      ensures Valid() && rows == []
    {
      rows := [];
    }

    /**
     * Inserts the payload as given, id and series type included, and
     * returns it. A payload whose id is already stored violates the
     * primary key: nothing is inserted and the error is returned.
     */
    method Create(sample: Sample) returns (r: Result<Sample, StorageError>)
      requires Valid()
      modifies this
      ensures Valid()
      ensures r == if HasId(old(rows), sample.id) then Err(DuplicateId(sample.id)) else Ok(sample)
      ensures rows == if r.Ok? then old(rows) + [sample] else old(rows)
    {
      AppendDistinct(rows, sample);
      if HasId(rows, sample.id) {
        r := Err(DuplicateId(sample.id));
      } else {
        rows := rows + [sample];
        r := Ok(sample);
      }
    }

    /** The stored rows of series type `t` that the filter admits. */
    function GetSamples(params: TimeSeriesQueryParams, t: SeriesType): (r: seq<Sample>)
      reads this
      ensures forall s :: s in r <==> s in rows && Matches(params, t, s)
      ensures forall s :: s in r ==> s.seriesType == t
      ensures multiset(r) <= multiset(rows)
    {
      Select(rows, params, t)
    }
  }
}
