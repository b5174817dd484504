/**
 * The migration that unifies heart_rate_sample and step_sample into
 * data_point_series. `Upgrade` copies both tables into the new one,
 * tagging each row by the table it came from, and drops the old tables;
 * `Downgrade` splits the unified table back by tag and drops it.
 */
module UnifyTimeSeries {
  import opened Wrappers
  import opened TimeSeries

  /** A row of heart_rate_sample or step_sample: the series type is implied by the table. */
  datatype LegacyRow = LegacyRow(id: Uuid, deviceId: Option<string>, recordedAt: Timestamp, value: Value)

  /** A row of data_point_series; its series_type column is free text. */
  datatype SeriesRow = SeriesRow(id: Uuid, deviceId: Option<string>, recordedAt: Timestamp, value: Value, seriesType: string)

  /** The literal tags the two INSERT ... SELECT statements write and filter on. */
  const HeartRateTag: string := "heart_rate"
  const StepsTag: string := "steps"

  lemma TagsAreSeriesTypeCodes()
    ensures HeartRateTag == Code(HeartRate) && StepsTag == Code(Steps)
    ensures HeartRateTag != StepsTag
  {
  }

  function Tag(row: LegacyRow, tag: string): SeriesRow
  {
    SeriesRow(row.id, row.deviceId, row.recordedAt, row.value, tag)
  }

  function Untag(row: SeriesRow): LegacyRow
  {
    LegacyRow(row.id, row.deviceId, row.recordedAt, row.value)
  }

  /** `SELECT id, device_id, recorded_at, value, tag FROM rows`: every row copied, tagged. */
  function TagAll(rows: seq<LegacyRow>, tag: string): (r: seq<SeriesRow>)
    ensures |r| == |rows|
    ensures forall i | 0 <= i < |r| :: Untag(r[i]) == rows[i] && r[i].seriesType == tag
  {
    if rows == [] then [] else [Tag(rows[0], tag)] + TagAll(rows[1..], tag)
  }

  /** `SELECT id, device_id, recorded_at, value FROM rows WHERE series_type = tag`. */
  function SelectTagged(rows: seq<SeriesRow>, tag: string): (r: seq<LegacyRow>)
    ensures |r| <= |rows|
    ensures forall x :: x in r <==> Tag(x, tag) in rows
  {
    if rows == [] then []
    else
      assert rows == [rows[0]] + rows[1..];
      assert rows[0].seriesType == tag ==> rows[0] == Tag(Untag(rows[0]), tag);
      (if rows[0].seriesType == tag then [Untag(rows[0])] else []) + SelectTagged(rows[1..], tag)
  }

  /** The content of data_point_series after Upgrade: heart-rate rows first, then step rows. */
  function UpgradeRows(heartRate: seq<LegacyRow>, steps: seq<LegacyRow>): (r: seq<SeriesRow>)
    ensures |r| == |heartRate| + |steps|
  {
    TagAll(heartRate, HeartRateTag) + TagAll(steps, StepsTag)
  }

  /**
   * The unified table holds exactly the heart-rate rows tagged heart_rate
   * and the step rows tagged steps, every field copied, and nothing else.
   */
  lemma UpgradeRowsMembers(heartRate: seq<LegacyRow>, steps: seq<LegacyRow>, row: SeriesRow)
    ensures row in UpgradeRows(heartRate, steps) <==>
      (row.seriesType == HeartRateTag && Untag(row) in heartRate) ||
      (row.seriesType == StepsTag && Untag(row) in steps)
  {
    var a, b := TagAll(heartRate, HeartRateTag), TagAll(steps, StepsTag);
    if row in a {
      var i :| 0 <= i < |a| && a[i] == row;
    }
    if row in b {
      var i :| 0 <= i < |b| && b[i] == row;
    }
    if row.seriesType == HeartRateTag && Untag(row) in heartRate {
      var i :| 0 <= i < |heartRate| && heartRate[i] == Untag(row);
      assert a[i] == row;
    }
    if row.seriesType == StepsTag && Untag(row) in steps {
      var i :| 0 <= i < |steps| && steps[i] == Untag(row);
      assert b[i] == row;
    }
  }

  /** The contents of heart_rate_sample and step_sample after Downgrade. */
  function DowngradeRows(unified: seq<SeriesRow>): (tables: (seq<LegacyRow>, seq<LegacyRow>))
    ensures forall x :: x in tables.0 <==> Tag(x, HeartRateTag) in unified
    ensures forall x :: x in tables.1 <==> Tag(x, StepsTag) in unified
    ensures |tables.0| + |tables.1| <= |unified|
  {
    SelectTaggedSplit(unified, HeartRateTag, StepsTag);
    (SelectTagged(unified, HeartRateTag), SelectTagged(unified, StepsTag))
  }

  /** Selecting two different tags never takes more rows than there are. */
  lemma {:induction false} SelectTaggedSplit(rows: seq<SeriesRow>, tag: string, other: string)
    requires tag != other
    ensures |SelectTagged(rows, tag)| + |SelectTagged(rows, other)| <= |rows|
  {
    if rows != [] {
      SelectTaggedSplit(rows[1..], tag, other);
    }
  }

  // ---- Keys --------------------------------------------------------------

  predicate LegacyKeyed(rows: seq<LegacyRow>)
  {
    forall i, j | 0 <= i < j < |rows| :: rows[i].id != rows[j].id
  }

  predicate SeriesKeyed(rows: seq<SeriesRow>)
  {
    forall i, j | 0 <= i < j < |rows| :: rows[i].id != rows[j].id
  }

  /** No id is in both source tables. */
  predicate IdsDisjoint(a: seq<LegacyRow>, b: seq<LegacyRow>)
  {
    forall i, j | 0 <= i < |a| && 0 <= j < |b| :: a[i].id != b[j].id
  }

  /**
   * The unified table's primary key holds after the two inserts exactly
   * when each source table was keyed and no id occurs in both.
   */
  lemma UpgradeKeyedIff(heartRate: seq<LegacyRow>, steps: seq<LegacyRow>)
    ensures SeriesKeyed(UpgradeRows(heartRate, steps)) <==>
      LegacyKeyed(heartRate) && LegacyKeyed(steps) && IdsDisjoint(heartRate, steps)
  {
    var a, b := TagAll(heartRate, HeartRateTag), TagAll(steps, StepsTag);
    var u := UpgradeRows(heartRate, steps);
    assert u == a + b;
    var n := |heartRate|;
    assert forall i | 0 <= i < n :: u[i].id == heartRate[i].id by {
      forall i | 0 <= i < n ensures u[i].id == heartRate[i].id {
        assert u[i] == a[i] && Untag(a[i]) == heartRate[i];
      }
    }
    assert forall j | 0 <= j < |steps| :: u[n + j].id == steps[j].id by {
      forall j | 0 <= j < |steps| ensures u[n + j].id == steps[j].id {
        assert u[n + j] == b[j] && Untag(b[j]) == steps[j];
      }
    }
    if SeriesKeyed(u) {
      forall i, j | 0 <= i < j < |steps| ensures steps[i].id != steps[j].id {
        assert u[n + i].id != u[n + j].id;
      }
      forall i, j | 0 <= i < n && 0 <= j < |steps| ensures heartRate[i].id != steps[j].id {
        assert u[i].id != u[n + j].id;
      }
    }
  }

  /** Tagging keeps ids, so a tagged copy is keyed exactly when its source is. */
  lemma TagAllKeyed(rows: seq<LegacyRow>, tag: string)
    ensures SeriesKeyed(TagAll(rows, tag)) <==> LegacyKeyed(rows)
  {
    var t := TagAll(rows, tag);
    assert forall i | 0 <= i < |rows| :: t[i].id == rows[i].id by {
      forall i | 0 <= i < |rows| ensures t[i].id == rows[i].id {
        assert Untag(t[i]) == rows[i];
      }
    }
  }

  /** The rows Downgrade puts into one legacy table are keyed when the unified table was. */
  lemma {:induction false} SelectTaggedKeyed(rows: seq<SeriesRow>, tag: string)
    requires SeriesKeyed(rows)
    ensures LegacyKeyed(SelectTagged(rows, tag))
  {
    if rows != [] {
      var rest := rows[1..];
      SelectTaggedKeyed(rest, tag);
      var tail := SelectTagged(rest, tag);
      if rows[0].seriesType == tag {
        var r := SelectTagged(rows, tag);
        assert r == [Untag(rows[0])] + tail;
        forall j | 0 <= j < |tail| ensures tail[j].id != rows[0].id {
          assert tail[j] in tail;
          var k :| 0 <= k < |rest| && rest[k] == Tag(tail[j], tag);
          assert rows[k + 1] == rest[k];
        }
        forall i, j | 0 <= i < j < |r| ensures r[i].id != r[j].id {
          if i == 0 {
            assert r[j] == tail[j - 1];
          } else {
            assert r[i] == tail[i - 1] && r[j] == tail[j - 1];
          }
        }
      }
    }
  }

  // ---- Round trips -------------------------------------------------------

  lemma {:induction false} SelectTaggedAppend(a: seq<SeriesRow>, b: seq<SeriesRow>, tag: string)
    ensures SelectTagged(a + b, tag) == SelectTagged(a, tag) + SelectTagged(b, tag)
  {
    if a == [] {
      assert a + b == b;
    } else {
      var ab := a + b;
      assert ab[0] == a[0] && ab[1..] == a[1..] + b;
      var head := if a[0].seriesType == tag then [Untag(a[0])] else [];
      assert SelectTagged(ab, tag) == head + SelectTagged(a[1..] + b, tag);
      assert SelectTagged(a, tag) == head + SelectTagged(a[1..], tag);
      SelectTaggedAppend(a[1..], b, tag);
    }
  }

  /** Selecting the tag just written gives the source rows back, in order. */
  lemma {:induction false} SelectOwnTag(rows: seq<LegacyRow>, tag: string)
    ensures SelectTagged(TagAll(rows, tag), tag) == rows
  {
    if rows != [] {
      var t := TagAll(rows, tag);
      assert t[1..] == TagAll(rows[1..], tag);
      SelectOwnTag(rows[1..], tag);
    }
  }

  /** Selecting another tag finds none of the rows just written. */
  lemma {:induction false} SelectOtherTag(rows: seq<LegacyRow>, tag: string, other: string)
    requires tag != other
    ensures SelectTagged(TagAll(rows, tag), other) == []
  {
    if rows != [] {
      var t := TagAll(rows, tag);
      assert t[1..] == TagAll(rows[1..], tag);
      SelectOtherTag(rows[1..], tag, other);
    }
  }

  /** Downgrade after Upgrade restores both tables exactly: loss-free, order kept. */
  lemma DowngradeAfterUpgrade(heartRate: seq<LegacyRow>, steps: seq<LegacyRow>)
    ensures DowngradeRows(UpgradeRows(heartRate, steps)) == (heartRate, steps)
    ensures multiset(DowngradeRows(UpgradeRows(heartRate, steps)).0) == multiset(heartRate)
    ensures multiset(DowngradeRows(UpgradeRows(heartRate, steps)).1) == multiset(steps)
  {
    var a, b := TagAll(heartRate, HeartRateTag), TagAll(steps, StepsTag);
    var u := UpgradeRows(heartRate, steps);
    assert u == a + b;
    SelectTaggedAppend(a, b, HeartRateTag);
    SelectOwnTag(heartRate, HeartRateTag);
    SelectOtherTag(steps, StepsTag, HeartRateTag);
    assert SelectTagged(u, HeartRateTag) == heartRate + [];
    SelectTaggedAppend(a, b, StepsTag);
    SelectOwnTag(steps, StepsTag);
    SelectOtherTag(heartRate, HeartRateTag, StepsTag);
    assert SelectTagged(u, StepsTag) == [] + steps;
    assert heartRate + [] == heartRate && [] + steps == steps;
  }

  /** Every row of the unified table carries one of the two tags Downgrade keeps. */
  predicate OnlyLegacyTags(rows: seq<SeriesRow>)
  {
    forall i | 0 <= i < |rows| :: rows[i].seriesType == HeartRateTag || rows[i].seriesType == StepsTag
  }

  lemma {:induction false} TagAllAppend(a: seq<LegacyRow>, b: seq<LegacyRow>, tag: string)
    ensures TagAll(a + b, tag) == TagAll(a, tag) + TagAll(b, tag)
  {
    if a == [] {
      assert a + b == b;
    } else {
      assert (a + b)[1..] == a[1..] + b;
      TagAllAppend(a[1..], b, tag);
    }
  }

  /** Re-tagging the rows selected by a tag gives back just those rows, as a multiset. */
  lemma {:induction false} RetagSelected(rows: seq<SeriesRow>, tag: string)
    ensures multiset(TagAll(SelectTagged(rows, tag), tag)) == Kept(rows, tag)
  {
    if rows != [] {
      var rest := rows[1..];
      RetagSelected(rest, tag);
      var head := if rows[0].seriesType == tag then [Untag(rows[0])] else [];
      assert SelectTagged(rows, tag) == head + SelectTagged(rest, tag);
      TagAllAppend(head, SelectTagged(rest, tag), tag);
      assert rows[0].seriesType == tag ==> TagAll(head, tag) == [rows[0]];
    }
  }

  /** When every row has one of the two tags, the two selections together are the whole table. */
  lemma {:induction false} KeptCovers(rows: seq<SeriesRow>)
    requires OnlyLegacyTags(rows)
    ensures Kept(rows, HeartRateTag) + Kept(rows, StepsTag) == multiset(rows)
  {
    if rows != [] {
      assert OnlyLegacyTags(rows[1..]) by {
        forall i | 0 <= i < |rows[1..]| ensures rows[1..][i].seriesType in {HeartRateTag, StepsTag} {
          assert rows[1..][i] == rows[i + 1];
        }
      }
      KeptCovers(rows[1..]);
      assert rows == [rows[0]] + rows[1..];
    }
  }

  /** A kept row has the tag it was kept for. */
  lemma {:induction false} KeptHasTag(rows: seq<SeriesRow>, tag: string, row: SeriesRow)
    requires row in Kept(rows, tag)
    ensures row.seriesType == tag
  {
    if rows[0] != row || rows[0].seriesType != tag {
      KeptHasTag(rows[1..], tag, row);
    }
  }

  /**
   * Upgrade after Downgrade is loss-free (as a multiset; the row order
   * changes) exactly when every unified row is tagged heart_rate or steps.
   * Rows with any other tag, such as energy, are dropped by Downgrade.
   */
  lemma UpgradeAfterDowngradeIff(unified: seq<SeriesRow>)
    ensures multiset(UpgradeRows(DowngradeRows(unified).0, DowngradeRows(unified).1)) == multiset(unified)
        <==> OnlyLegacyTags(unified)
  {
    var hr, st := SelectTagged(unified, HeartRateTag), SelectTagged(unified, StepsTag);
    var back := UpgradeRows(hr, st);
    assert back == TagAll(hr, HeartRateTag) + TagAll(st, StepsTag);
    RetagSelected(unified, HeartRateTag);
    RetagSelected(unified, StepsTag);
    assert multiset(back) == Kept(unified, HeartRateTag) + Kept(unified, StepsTag);
    if OnlyLegacyTags(unified) {
      KeptCovers(unified);
    } else {
      var i :| 0 <= i < |unified| && unified[i].seriesType != HeartRateTag && unified[i].seriesType != StepsTag;
      var row := unified[i];
      if row in multiset(back) {
        if row in Kept(unified, HeartRateTag) {
          KeptHasTag(unified, HeartRateTag, row);
        } else {
          KeptHasTag(unified, StepsTag, row);
        }
      }
      assert row in multiset(unified);
    }
  }

  /**
   * Any row tagged energy in a keyed unified table reaches neither legacy
   * table on Downgrade, so Upgrade afterwards cannot bring it back.
   */
  lemma EnergyRowIsLost(unified: seq<SeriesRow>, row: SeriesRow)
    requires SeriesKeyed(unified)
    requires row in unified && row.seriesType == Code(Energy)
    ensures Untag(row) !in DowngradeRows(unified).0
    ensures Untag(row) !in DowngradeRows(unified).1
    ensures row !in UpgradeRows(DowngradeRows(unified).0, DowngradeRows(unified).1)
  {
    var p :| 0 <= p < |unified| && unified[p] == row;
    KeyedTwin(unified, p, Tag(Untag(row), HeartRateTag));
    KeyedTwin(unified, p, Tag(Untag(row), StepsTag));
    UpgradeRowsMembers(DowngradeRows(unified).0, DowngradeRows(unified).1, row);
  }

  /** In a keyed table, a row with the id of row `p` but another tag is absent. */
  lemma KeyedTwin(rows: seq<SeriesRow>, p: nat, twin: SeriesRow)
    requires SeriesKeyed(rows) && p < |rows|
    requires twin.id == rows[p].id && twin.seriesType != rows[p].seriesType
    ensures twin !in rows
  {
  }

  /**
   * The two tables Downgrade fills from a keyed unified table share no id,
   * so a later Upgrade cannot fail on its primary key.
   */
  lemma DowngradeIdsDisjoint(unified: seq<SeriesRow>)
    requires SeriesKeyed(unified)
    ensures IdsDisjoint(DowngradeRows(unified).0, DowngradeRows(unified).1)
  {
    var (hr, st) := DowngradeRows(unified);
    forall i, j | 0 <= i < |hr| && 0 <= j < |st|
      ensures hr[i].id != st[j].id
    {
      assert hr[i] in hr && st[j] in st;
      var p :| 0 <= p < |unified| && unified[p] == Tag(hr[i], HeartRateTag);
      var q :| 0 <= q < |unified| && unified[q] == Tag(st[j], StepsTag);
      assert p != q;
      if p < q { assert unified[p].id != unified[q].id; } else { assert unified[q].id != unified[p].id; }
    }
  }

  /** The rows tagged `tag`, as a multiset. */
  function Kept(rows: seq<SeriesRow>, tag: string): multiset<SeriesRow>
  {
    if rows == [] then multiset{}
    else (if rows[0].seriesType == tag then multiset{rows[0]} else multiset{}) + Kept(rows[1..], tag)
  }

  // ---- The migration steps ----------------------------------------------

  /**
   * The three tables the migration touches; `None` means the table does
   * not exist. Every existing table satisfies its primary key on `id`.
   */
  class Database {
    var heartRateSample: Option<seq<LegacyRow>>
    var stepSample: Option<seq<LegacyRow>>
    var dataPointSeries: Option<seq<SeriesRow>>

    ghost predicate Valid()
      reads this
    {
      (heartRateSample.Some? ==> LegacyKeyed(heartRateSample.value)) &&
      (stepSample.Some? ==> LegacyKeyed(stepSample.value)) &&
      (dataPointSeries.Some? ==> SeriesKeyed(dataPointSeries.value))
    }

    /** The schema of revision c53a9a1517f3: two per-metric tables. */
    predicate AtPreviousRevision()
      reads this
    {
      heartRateSample.Some? && stepSample.Some? && dataPointSeries.None?
    }

    /** The schema of revision d2a7b13dbfea: one unified table. */
    predicate AtUnifiedRevision()
      reads this
    {
      heartRateSample.None? && stepSample.None? && dataPointSeries.Some?
    }

    constructor (heartRate: seq<LegacyRow>, steps: seq<LegacyRow>)
      requires LegacyKeyed(heartRate) && LegacyKeyed(steps)
      ensures Valid() && AtPreviousRevision()
      ensures heartRateSample == Some(heartRate) && stepSample == Some(steps)
    {
      heartRateSample, stepSample, dataPointSeries := Some(heartRate), Some(steps), None;
    }

    /**
     * Creates data_point_series, copies the heart-rate rows tagged
     * heart_rate and then the step rows tagged steps, and drops both old
     * tables. An id found in both old tables violates the new primary key
     * on the second insert; the migration then fails and, running in one
     * transaction, leaves the database as it was.
     */
    method Upgrade() returns (ok: bool)
      requires Valid() && AtPreviousRevision()
      modifies this
      ensures Valid()
      ensures ok <==> IdsDisjoint(old(heartRateSample.value), old(stepSample.value))
      ensures ok ==> AtUnifiedRevision()
      ensures ok ==> dataPointSeries.value == UpgradeRows(old(heartRateSample.value), old(stepSample.value))
      ensures !ok ==> heartRateSample == old(heartRateSample) && stepSample == old(stepSample)
      ensures !ok ==> dataPointSeries == old(dataPointSeries)
    {
      var heartRate, steps := heartRateSample.value, stepSample.value;
      var first, second := TagAll(heartRate, HeartRateTag), TagAll(steps, StepsTag);
      UpgradeKeyedIff(heartRate, steps);
      TagAllKeyed(heartRate, HeartRateTag);
      assert UpgradeRows(heartRate, steps) == first + second;

      dataPointSeries := Some([]);
      // The heart-rate rows are keyed, so the first insert always succeeds.
      assert [] + first == first;
      dataPointSeries := Some(dataPointSeries.value + first);
      var filled := dataPointSeries.value + second;
      if !SeriesKeyed(filled) {
        // primary-key violation: the transaction is rolled back
        dataPointSeries := None;
        return false;
      }
      dataPointSeries := Some(filled);
      heartRateSample := None;
      stepSample := None;
      return true;
    }

    /**
     * Re-creates the two per-metric tables, fills each with the unified
     * rows of its tag, minus the tag, and drops data_point_series. Rows of
     * any other tag are not copied anywhere.
     */
    method Downgrade()
      requires Valid() && AtUnifiedRevision()
      modifies this
      ensures Valid() && AtPreviousRevision()
      ensures (heartRateSample.value, stepSample.value) == DowngradeRows(old(dataPointSeries.value))
    {
      var unified := dataPointSeries.value;
      heartRateSample := Some([]);
      stepSample := Some([]);
      SelectTaggedKeyed(unified, HeartRateTag);
      SelectTaggedKeyed(unified, StepsTag);
      assert [] + SelectTagged(unified, HeartRateTag) == SelectTagged(unified, HeartRateTag);
      assert [] + SelectTagged(unified, StepsTag) == SelectTagged(unified, StepsTag);
      heartRateSample := Some(heartRateSample.value + SelectTagged(unified, HeartRateTag));
      stepSample := Some(stepSample.value + SelectTagged(unified, StepsTag));
      dataPointSeries := None;
    }

    /** Upgrading and downgrading again restores both per-metric tables exactly. */
    method UpgradeThenDowngrade() returns (ok: bool)
      requires Valid() && AtPreviousRevision()
      modifies this
      ensures Valid() && AtPreviousRevision()
      ensures ok <==> IdsDisjoint(old(heartRateSample.value), old(stepSample.value))
      ensures heartRateSample == old(heartRateSample) && stepSample == old(stepSample)
    {
      ghost var heartRate, steps := heartRateSample.value, stepSample.value;
      ok := Upgrade();
      if ok {
        DowngradeAfterUpgrade(heartRate, steps);
        Downgrade();
      }
    }

    /**
     * Downgrading and upgrading again always succeeds, and gives the
     * unified rows back, as a multiset, exactly when every row was tagged
     * heart_rate or steps.
     */
    method DowngradeThenUpgrade() returns (ok: bool)
      requires Valid() && AtUnifiedRevision()
      modifies this
      ensures Valid() && ok && AtUnifiedRevision()
      ensures dataPointSeries.value ==
        UpgradeRows(DowngradeRows(old(dataPointSeries.value)).0, DowngradeRows(old(dataPointSeries.value)).1)
      ensures multiset(dataPointSeries.value) == multiset(old(dataPointSeries.value))
          <==> OnlyLegacyTags(old(dataPointSeries.value))
    {
      ghost var unified := dataPointSeries.value;
      DowngradeIdsDisjoint(unified);
      UpgradeAfterDowngradeIff(unified);
      Downgrade();
      ok := Upgrade();
    }
  }
}
