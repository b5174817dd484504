# Unified device time series: a verified model

This project models the data-access core of a service that stores
time-stamped device metric samples (heart rate, step count, energy):

- the schema layer: the closed `SeriesType` enumeration, the sample
  record shared by create payloads, response payloads and stored rows,
  the per-kind payloads whose `series_type` merely defaults to their kind,
  and the query filter with optional inclusive time bounds and an
  optional device;
- an in-memory data_point_series repository (`Repository`): a table of
  rows in insertion order whose primary key is `id`, with a create that
  inserts the payload as given and a range query by series type;
- `TimeSeriesService`: single creates that pass the payload through,
  bulk creates that are a plain loop of single creates with no rollback,
  and two queries that fix the series type and copy repository rows into
  response records;
- the alembic migration d2a7b13dbfea, which unifies `heart_rate_sample`
  and `step_sample` into `data_point_series` (`Upgrade`) and splits it
  back (`Downgrade`), as methods on a class holding the three tables, with
  each `INSERT ... SELECT` as a pure function on rows.

Modelling choices:

- Ids are opaque strings compared by equality. Timestamps are integers.
  Values are integers scaled by 1000 (three fractional digits).
- The repository's code is not modelled; `Create` and `GetSamples` are
  specified from the table definition. `Create` stores the payload unchanged and
  fails with `DuplicateId` when the id is already stored (primary key on
  `id`). `GetSamples` returns the rows of the requested type, in table
  order, that match the device filter (if one is given) and lie within
  the inclusive bounds (each one only if given).
- In the migration the `series_type` column is free text (`String(64)`),
  so unified rows carry a `string` tag; `TagsAreSeriesTypeCodes` ties the
  two literals to the enumeration's values.
- A primary-key clash between the two legacy tables makes the second
  insert of `Upgrade` fail. The model assumes the migration runs in one
  transaction, so the database is then left as it was.

Two consequences of the code worth stating:

- The typed creates do not force `series_type`: the payload is handed to
  the repository unchanged, and the payload types only default the tag,
  so `CreateHeartRateSample` stores a payload tagged `steps` as a step
  sample (`PayloadTagsAreNotFixed`, `TimeSeriesService.CreateHeartRateSample`).
- The create payload carries a required, caller-supplied `id`; nothing
  generates it.

The payload constructors `TimeSeries.HeartRateSample` and
`TimeSeries.StepSample` and the filter predicates `TimeSeries.InWindow`,
`TimeSeries.DeviceMatches` and `TimeSeries.Admits` carry no contract of
their own: the lemma rows `PayloadDefaults`, `PayloadTagsAreNotFixed`,
`DefaultParamsAdmitAll`, `PointWindow` and `InvertedWindowIsEmpty` state
what they mean. `WorkoutStatisticService.HeartRateScenario` is a client
of the service that walks through one create-then-query exchange
(a point-window query returns exactly the created sample, a second id
with the same reading is stored beside it, and repeating an id fails);
its assertions are its whole content.

## Model

| member | source | states |
|---|---|---|
| TimeSeries.Parse | backend/app/schemas/time_series.py:11-14 | a string names a series type exactly when it is `steps`, `heart_rate` or `energy`, and the type found has that string as its value |
| TimeSeries.CodeRoundTrip | backend/app/schemas/time_series.py:11-14 | each member's value looks up that member, and no two members share a value |
| TimeSeries.PayloadDefaults | backend/app/schemas/time_series.py:28-65 | an omitted device is absent, an omitted tag is `heart_rate` for heart-rate payloads and `steps` for step payloads, and id, time and value are kept |
| TimeSeries.PayloadTagsAreNotFixed | backend/app/schemas/time_series.py:44-65 | a heart-rate or step payload keeps any tag given explicitly: the kind's tag is only a default |
| TimeSeries.DefaultParamsAdmitAll | backend/app/schemas/time_series.py:17-25 | the filter with all three fields left at their absent default admits every sample |
| TimeSeries.PointWindow | backend/app/schemas/time_series.py:20-21 | a window with start equal to end admits exactly that instant, so both bounds are inclusive |
| TimeSeries.InvertedWindowIsEmpty | backend/app/schemas/time_series.py:20-21 | a window whose start is after its end admits no instant |
| Repository.AppendDistinct | backend/app/models/data_point_series.py:21 | appending a row keeps the primary key distinct exactly when its id is not already stored |
| Repository.Select | backend/app/services/workout_statistic_service.py:58 | the query result holds exactly the stored rows of the requested type admitted by the filter, never more rows than stored, and no row more often than stored |
| Repository.SelectAppend | backend/app/services/workout_statistic_service.py:58 | querying a concatenation of two tables gives the results of the two parts in order |
| Repository.SelectAfterCreate | backend/app/services/workout_statistic_service.py:28-29 | after a create, a query returns its earlier result followed by the new row exactly when the row has the queried type and is admitted |
| Repository.DataPointSeriesRepository.Create | backend/app/services/workout_statistic_service.py:29 | the payload is appended unchanged and returned, or, if its id is already stored, nothing changes and a duplicate-id error is returned |
| Repository.DataPointSeriesRepository.GetSamples | backend/app/services/workout_statistic_service.py:58 | the result holds exactly the stored rows matching type and filter, each tagged with the requested type |
| WorkoutStatisticService.ToResponses | backend/app/services/workout_statistic_service.py:59-68 | responses have the length and order of the rows, copy id, device, time and value, and carry the given tag |
| WorkoutStatisticService.ResponsesOfTagged | backend/app/services/workout_statistic_service.py:78-87 | mapping rows already tagged with the fixed type to responses gives the same rows back |
| WorkoutStatisticService.PrefixClash | backend/app/services/workout_statistic_service.py:43-49 | an element whose id clashes with the stored rows or an earlier element means the batch as a whole has no distinct key |
| WorkoutStatisticService.TimeSeriesService.CreateSample | backend/app/services/workout_statistic_service.py:28-35 | the payload goes to the repository unchanged and the created record is returned |
| WorkoutStatisticService.TimeSeriesService.CreateHeartRateSample | backend/app/services/workout_statistic_service.py:37-38 | same as the generic create; a caller-supplied tag is stored as given |
| WorkoutStatisticService.TimeSeriesService.CreateStepSample | backend/app/services/workout_statistic_service.py:40-41 | same as the generic create; a caller-supplied tag is stored as given |
| WorkoutStatisticService.TimeSeriesService.BulkCreateHeartRateSamples | backend/app/services/workout_statistic_service.py:43-45 | all elements are appended in list order exactly when their ids are new and distinct; otherwise the first clashing element k is reported and elements 0..k-1 stay stored; an empty list stores nothing |
| WorkoutStatisticService.TimeSeriesService.BulkCreateStepSamples | backend/app/services/workout_statistic_service.py:47-49 | as for heart rate, with single step creates |
| WorkoutStatisticService.TimeSeriesService.GetUserHeartRateSeries | backend/app/services/workout_statistic_service.py:51-68 | the series is the repository result for type heart_rate, in its order, and holds exactly the stored heart-rate rows admitted by the filter |
| WorkoutStatisticService.TimeSeriesService.GetUserStepSeries | backend/app/services/workout_statistic_service.py:70-87 | the series is the repository result for type steps, in its order, and holds exactly the stored step rows admitted by the filter |
| WorkoutStatisticService.TimeSeriesService.QueriesIgnoreUser | backend/app/services/workout_statistic_service.py:52-58 | both queries give the same result for any two user ids |
| UnifyTimeSeries.TagsAreSeriesTypeCodes | backend/migrations/versions/d2a7b13dbfea_unify_time_series.py:37-44 | the two literal tags are the values of `SeriesType.heart_rate` and `SeriesType.steps`, and differ |
| UnifyTimeSeries.TagAll | backend/migrations/versions/d2a7b13dbfea_unify_time_series.py:34-47 | each `INSERT ... SELECT` of the upgrade copies every source row, one for one and in order, with its four fields unchanged and the constant tag added |
| UnifyTimeSeries.SelectTagged | backend/migrations/versions/d2a7b13dbfea_unify_time_series.py:82-97 | each `INSERT ... SELECT ... WHERE` of the downgrade yields exactly the rows whose tagged form is in the unified table |
| UnifyTimeSeries.UpgradeRows | backend/migrations/versions/d2a7b13dbfea_unify_time_series.py:19-47 | the fresh unified table holds exactly as many rows as the two source tables together |
| UnifyTimeSeries.UpgradeRowsMembers | backend/migrations/versions/d2a7b13dbfea_unify_time_series.py:34-47 | a unified row exists exactly when it is a heart-rate row tagged heart_rate or a step row tagged steps |
| UnifyTimeSeries.DowngradeRows | backend/migrations/versions/d2a7b13dbfea_unify_time_series.py:82-97 | heart_rate_sample gets exactly the unified rows tagged heart_rate and step_sample those tagged steps, tag removed, never more rows than the unified table had |
| UnifyTimeSeries.UpgradeKeyedIff | backend/migrations/versions/d2a7b13dbfea_unify_time_series.py:26 | the unified primary key holds after both inserts exactly when each source table was keyed and no id is in both |
| UnifyTimeSeries.SelectTaggedKeyed | backend/migrations/versions/d2a7b13dbfea_unify_time_series.py:60 | the rows downgraded into one legacy table satisfy its primary key when the unified table did |
| UnifyTimeSeries.DowngradeAfterUpgrade | backend/migrations/versions/d2a7b13dbfea_unify_time_series.py:18-100 | downgrading the upgraded rows gives both source tables back exactly, as sequences and hence as multisets |
| UnifyTimeSeries.UpgradeAfterDowngradeIff | backend/migrations/versions/d2a7b13dbfea_unify_time_series.py:18-100 | upgrading the downgraded rows gives the unified table back as a multiset exactly when every row is tagged heart_rate or steps |
| UnifyTimeSeries.EnergyRowIsLost | backend/migrations/versions/d2a7b13dbfea_unify_time_series.py:82-100 | any row tagged energy in a keyed unified table reaches neither legacy table on downgrade and is absent after a later upgrade |
| UnifyTimeSeries.DowngradeIdsDisjoint | backend/migrations/versions/d2a7b13dbfea_unify_time_series.py:82-97 | the two legacy tables filled from a keyed unified table share no id, so the upgrade's primary key cannot clash on them |
| UnifyTimeSeries.Database.constructor | backend/migrations/versions/d2a7b13dbfea_unify_time_series.py:13 | a database at the previous revision holds the two keyed legacy tables and no unified table |
| UnifyTimeSeries.Database.Upgrade | backend/migrations/versions/d2a7b13dbfea_unify_time_series.py:18-50 | succeeds exactly when no id is in both legacy tables; then only data_point_series exists and holds the upgraded rows; otherwise nothing changes |
| UnifyTimeSeries.Database.Downgrade | backend/migrations/versions/d2a7b13dbfea_unify_time_series.py:53-100 | only the two legacy tables exist afterwards, holding the downgraded rows, both keyed |
| UnifyTimeSeries.Database.UpgradeThenDowngrade | backend/migrations/versions/d2a7b13dbfea_unify_time_series.py:18-100 | upgrading and then downgrading leaves both legacy tables exactly as they were, and the upgrade succeeds exactly when their ids are disjoint |
| UnifyTimeSeries.Database.DowngradeThenUpgrade | backend/migrations/versions/d2a7b13dbfea_unify_time_series.py:18-100 | downgrading and then upgrading always succeeds, and gives the unified rows back as a multiset exactly when every row is tagged heart_rate or steps |

## Left out

- Logging of the created id and the `handle_exceptions` wrapper around the queries: the wrapper's code is not part of this model; the model's queries cannot fail.
- `async` on the queries and the DB session parameter: one call is one step over the in-memory table.
- The module-level service instance and its alias: the model constructs a service object explicitly.
- Storage faults other than a primary-key clash (connection loss, timeouts): they come from the database, outside the model.
- Repository.DataPointSeriesRepository.Create: does not model the database rejecting a device id over 100 characters or a value outside `Numeric(10,3)`; such a payload would store nothing and stop a bulk create at that element. In the migration both sides share the column types, so no copy can fail on them.
- Time zones and the indexes the migration creates and drops: they do not change which rows exist.
- The `float` alternative of `value` and decimal rounding: values are exact integers in thousandths.
- Pydantic validation and UUID format: payloads are well-formed by construction, ids are opaque strings.
- The `SeriesTypeDefinition` catalogue table: a declaration with no behaviour.
- Row order from the database: a real query guarantees no order; the model returns table (insertion) order.
- A real failure of the migration mid-way on a database without transactional DDL: the model assumes the whole migration is one transaction.
