# Weatherstack ETL: a Dafny model of the extract and load tasks

The repository defines one daily Airflow job. `extract_weather` asks the
Weatherstack current-weather endpoint about every configured city. It keeps the
answers that are well formed and flattens each one into a record.
`load_weather_to_postgres` creates the destination table if needed, bulk-inserts
the records as 19-value tuples in one transaction, commits or rolls back, and
closes the connection.

This project models those two task bodies (`dags/weatherstack_etl_v2.py`).

- `wrappers.dfy`: `Option` and `Result`. A `Failure` stands for a Python exception.
- `json.dfy`: decoded JSON values. `Get` is Python's `dict.get`: an absent key reads as `None`, the same as JSON null.
- `record.dfy`: the flat weather record and its column order. `ToRow` builds the tuple of line 108; `FromRow` reads a record back from a row.
- `extract.dfy`: the extraction, in module `Extraction`.
  - `BuildRequest` is the `params` dict.
  - `Classify` holds the two response checks; `MapRecord` is the `row` dict; `CityStep` is one loop iteration.
  - `Extract` is the result of the whole run, and `ExtractWeather` is the `for` loop proved equal to it.
  - The HTTP fetch with its JSON decoding, the date parser, `time.mktime` and `float` are the functions of an `Env`. Each returns `None` where the Python call raises.
- `load.dfy`: the load, in module `Load`.
  - `Database` stands for the database reached through `PostgresClient`. It keeps a ghost log of every call, the committed rows and the open transaction's rows.
  - Which calls raise is an input (`failing`).
  - `LoadWeatherToPostgres` is the task body, proved to produce exactly the trace given by `LoadTrace`. Its `try` block is `InsertBatch`, specified by `TryTrace`.
- `pipeline.dfy`: the two tasks chained as the DAG chains them, with a concrete two-city run.

Behaviours of the code a reader might not expect:

- A `localtime` that is missing or cannot be parsed raises, and that ends the whole extraction. The city is not skipped.
- `condition` and `condition_icon` raise `IndexError` on an empty list; they do not become null. A string value gives its first character.
- A response with `success: false` but no `error` dict raises while the log line is built, so it is not skipped.
- A failure while connecting or creating the table (lines 99-100) happens before the `try`. The connection is then never closed.

## Model

| member | source | states |
|---|---|---|
| `WeatherRecord.ToRow` | dags/weatherstack_etl_v2.py:101-108 | each record becomes a 19-value tuple; position i holds the record's value under the i-th column name, and no column lookup can fail |
| `WeatherRecord.RowRoundTrip` | dags/weatherstack_etl_v2.py:101-108 | the record can be read back from its row, so the tuple loses nothing |
| `WeatherRecord.Field` | dags/weatherstack_etl_v2.py:101-108 | `record[col]`: a value exactly for the 19 column names, a `KeyError` (None) for any other key |
| `WeatherRecord.Rows` | dags/weatherstack_etl_v2.py:108 | the comprehension yields one 19-value row per record; `RowsReadBack` and `RowsInjective` state that the rows are the records' own |
| `WeatherRecord.RowsReadBack` | dags/weatherstack_etl_v2.py:108 | the i-th row of the batch reads back as the i-th record |
| `WeatherRecord.RowsInjective` | dags/weatherstack_etl_v2.py:108 | two record lists with the same rows are the same list |
| `Json.Get` | dags/weatherstack_etl_v2.py:45-85 | `dict.get`: a present key reads as the value stored under it; an absent key reads as None |
| `Extraction.BuildRequest` | dags/weatherstack_etl_v2.py:43-47 | the request succeeds exactly for a dict city with a `name`; `units` is `m`; the key is the configured one; `query` is `lat_long` when present, else `name`; a non-dict city raises `AttributeError` |
| `Extraction.LatLongOverridesName` | dags/weatherstack_etl_v2.py:45 | with `lat_long` present, changing the name does not change the request |
| `Extraction.FirstOf` | dags/weatherstack_etl_v2.py:76-77 | absent key gives None; a list gives its first element and raises `IndexError` when empty; a string gives its first character and raises `IndexError` when empty; a dict raises `KeyError(0)`; None, a number or a bool raises `TypeError`; only a list or string can succeed |
| `Extraction.MapRecord` | dags/weatherstack_etl_v2.py:58-86 | a record exists iff `location` and `current` are dicts, `localtime` is a string that parses, mktime, `float(lat)` and `float(lon)` succeed, and both list fields index; otherwise the first failing step's exception in Python's order (`AttributeError`, `TypeError`, parse error, `OverflowError`, `FloatError` for lat then lon, `AttributeError` on `current`, then the exception of indexing `weather_descriptions`, then of `weather_icons`); the local time is the parse of `localtime` and the epoch is mktime of that same time; every field is copied from its named key |
| `Extraction.Classify` | dags/weatherstack_etl_v2.py:50-59 | a non-dict response raises `AttributeError`; a record only comes from a dict not flagged failed with both sections; a `success: false` response never yields one (exact conditions in `ApiErrorSkipExactly` and `MissingSectionSkips`) |
| `Extraction.CityStep` | dags/weatherstack_etl_v2.py:43-88 | one iteration: a request that cannot be built raises its exception, a failed fetch raises `TransportError`, and a skip or record implies the city was fetched |
| `Extraction.ApiErrorSkips` | dags/weatherstack_etl_v2.py:50-52 | a `success: false` response never yields a record; it is skipped exactly when it carries an `error` dict |
| `Extraction.ApiErrorSkipExactly` | dags/weatherstack_etl_v2.py:50-52 | a city is skipped as an API error iff its response is a dict with `success` exactly `false` and an `error` dict; a missing or `true` flag never triggers it |
| `Extraction.MissingSectionSkips` | dags/weatherstack_etl_v2.py:54-56 | a city is skipped as invalid iff its response is a dict not flagged failed that lacks `location` or `current` |
| `Extraction.EmittedRecordOrigin` | dags/weatherstack_etl_v2.py:50-88 | an emitted record comes from a dict response that is not flagged failed and has both sections; it is that response's mapping, and its epoch is mktime of its local time |
| `Extraction.WellFormedEmits` | dags/weatherstack_etl_v2.py:50-88 | a dict response not flagged failed, with both sections as dicts and fields that convert, yields a record rather than an exception |
| `Extraction.Extract` | dags/weatherstack_etl_v2.py:40-90 | the run's result, never more records than cities; characterised by `ExtractSelectsEmitters`, `ExtractLength`, `FirstAbortFails`, `FailureHasFirstAbort` and `ExtractConcat` |
| `Extraction.FailureSticks` | dags/weatherstack_etl_v2.py:42-90 | an exception raised while processing a prefix of the cities is the result of the whole run |
| `Extraction.EmittersValid` | dags/weatherstack_etl_v2.py:42-88 | every emitting position is the index of a city whose iteration appends a record, and there are at most as many as cities |
| `Extraction.EmittersIncreasing` | dags/weatherstack_etl_v2.py:42-88 | the emitting positions follow the order of the loop, strictly increasing |
| `Extraction.EmittersComplete` | dags/weatherstack_etl_v2.py:42-88 | no city whose iteration appends a record is missing from the emitting positions |
| `Extraction.EmittersExact` | dags/weatherstack_etl_v2.py:42-88 | the emitting positions are valid, strictly increasing, each names an emitting city, and every emitting city is among them |
| `Extraction.CompletedRunHasNoAbort` | dags/weatherstack_etl_v2.py:42-90 | in a run that completes no city raised |
| `Extraction.RecordsFollowEmitters` | dags/weatherstack_etl_v2.py:42-90 | the j-th record of a completed run is the record of the j-th emitting city |
| `Extraction.ExtractSelectsEmitters` | dags/weatherstack_etl_v2.py:40-42 | in a completed run no city raised; the j-th record is the record of the j-th emitting city; the emitting positions strictly increase (order kept, at most one record per city) and every emitting city is among them |
| `Extraction.ExtractLength` | dags/weatherstack_etl_v2.py:88-90 | number of records plus number of skipped cities equals the number of cities, so there are at most as many records as cities |
| `Extraction.NoAbortSucceeds` | dags/weatherstack_etl_v2.py:42-90 | when no city raises, the run completes |
| `Extraction.FirstAbortFails` | dags/weatherstack_etl_v2.py:42-90 | the first city that raises ends the run with its exception, whatever the later cities would do |
| `Extraction.FailureHasFirstAbort` | dags/weatherstack_etl_v2.py:42-90 | a run that raises does so with the exception of a city before which no city raised |
| `Extraction.ExtractConcat` | dags/weatherstack_etl_v2.py:42-90 | running over two city lists in turn equals running over their concatenation |
| `Extraction.SkippedCityInvisible` | dags/weatherstack_etl_v2.py:50-56 | removing a skipped city from the configuration does not change the result |
| `Extraction.BadLocalTimeAbortsRun` | dags/weatherstack_etl_v2.py:62-64 | a city that passes both checks but has a missing, non-string or unparsable `localtime` ends the whole run with that exception |
| `Extraction.ExtractWeather` | dags/weatherstack_etl_v2.py:38-90 | the loop's result equals `Extract`: the emitting cities' records in order, or the first exception |
| `Load.Database.constructor` | dags/weatherstack_etl_v2.py:99 | a database with the given committed rows, no connection, and an empty log |
| `Load.Database.Connect` | dags/weatherstack_etl_v2.py:99 | logs the connection attempt; the connection is open iff connecting does not raise |
| `Load.Database.Execute` | dags/weatherstack_etl_v2.py:100 | logs the create statement; it writes no rows |
| `Load.Database.ExecuteMany` | dags/weatherstack_etl_v2.py:110 | logs the bulk insert; on success all rows join the open transaction, on failure none do |
| `Load.Database.Commit` | dags/weatherstack_etl_v2.py:111 | logs the commit; on success the transaction's rows are appended to the table and the transaction is emptied |
| `Load.Database.Rollback` | dags/weatherstack_etl_v2.py:114 | logs the rollback; on success the transaction's rows are discarded |
| `Load.Database.Close` | dags/weatherstack_etl_v2.py:117 | logs the close; on success the connection is closed and uncommitted rows are discarded |
| `Load.InsertBatch` | dags/weatherstack_etl_v2.py:109-117 | on an open connection: insert, then commit; an insert or commit that raises leads to a rollback; close always runs; the log, outcome, table and connection are those of `TryTrace` |
| `Load.LoadWeatherToPostgres` | dags/weatherstack_etl_v2.py:93-117 | the calls made, the outcome, and the final table, connection and transaction are those of `LoadTrace`; the table grows by exactly the records' rows or stays unchanged |
| `Load.EmptyBatchTouchesNothing` | dags/weatherstack_etl_v2.py:95-97 | no database call is made iff the batch is empty, and an empty batch returns normally; otherwise connecting comes first |
| `Load.CloseExactlyOnceAfterTry` | dags/weatherstack_etl_v2.py:99-117 | once the `try` is reached, close is called exactly once and last; a create failure escapes with no close and leaves the connection open |
| `Load.CreateBeforeInsert` | dags/weatherstack_etl_v2.py:100-110 | the create statement runs before the bulk insert |
| `Load.CommitOrRollback` | dags/weatherstack_etl_v2.py:109-114 | inside the `try` exactly one of a successful commit and a rollback happens; rows are committed iff the `try` is reached and insert and commit succeed; outside it neither commit nor rollback is called |
| `Load.InsertFailureNotReraised` | dags/weatherstack_etl_v2.py:113-117 | inside the `try` the task returns normally iff close does not raise and rollback, when needed, does not raise |
| `Load.InsertedRowsMatchRecords` | dags/weatherstack_etl_v2.py:107-110 | the bulk insert uses the configured statement and one 19-value row per record, in order; it happens iff the `try` is reached |
| `Pipeline.OneValidOneRejected` | dags/weatherstack_etl_v2.py:120-121 | a valid city followed by a skipped one gives exactly that city's record, and the insert carries exactly its one row |
| `Pipeline.SampleRejected` | dags/weatherstack_etl_v2.py:43-52 | a city without coordinates is queried by its name; the API's `invalid access key` answer to that query skips it with that message |
| `Pipeline.SampleAccepted` | dags/weatherstack_etl_v2.py:43-86 | a city with coordinates is queried by them; its record copies name, coordinates, temperature and first condition from the payload, absent `region` and `weather_icons` become None, and the epoch is mktime of the parsed local time |
| `Pipeline.SampleRun` | dags/weatherstack_etl_v2.py:38-90 | the concrete two-city run, in a world where `float` refuses None as Python does, extracts exactly one record, from the city with coordinates |

## Left out

- Configuration loading (`dags/dag_utils/config_loader.py`) and the module-level reads of lines 9-18. The access key, the city list, the connection parameters and both SQL statements are parameters.
- DAG construction and scheduling (lines 20-34, 119-121). Airflow runs the load only after a successful extract; the model states the composition as lemmas and has no scheduler.
- `requests.get` and `response.json()` (lines 48-49). They are `Env.fetch`, and every way they can raise is one `TransportError`. Timeouts and HTTP status codes are not modelled.
- `dateutil` parsing and `time.mktime` (lines 63-64). They are uninterpreted functions. Without a `default`, dateutil fills missing date parts from today's date and so reads the clock; `Env.parseTime` is a fixed function and does not capture that. `DateTime` has naive calendar fields only, so time zones and microseconds are not modelled. `int(...)` of the mktime float is folded into `Env.mktime`.
- `float(...)` of latitude and longitude (lines 70-71). It is `Env.toFloat`, which may fail. Values are `real`, not IEEE doubles.
- The `print` log lines. A skip records its reason and the logged detail, but no log output is modelled. Exceptions carry their kind, not their message.
- `PostgresClient` internals and the SQL text. `Database` models only the order of the calls, the committed and pending rows, and which calls raise.
- `Load.Database.ExecuteMany`: a failing `executemany` adds no rows to the transaction. The model does not capture rows written before the failure, because the rollback that always follows discards them.
- Line 108 raising `KeyError` for a record that lacks a column cannot occur here: a `Record` always has all 19 fields. Airflow's serialisation of the record list between the tasks is not modelled.
