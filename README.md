# Weather pipeline: a Dafny model of its three handlers

The pipeline moves daily weather observations from the NOAA climate data
service into one cleaned CSV table, in three serverless handlers:

- the **ingestor** (`noaa_api.py`) asks the provider for one station's
  observations of one fixed day. It folds the result entries into a single
  record `{date, station, <datatype>: <value>, ...}` and publishes that record
  once onto a stream, under the partition key `weather-data`;
- the **sink** (`kinesis_s3.py`) takes each record the stream delivers, in
  order, and stores it as a JSON object under
  `weather_data/<date up to 'T'>/<datatype>_<timestamp>.json`;
- the **aggregator** (`s3_merge_cleaned.py`) lists the folders under
  `weather_data/` and reads every `.json` object in them. It drops the rows
  that lack a date or a station, parses the dates and sorts by date. It then
  writes the table to `cleaned/cleaned_weather_dataset.csv`.

Modules:

| file | module | models |
|---|---|---|
| `common.dfy` | `Common` | `Option`, `Result` |
| `json.dfy` | `Json` | JSON values and records, bytes, Python `str()` of a value |
| `text.dfy` | `Text` | prefixes and suffixes, `split(c)[0]`, the text after the last `c` |
| `storage.dfy` | `Storage` | the shared bucket: `put_object`, `get_object`, and `list_objects_v2` with and without the `/` delimiter; class `Bucket` holds the state that changes in place |
| `ingestor.dfy` | `Ingestor` | `noaa_api.py`, with class `Stream` for the stream |
| `sink.dfy` | `Sink` | `kinesis_s3.py` |
| `aggregator.dfy` | `Aggregator` | `s3_merge_cleaned.py` |
| `pipeline.dfy` | `Pipeline` | how the stages fit together |

Each handler is a `method` over the classes it changes. Each method is
proved equal to a specification function: `Ingestor.Ingest`, `Sink.Plan` or
`Aggregator.Run`. The properties are then proved about those functions as
lemmas.

The handlers' collaborators are parameters, not code:

- the provider's HTTP reply is a function `Query -> Reply`;
- base64 and JSON decoding is `decode: Bytes -> Option<Record>`, where `None`
  means the handler raises or skips;
- JSON encoding is `encode: Record -> Bytes`;
- the CSV writer is `encodeCsv: Table -> Bytes`;
- `datetime.now().timestamp()` for the i-th delivered record is `clock(i)`;
- `pd.to_datetime` of one date value is `parseDate: Value -> Option<int>`,
  an instant in nanoseconds. A non-null date that pandas reads as NaT (such
  as `""` or `"NaT"`) is given as a value above every valid instant. pandas
  instants are bounded by 64-bit nanoseconds, so such a row sorts last, as
  `sort_values` places NaT. `encodeCsv` writes that value as a blank cell.

The model follows the code:

- Nothing is deduplicated or grouped. Two records with the same date and
  station both become rows.
- The sort is not stable. No order among equal dates is promised.
- The sink has no error handling. The first record that cannot be decoded or
  keyed aborts the invocation, and the records before it stay stored.
- Status 400 means only that no object could be read. When objects were read
  but none survives cleaning, a header-only CSV is still written, with
  status 200.
- `dropna(subset=['date', 'station'])` raises when no record has a `date` or
  a `station` field at all. `pd.to_datetime` raises on a date it cannot
  parse. Both end in status 500.
- In `record[entry['datatype']] = entry['value']`, Python reads
  `entry['value']` first. An entry lacking both fields therefore fails on
  `value`.
- In the sink, a `date` field that is present but not a string raises at
  `split`. A missing `date` gives the folder `unknown`.

## Model

| member | source | states |
|---|---|---|
| Text.BeforeFirst | kinesis_s3.py:16 | `split('T')[0]`: a prefix of the date with no 'T' in it. It is shorter than the date exactly when the date has a 'T', and then it stops right before the first one. |
| Storage.Store.Get | s3_merge_cleaned.py:27 | `get_object` finds a body exactly when the key is stored, and the body it finds is the stored one. |
| Storage.Store.Put | kinesis_s3.py:23-28 | `put_object` creates or replaces the object at the key. The store stays consistent. An existing key keeps its place in the listing. |
| Storage.Store.PutAll | kinesis_s3.py:10-28 | A batch of puts issued in order. It keeps the store consistent, and the stored keys become the old keys plus the keys of the puts. |
| Storage.PutAllKeepsEach | kinesis_s3.py:23-28 | After a batch of puts with distinct keys, each put's body can be read back at its key. |
| Storage.PutAllLeavesOthers | kinesis_s3.py:23-28 | A key that no put in the batch names keeps its object, or stays absent. |
| Storage.Under | s3_merge_cleaned.py:22-23 | Listing under a prefix returns exactly the stored keys that start with the prefix, each as often as it is stored. |
| Storage.CommonPrefixes | s3_merge_cleaned.py:17-19 | The delimiter listing returns each folder once. Every folder has the shape prefix + segment + '/'. Every key with a '/' after the prefix yields its folder, and every folder comes from such a key. |
| Storage.FolderMatch | s3_merge_cleaned.py:18-23 | A key is listed under a folder exactly when that folder is the common prefix the key rolls up into. |
| Storage.Bucket.PutObject | s3_merge_cleaned.py:49 | The bucket's new state is the old state with the one object put. |
| Ingestor.Params | noaa_api.py:18-27 | The query names the GHCND dataset and the one station, asks for up to 1000 rows in standard units, and its window starts and ends on the run date. |
| Ingestor.Build | noaa_api.py:38-40 | The fold only adds fields to the record it starts from. When it raises, it raises for a missing `value` or `datatype`. |
| Ingestor.Ingest | noaa_api.py:29-40 | A request that raises and a status other than 200 both fail, the latter with the status and the text. A published record comes from a 200 reply with a non-empty result list and has a date and a station field. |
| Ingestor.BuildFails | noaa_api.py:39-40 | The fold over entries raises exactly when some remaining entry lacks a value or a datatype. |
| Ingestor.BuildKeys | noaa_api.py:38-40 | The folded record's fields are the seeded fields plus every datatype an entry names. |
| Ingestor.BuildKeeps | noaa_api.py:38-40 | A field that no later entry names keeps the value it had. |
| Ingestor.BuildLastWins | noaa_api.py:39-40 | Last write wins: a datatype's field holds the value of the last entry that names it. |
| Ingestor.IngestFails | noaa_api.py:29-40 | Nothing is published exactly when one of these holds: the request raises, the status is not 200, the body is not JSON, the results are empty, the first entry lacks a date or a station, or some entry lacks a value or a datatype. |
| Ingestor.PublishedFields | noaa_api.py:34-40 | A published record comes from a non-empty result list. Its fields are date, station and every datatype an entry names. |
| Ingestor.PublishedLastWins | noaa_api.py:39-40 | In the published record, each datatype holds the value of the last entry that names it. |
| Ingestor.PublishedSeed | noaa_api.py:38-40 | The first entry has a date and a station. The published record keeps them unless some entry's datatype is literally "date" or "station". |
| Ingestor.SingleDayWindow | noaa_api.py:18-27 | The query window starts and ends on the run date 2025-04-01. |
| Ingestor.TwoObservationsOneRecord | noaa_api.py:38-40 | Two observations (TMAX and TMIN) of one day fold into one record holding both. |
| Ingestor.Stream.PutRecord | noaa_api.py:44-48 | `put_record` appends exactly one record, with the given partition key and data. |
| Ingestor.Invoke | noaa_api.py:16-59 | The handler's outcome is `Ingest` of the reply to the fixed query. The status is 200 when the record is published and 500 otherwise. A published record is appended once, with partition key `weather-data`. A failure leaves the stream unchanged. |
| Sink.Partition | kinesis_s3.py:16 | The date segment is the date cut before its first 'T'. It is "unknown" without a date field, and the handler raises when the date is not a string. |
| Sink.Tag | kinesis_s3.py:17 | The tag is `weather` when the record has no datatype field, and the datatype itself when it is a string. |
| Sink.ObjectKey | kinesis_s3.py:20 | The key opens with `weather_data/<date>/` and closes with `_<timestamp>.json`. |
| Sink.ObjectKeyFolder | kinesis_s3.py:16-20 | A date segment without '/' is exactly the folder the key rolls up into under `weather_data/`. |
| Sink.KeyFor | kinesis_s3.py:16-20 | A record gets a key exactly when its date segment can be computed. The key opens with that segment's folder. |
| Sink.Step | kinesis_s3.py:12-28 | A payload is stored exactly when it decodes and its date segment can be computed. The stored body is the record's JSON. |
| Sink.Plan | kinesis_s3.py:10-34 | An invocation makes at most one put per record. When it raises, it raises at a record that cannot be stored. |
| Sink.KeyShape | kinesis_s3.py:20 | Every object key starts with `weather_data/`, ends with `.json`, and lies inside a folder under that prefix. |
| Sink.TokenRecovered | kinesis_s3.py:18-20 | A timestamp without '_' can be read back from the key built with it. |
| Sink.DistinctTokensDistinctKeys | kinesis_s3.py:18-20 | Two writes with different '_'-free timestamps never share a key, whatever their records. |
| Sink.PlanCompletes | kinesis_s3.py:10-34 | An invocation reaches status 200 exactly when every delivered record can be decoded and keyed. |
| Sink.PlanFollowsDelivery | kinesis_s3.py:10-28 | One put per record, in delivery order, up to the record that raised (excluded). The record a failed invocation stops at is one that cannot be stored. |
| Sink.PlanKeysDistinct | kinesis_s3.py:10-20 | A completed invocation with distinct '_'-free clock readings never puts two objects at one key. |
| Sink.EveryRecordStored | kinesis_s3.py:10-34 | After a completed invocation with distinct '_'-free timestamps, every delivered record's JSON can be read at its key. |
| Sink.StoreRecord | kinesis_s3.py:12-28 | One loop iteration: it stores the record's JSON at its key exactly when the record can be decoded and keyed, and otherwise leaves the bucket unchanged. |
| Sink.StepKeysDiffer | kinesis_s3.py:18-20 | Two records stored at different '_'-free timestamps get different keys. |
| Sink.Handle | kinesis_s3.py:9-34 | The handler makes exactly the puts of `Plan`, in order, on the bucket. It returns 200 when all records are stored, or raises at the first record that fails. |
| Aggregator.Listed | s3_merge_cleaned.py:17-23 | The nested listing visits only stored keys. |
| Aggregator.Enumerated | s3_merge_cleaned.py:17-23 | Every key the handler visits is a stored key. |
| Aggregator.Fetched | s3_merge_cleaned.py:24-32 | A visited key yields at most one record. It yields one exactly when the key ends in `.json`, is stored and its body decodes, and that record is the decoded body. |
| Aggregator.OneObjectAtATime | s3_merge_cleaned.py:23-32 | A visited key adds its record only when it ends in `.json`, is present and decodes. Otherwise it is skipped and the loop goes on. |
| Aggregator.EnumeratedOnce | s3_merge_cleaned.py:17-23 | The nested listing visits each stored key inside a folder under `weather_data/` exactly once, and visits no other key. |
| Aggregator.CollectFolder | s3_merge_cleaned.py:22-32 | The inner loop gathers the records of one folder's objects, in listing order. |
| Aggregator.Collect | s3_merge_cleaned.py:17-32 | The two nested loops yield all the records, folder after folder. |
| Aggregator.ColumnsAre | s3_merge_cleaned.py:41 | The DataFrame's columns are exactly the fields that occur in some record. |
| Aggregator.DropIncomplete | s3_merge_cleaned.py:42 | dropna keeps exactly the records with a non-null date and station, each as often as it occurs. |
| Aggregator.Stamp | s3_merge_cleaned.py:43 | to_datetime succeeds exactly when every date parses, and the rows then keep the records in order. |
| Aggregator.StampedRows | s3_merge_cleaned.py:43 | Each row holds one of the records and is dated by parsing that record's own date. |
| Aggregator.InsertByDate | s3_merge_cleaned.py:44 | One insertion step adds exactly the one row to the rows. |
| Aggregator.InsertByDateSorted | s3_merge_cleaned.py:44 | Inserting a row into rows sorted by date keeps them sorted. |
| Aggregator.SortByDate | s3_merge_cleaned.py:44 | sort_values('date') yields non-decreasing dates and a permutation of the rows. |
| Aggregator.InsertByDateRecords | s3_merge_cleaned.py:44 | Inserting a row adds exactly its record to the records of the rows. |
| Aggregator.SortByDateRecords | s3_merge_cleaned.py:44 | Sorting rows only reorders their records. |
| Aggregator.Clean | s3_merge_cleaned.py:41-44 | dropna raises exactly when no record has a date field or none has a station field. A cleaned table's columns are every field seen. |
| Aggregator.CleanSucceeds | s3_merge_cleaned.py:41-44 | Cleaning fails exactly when the date or station column is missing altogether, or a surviving date does not parse. |
| Aggregator.CleanedTable | s3_merge_cleaned.py:41-44 | The columns are all fields seen, and the rows are sorted by date. Every row has a date and a station. The rows' records are exactly the complete parsed records, with their multiplicities. |
| Aggregator.CleanedRows | s3_merge_cleaned.py:42-44 | Every row of the sorted table has a date and a station, and is dated by parsing its date. |
| Aggregator.CleanedRecords | s3_merge_cleaned.py:42-44 | The sorted table's records are the complete parsed records, each as often as it was parsed. |
| Aggregator.NothingComplete | s3_merge_cleaned.py:42 | When no record has both a date and a station, dropna keeps nothing. |
| Aggregator.HeaderOnlyTable | s3_merge_cleaned.py:34-49 | When records were parsed but none is complete, the table has its header and no rows, and it is still written. |
| Aggregator.Decide | s3_merge_cleaned.py:34-60 | The outcome is "no data" (400) exactly when no record was collected. A written table has a column for every field collected. |
| Aggregator.Run | s3_merge_cleaned.py:17-60 | An invocation finds no data exactly when the bucket yields no record. |
| Aggregator.Aggregate | s3_merge_cleaned.py:11-60 | The outcome is `Run` of the bucket, with status 400 when no record was read, 500 when cleaning raises, and 200 when the CSV is written. Only the 200 case puts an object: the CSV at `cleaned/cleaned_weather_dataset.csv`. |
| Aggregator.CleanAndUpload | s3_merge_cleaned.py:34-60 | From the collected records: status 400 with no put when none was read, 500 with no put when cleaning raises, otherwise 200 with the CSV put at the output key. The outcome is `Decide` of the records. |
| Aggregator.OutputKeyOutsideInput | s3_merge_cleaned.py:8-9 | The output key lies in no input folder. |
| Aggregator.RerunIsDeterministic | s3_merge_cleaned.py:8-49 | Writing the output does not feed back: a second run collects the same records and reaches the same outcome. |
| Pipeline.SinkKeysAreAggregated | kinesis_s3.py:20 | Every key the sink writes is one the aggregator's listing visits and whose `.json` suffix it accepts. |
| Pipeline.StoredRecordIsCollected | s3_merge_cleaned.py:17-30 | A `.json` object in a folder under `weather_data/` whose body decodes is collected. |
| Pipeline.SinkThenAggregate | kinesis_s3.py:10-28 | After a completed sink invocation with distinct '_'-free timestamps, and with a codec that reads back what it wrote, the aggregator collects every delivered record. |
| Pipeline.PublishedRecordPlacement | noaa_api.py:38-40 | When no entry's datatype is literally `date` or `datatype`, the sink files the ingestor's record under the first entry's date cut at 'T', with the default tag `weather`. |
| Pipeline.PublishedRecordIsComplete | noaa_api.py:38-40 | The ingestor's record survives dropna when the first entry's date and station are not null and no entry's datatype is literally `date` or `station`. |

## Left out

- HTTP, AWS clients, environment configuration, the bucket and stream names, and the logging `print`s are not modelled. The provider's reply, the stream and the bucket are parameters.
- Base64, JSON and CSV formatting are parameters, and so are the text of the response bodies. JSON numbers are integers, and nested JSON values are not modelled.
- An entry whose `datatype` is not a string is not modelled. Python would use any hashable JSON value as the key.
- A body that decodes to a JSON value other than an object would be appended by the aggregator and handed to pandas. The model treats it as a decode failure and skips it.
- Failures of `put_record`, `put_object` and `list_objects_v2` are not modelled. A failed `get_object` is modelled as the skip the code performs.
- Storage.CommonPrefixes: the listing order is the order in which keys were first written, not the lexicographic order S3 returns. The 1000-key page limit of one listing call is not modelled either.
- Aggregator.ColumnsAre: the column order of the CSV header is not modelled; the columns are a set.
- Aggregator.SortByDate: ties are broken in insertion-sort order. pandas promises no order among equal dates, and no lemma depends on that order.
- Aggregator.Stamp: a date that pandas reads as NaT is modelled only through the value `parseDate` gives it (see above). No lemma singles out such rows.
- Aggregator.Stamp: pandas infers one date format for the whole column. The model parses each date on its own.
- Sink.Tag: a datatype field that is not a string is formatted by `Json.Show`, Python's `str()`. The contract names only the absent and the string cases.
- Sink.EveryRecordStored: requires distinct clock readings. Two records stored within the clock's resolution would share a key, and the later put would replace the earlier one.
- Content-type metadata on stored objects is not modelled.
- Lambda retries after a raised sink invocation are not modelled.
- The dashboard (`weather_dashboard.py`) is not part of this model.
