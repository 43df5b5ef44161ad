# Statistics Canada connector, modelled in Dafny

This project models the core of a small ETL connector for the Statistics Canada Web Data Service (WDS). The connector fetches the cube catalogue and a set of key economic-indicator vectors, flattens the raw JSON into tables, checks each table against a rule set, and then uploads and publishes it.

The model covers these parts:

- **`PyJson`** (`pyjson.dfy`): the JSON values the jobs read, and the Python semantics they rely on.
  - `dict.get` with and without a default.
  - The `AttributeError` raised when `.get` is called on a non-dict.
  - Truthiness.
  - Dict-key equality, where `True`, `1` and `float(1)` are one key and lists and dicts are unhashable.
  - What a `for` loop visits.
  - `str()` and `float()`.
  - Results carrying the first exception.
- **`Sink`** (`sink.dfy`): the foreign raw store, `validate` and the upload/publish sink.
  - These are seen only as an ordered trace of calls.
  - A rule dict handed to `validate` is a predicate over the table.
- **`Indicators`** (`indicators.dfy`, with `IndicatorSchema`, `IndicatorsTest` and `IndicatorScenarios`): the `transforms/economic_indicators/` package and its `test.py`.
  - It builds a status-filtered lookup, joins every point of every SUCCESS data entry against it, and refuses an empty result.
  - It validates the table, including the distinct-vector assertion, then overwrites the dataset and publishes.
- **`LegacyIndicators`** (`legacy_indicators.dfy`): the older module `transforms/economic_indicators.py`, which shares the package's name and dataset id.
  - It has no status filter.
  - Its lookup holds whole objects.
  - Absent fields default to `""`.
  - A non-null `value` goes through `float()`.
  - There is no empty-result check.
- **`Cubes`** (`cubes.dfy`): `transforms/cubes.py`, a one-to-one mapping of raw cubes to catalogue records, plus its rule set.
- **`StatCanClient`** (`statcan_client.dfy`): `utils/statcan_client.py`.
  - It covers URL formation, the batched POST bodies and the status check made before the body is returned.
  - The transport is a parameter `send`.
- **`Orchestrator`** (`orchestrator.dfy`): `main.py`. Two flags choose the phases, and the four jobs run in a fixed order after the environment check.

Each transform is modelled in two parts:

- **A specification function.** It is defined by recursion on the prefix of its input, so it follows the loop's own order, and the first exception wins.
- **An imperative method.** It renders the source's `for` loops as index-based `while` loops and is proved to compute exactly that function.

The lemmas state what the source promises about the functions: lookup rules, counts, order, fields, defaults and validation verdicts. Each `Run` method states the outcome, and the order of the calls to the sink, for every raw input.

## Model

| member | source | states |
|---|---|---|
| PyJson.NatToString | src/transforms/economic_indicators/main.py:64 | `str()` of a natural number is a non-empty string of decimal digits |
| PyJson.NatToStringRoundTrip | src/transforms/economic_indicators/main.py:64 | reading back the digits `str()` writes gives the number again |
| PyJson.IntToStringRoundTrip | src/transforms/cubes.py:57 | `int(str(i)) == i` for every int, negative ones included |
| PyJson.IntToStringInjective | src/transforms/cubes.py:57 | distinct int product ids stay distinct after `str()` |
| PyJson.ToFloatOfNumber | src/transforms/economic_indicators.py:82 | `float()` of a bool, a float or an int below the double overflow bound (2^1024 - 2^970 in magnitude) yields a float, and a float is unchanged; a larger int raises `OverflowError`, and nothing else is raised |
| PyJson.ModerateIntsFit | src/transforms/economic_indicators.py:82 | every int of magnitude up to 2^1023 lies below that bound, so `float()` converts it without raising |
| PyJson.Truthy | src/transforms/economic_indicators/main.py:60 | `if vector_id:` rejects exactly None, False, 0, a zero float, the empty str, the empty list and the empty dict |
| PyJson.HashKey | src/transforms/economic_indicators/main.py:61 | a value can key a dict iff it is neither a list nor a dict |
| PyJson.HashKeyIsEquality | src/transforms/economic_indicators/main.py:77 | two hashable values find the same dict entry iff Python's `==` holds between them: numbers by value across bool, int and `float(n)`, strs by text, None only with None |
| PyJson.LoopElements | src/transforms/economic_indicators/main.py:56-57 | a `for` loop whose body starts with `.get` visits the items of a list; an empty str or dict gives no pass; a non-empty str or dict raises `AttributeError`; anything else raises `TypeError` |
| PyJson.PyStr | src/transforms/economic_indicators/main.py:64 | `str()` of a str is that str, of None is "None", of a bool "True" or "False", and of an int a text that reads back as the same int |
| Indicators.BuildLookup | src/transforms/economic_indicators/main.py:55-67 | the metadata loop yields exactly the lookup of the specification, or the first exception it raises |
| Indicators.SeriesEntryAdmits | src/transforms/economic_indicators/main.py:56-67 | one series entry is stored under a key iff it is a dict with status SUCCESS, a dict object and a truthy vectorId standing for that key; what is stored is its five metadata fields |
| Indicators.LookupStep | src/transforms/economic_indicators/main.py:56-67 | after one more entry, an admitted entry's key holds its metadata and every other key keeps its presence and value |
| Indicators.LookupKeys | src/transforms/economic_indicators/main.py:56-61 | a vector id is in the lookup iff some series entry with status SUCCESS and that truthy vectorId exists, so a 0, null or empty id never enters |
| Indicators.LookupLastWins | src/transforms/economic_indicators/main.py:60-67 | the lookup holds the metadata of the last admitted entry for an id, so a later duplicate overwrites an earlier one |
| Indicators.PointRowsAt | src/transforms/economic_indicators/main.py:79-95 | the inner loop emits one record per point, in point order |
| Indicators.EntryRowsAt | src/transforms/economic_indicators/main.py:70-95 | a data entry yields as many records as its SUCCESS points; each is built from the entry's vectorId and the lookup's metadata for it |
| Indicators.RecordCount | src/transforms/economic_indicators/main.py:69-95 | the record count is the sum of the point counts of the SUCCESS data entries; a missing object or vectorDataPoint counts as zero |
| Indicators.FlattenAround | src/transforms/economic_indicators/main.py:69-95 | the records split around entry i: those of the entries before it, then its own, then those of the entries after it |
| Indicators.RecordIs | src/transforms/economic_indicators/main.py:69-95 | point j of SUCCESS entry i is the record right after the points of the SUCCESS entries before i |
| Indicators.RecordAt | src/transforms/economic_indicators/main.py:74-95 | records follow entry order, then point order; each carries the entry's vectorId (even null) and eight fields copied from the point; a lookup hit gives the metadata's five fields, a miss gives five nulls |
| Indicators.FlattenAppend | src/transforms/economic_indicators/main.py:69-95 | flattening a concatenation is flattening each part and joining the results, with the first exception winning |
| Indicators.SkippedEntry | src/transforms/economic_indicators/main.py:70-72 | a data entry whose status is not SUCCESS contributes nothing: removing it leaves the result unchanged |
| Indicators.EmptyResult | src/transforms/economic_indicators/main.py:97-98 | the run fails with `ValueError("No economic indicator data found")` exactly when no SUCCESS entry has a point; otherwise there is one record per such point |
| Indicators.JoinedMetadata | src/transforms/economic_indicators/main.py:55-95 | on the whole document, a record's metadata is that of the last admitted series entry for its vector id, and null when none was admitted |
| Indicators.AppendPoints | src/transforms/economic_indicators/main.py:79-95 | the appending loop extends the record list by exactly the point rows of the specification, or stops at the first non-dict point |
| Indicators.EntryHeader | src/transforms/economic_indicators/main.py:71-77 | one pass of the outer loop either skips a non-SUCCESS entry (no records), raises as the specification does, or hands the inner loop the entry's vectorId, joined metadata and points, whose rows are exactly the entry's records |
| Indicators.FlattenData | src/transforms/economic_indicators/main.py:69-95 | the outer loop yields exactly the specification's records or its first exception |
| Indicators.BuildRecords | src/transforms/economic_indicators/main.py:51-98 | reading both lists, the two loops and the empty check yield exactly `Records(raw)` |
| Indicators.MetadataStops | src/transforms/economic_indicators/main.py:56-67 | once a prefix of the series raises, the whole loop raises the same exception |
| Indicators.FlattenStops | src/transforms/economic_indicators/main.py:70-95 | once a prefix of the data raises, the whole loop raises the same exception |
| Indicators.PointRowsStop | src/transforms/economic_indicators/main.py:79-95 | once a prefix of the points raises, the inner loop raises the same exception |
| Indicators.Run | src/transforms/economic_indicators/main.py:49-106 | an exception while building records passes through, and otherwise the test decides the outcome; calls are a prefix of load, validate, overwrite upload, publish; validation happens iff records were built; upload and publish happen iff the run succeeds |
| IndicatorsTest.Test | src/transforms/economic_indicators/test.py:5-19 | the test fails only with a validation error or the distinct-vector assertion; a pass means at least 100 rows and at least 5 distinct vector ids |
| IndicatorsTest.RulesByColumn | src/transforms/economic_indicators/test.py:7-16 | the rules pass iff there are at least 100 rows, every vector_id is a non-null int, every ref_period a non-null str, and value and title_en are of their declared types |
| IndicatorsTest.TestVerdict | src/transforms/economic_indicators/test.py:5-19 | the test passes iff the rules hold and there are at least 5 distinct vector ids; a rule violation raises from validate, and too few vectors raise from the assertion |
| IndicatorsTest.VectorIdsBound | src/transforms/economic_indicators/test.py:18 | no table has more distinct vector ids than rows |
| IndicatorsTest.RowRules | src/transforms/economic_indicators/test.py:8-14 | a row meets the column and not-null rules iff vector_id is an int, ref_period a str, value a number or null and title_en a str or null |
| IndicatorScenarios.GdpLookup | src/transforms/economic_indicators/main.py:55-67 | one SUCCESS series entry for vector 1 yields a one-key lookup |
| IndicatorScenarios.GdpMetaOf | src/transforms/economic_indicators/main.py:61-67 | the series entry's metadata holds its titles, coordinate and frequency, and product id 101 stored as "101" |
| IndicatorScenarios.ProductIdText | src/transforms/economic_indicators/main.py:64 | `str(101)` is "101" |
| IndicatorScenarios.GdpEntry | src/transforms/economic_indicators/main.py:70-95 | the SUCCESS data entry for vector 1 yields exactly the one expected row, with the lookup's metadata joined |
| IndicatorScenarios.GdpRows | src/transforms/economic_indicators/main.py:69-95 | the one data point of vector 1 becomes the one expected row |
| IndicatorScenarios.OneSeriesScenario | src/transforms/economic_indicators/main.py:51-98 | a one-series, one-point document yields exactly the row `vector_id=1, ref_period="2024-01", value=100.5, title_en="GDP", product_id="101", coordinate="1.1", frequency=12` with nulls elsewhere |
| IndicatorScenarios.FailedOnlyScenario | src/transforms/economic_indicators/main.py:70-72 | a FAILED entry yields no rows and raises nothing itself; if it is the only entry, the run fails with the empty-result error |
| LegacyIndicators.LookupStep | src/transforms/economic_indicators.py:58-62 | after one more entry, an admitted entry's key holds its whole object and every other key keeps its presence and value |
| LegacyIndicators.LookupKeys | src/transforms/economic_indicators.py:58-62 | a vector id is in the lookup iff some series entry with that truthy vectorId exists, whatever its status |
| LegacyIndicators.LookupLastWins | src/transforms/economic_indicators.py:58-62 | the lookup holds the whole object of the last entry with that id |
| LegacyIndicators.StatusIgnored | src/transforms/economic_indicators.py:58-68 | changing an entry's status changes neither what it adds to the lookup nor the records it yields |
| LegacyIndicators.PointRowsAt | src/transforms/economic_indicators.py:73-87 | the inner loop emits one record per point, in point order |
| LegacyIndicators.EntryRowsAt | src/transforms/economic_indicators.py:65-87 | every data entry, of any status, yields one record per point |
| LegacyIndicators.RecordCount | src/transforms/economic_indicators.py:64-87 | the record count is the total number of points over all data entries |
| LegacyIndicators.FlattenAround | src/transforms/economic_indicators.py:64-87 | the records split around entry i: those of the entries before it, then its own, then those of the entries after it |
| LegacyIndicators.RecordIs | src/transforms/economic_indicators.py:64-87 | point j of entry i is the record right after the points of the entries before i |
| LegacyIndicators.RecordAt | src/transforms/economic_indicators.py:71-86 | each record has the entry's vectorId; date and symbol come from the point or default to ""; a null value stays null and any other goes through float(); on a lookup miss, product_id, coordinate, both titles, scalar_factor, frequency and uom are ""; on a hit they are the object's fields (str() for product_id, scalar_factor, frequency and uom) or "" when absent |
| LegacyIndicators.RowRules | src/transforms/economic_indicators.py:30-43 | a row meets the column and not-null rules iff date is a str, vector_id an int and coordinate, both titles, value and symbol are of their declared types or null |
| LegacyIndicators.Test | src/transforms/economic_indicators.py:27-45 | the test fails only with a validation error; a pass means at least 100 rows |
| LegacyIndicators.TestVerdict | src/transforms/economic_indicators.py:27-45 | the rules pass iff there are at least 100 rows, every date is a non-null str, every vector_id a non-null int, and the other columns are of their declared types; an empty table fails validation |
| LegacyIndicators.BuildSeriesLookup | src/transforms/economic_indicators.py:57-62 | the lookup loop yields exactly the lookup of the specification or its first exception |
| LegacyIndicators.EntryHeader | src/transforms/economic_indicators.py:66-71 | one pass of the outer loop either raises as the specification does or hands the inner loop the entry's vectorId, its series object and its points, whose rows are exactly the entry's records |
| LegacyIndicators.PointRecord | src/transforms/economic_indicators.py:74-87 | one point gives exactly the specification's record, or the exception `.get` or `float()` raises |
| LegacyIndicators.AppendPoints | src/transforms/economic_indicators.py:73-87 | the appending loop extends the records by exactly the point rows of the specification, or stops at the first exception from `.get` or `float()` |
| LegacyIndicators.FlattenData | src/transforms/economic_indicators.py:64-87 | the outer loop yields exactly the specification's records or its first exception |
| LegacyIndicators.BuildRecords | src/transforms/economic_indicators.py:51-87 | reading both lists and running both loops yields exactly `Records(raw)`, with no empty check |
| LegacyIndicators.LookupStops | src/transforms/economic_indicators.py:58-62 | once a prefix of the series raises, the whole loop raises the same exception |
| LegacyIndicators.FlattenStops | src/transforms/economic_indicators.py:65-87 | once a prefix of the data raises, the whole loop raises the same exception |
| LegacyIndicators.PointRowsStop | src/transforms/economic_indicators.py:73-87 | once a prefix of the points raises, the inner loop raises the same exception |
| LegacyIndicators.Run | src/transforms/economic_indicators.py:48-94 | an exception while building records passes through, and otherwise the test decides the outcome; calls are a prefix of load, validate, default-mode upload, publish; upload and publish happen iff the run succeeds, so an empty result stops at validation |
| Cubes.OneToOne | src/transforms/cubes.py:54-68 | the mapping succeeds iff every raw element is a dict; record i is the record of cube i, and the counts are equal |
| Cubes.CubeFields | src/transforms/cubes.py:56-68 | product_id, subject_code and survey_code are str() of the field or "" when absent; archived and frequency_code pass through, null when absent; cansim_id, both titles, start_period, end_period and release_time default to "" |
| Cubes.RowRules | src/transforms/cubes.py:30-43 | a row meets the column and not-null rules iff cube_title_en is a str and every other nullable column is of its declared type or null |
| Cubes.Test | src/transforms/cubes.py:27-46 | the test fails only with a validation error; a pass means at least 100 rows |
| Cubes.TestVerdict | src/transforms/cubes.py:27-46 | the rules pass iff there are at least 100 rows, every cube_title_en is a non-null str, the columns have their declared types, and product ids are pairwise distinct |
| Cubes.MissingIdsCollide | src/transforms/cubes.py:43-45 | two cubes without productId both map to "", so the catalogue fails the uniqueness rule |
| Cubes.BuildRecords | src/transforms/cubes.py:54-68 | the loop yields exactly the specification's records or the first exception |
| Cubes.MapStops | src/transforms/cubes.py:55-68 | once a prefix of the cubes raises, the whole loop raises the same exception |
| Cubes.Run | src/transforms/cubes.py:49-75 | an exception while building records passes through, and otherwise the test decides the outcome; calls are a prefix of load, validate, overwrite upload, publish; upload and publish happen iff the run succeeds |
| StatCanClient.Url | src/utils/statcan_client.py:13 | the URL is the base, a slash, then exactly the endpoint |
| StatCanClient.UrlInjective | src/utils/statcan_client.py:13 | distinct endpoints give distinct URLs |
| StatCanClient.BothVerbsShareUrl | src/utils/statcan_client.py:11-24 | GET and POST address the same `BASE_URL/endpoint` with the 60-second timeout |
| StatCanClient.RaiseForStatus | src/utils/statcan_client.py:35-36 | the decoded body is returned iff the status is in the 2xx class; otherwise an `HttpError` carrying that status is raised |
| StatCanClient.GetAllCubesLite | src/utils/statcan_client.py:27-36 | GETs `BASE_URL/getAllCubesListLite` with no params and the 60-second timeout; the body comes back iff that response is 2xx, otherwise `HttpError` with its status |
| StatCanClient.GetCubeMetadata | src/utils/statcan_client.py:39-52 | POSTs one `{productId}` object per id to `BASE_URL/getCubeMetadata`; the body comes back iff that response is 2xx, otherwise `HttpError` with its status |
| StatCanClient.GetDataFromVectors | src/utils/statcan_client.py:55-69 | POSTs one `{vectorId, latestN}` object per vector to `BASE_URL/getDataFromVectorsAndLatestNPeriods`; the body comes back iff that response is 2xx, otherwise `HttpError` with its status |
| StatCanClient.GetSeriesInfoFromVectors | src/utils/statcan_client.py:72-85 | POSTs one `{vectorId}` object per vector to `BASE_URL/getSeriesInfoFromVector`; the body comes back iff that response is 2xx, otherwise `HttpError` with its status |
| StatCanClient.GetChangedCubeList | src/utils/statcan_client.py:88-100 | GETs `BASE_URL/getChangedCubeList/` followed by `str(date)`; the body comes back iff that response is 2xx, otherwise `HttpError` with its status |
| StatCanClient.CubeMetadataBodyRoundTrip | src/utils/statcan_client.py:49 | one `{productId}` object per id, in input order; the ids read back unchanged |
| StatCanClient.DataBodyRoundTrip | src/utils/statcan_client.py:66 | one `{vectorId, latestN}` object per vector, in input order; every latestN is num_periods; the vectors read back unchanged |
| StatCanClient.SeriesInfoBodyRoundTrip | src/utils/statcan_client.py:82 | one `{vectorId}` object per vector, in input order; the vectors read back unchanged |
| StatCanClient.ChangedCubesEndpointTail | src/utils/statcan_client.py:98 | the endpoint is `getChangedCubeList/` followed by exactly the date |
| StatCanClient.CallsCheckStatus | src/utils/statcan_client.py:34-36 | each call returns the decoded body iff its request gets a 2xx status, and otherwise raises with that status (also lines 50-52, 67-69, 83-85 and 98-100) |
| StatCanClient.DefaultPeriodsRequest | src/utils/statcan_client.py:55 | the default num_periods asks for the latest 10 periods |
| Orchestrator.Plan | src/main.py:22-35 | the environment check is the first step; the plan has one step plus two for each phase its flag leaves on |
| Orchestrator.FlagsDecide | src/main.py:24-35 | each ingest job runs iff --transform-only is absent, each transform job iff --ingest-only is absent; the environment check always runs |
| Orchestrator.NoFlags | src/main.py:22-35 | with no flag, the check and all four jobs run: ingest cubes, ingest indicators, transform cubes, transform indicators |
| Orchestrator.BothFlags | src/main.py:24-32 | with both flags, only the environment check runs |
| Orchestrator.Ordering | src/main.py:22-35 | the environment check comes first; every ingest job precedes every transform job; cubes come before indicators in each phase; no step repeats |
| Orchestrator.RunConnector | src/main.py:16-35 | the steps started are a prefix of the plan ending at the first step that raises; the run succeeds iff the whole plan ran without an exception |

## Left out

- The HTTP transport (`get`, `post`, `response.json()`) is foreign. It is the parameter `send` of `StatCanClient`, and the timeout is kept only as a constant.
- StatCanClient.RaiseForStatus: assumes that the foreign `get`/`post` return a response whose `raise_for_status()` raises for every status outside the 2xx class. The response class is not part of this model, and requests' own `raise_for_status` raises only for 4xx and 5xx, so a 1xx or 3xx response that reaches the caller is treated as an error here.
- The rate limiter (`@limits(calls=20, period=1)`, `@sleep_and_retry`) depends on wall-clock time. Only its constants are recorded.
- The raw store (`load_raw_json`), `upload_data` and `publish` are foreign. They appear only as an ordered trace of calls, and the METADATA dicts they receive are not modelled.
- The internals of `validate` are foreign. Each rule dict is a predicate over the table, and a violation is one `ValidationError`.
- pyarrow table construction and schema typing (`pa.Table.from_pylist`, `SCHEMA`) are not modelled. A table is the sequence of its records, and a conversion failure from mixed column types is not modelled.
- Float arithmetic and float formatting are not modelled. A float is the JSON literal it came from, or `float(n)` of an int.
- PyJson.PyStr: renders a float as its source literal rather than its shortest round-tripping form. Lists and dicts render as placeholders rather than their repr.
- PyJson.HashKey: a float literal such as `1.0` is not identified with the int key `1`; only `float(n)` of an int is. Float literals with the same value but different text (`1.5` and `1.50`, `1e2` and `100.0`) are different keys here, though Python treats each pair as one key.
- PyJson.ToFloat: parsing a str is a parameter, because CPython's parser is not part of this model. The error message omits the offending value's repr. The int overflow bound is the round-to-nearest-even limit of an IEEE double; the rounded value itself is not modelled.
- The ingest modules (`src/ingest/cubes.py`, `src/ingest/economic_indicators.py`) only call the client and save the result. They and `KEY_VECTORS` are not part of this model.
- argparse, the `RUN_ID` environment default, console logging and `validate_environment`'s own checks are not modelled. The environment check is one step that may raise.
- Orchestrator.RunConnector: which step raises is given as the parameter `fails`. The jobs' own outcomes are modelled by each transform's `Run`.
- Which module `transforms.economic_indicators` resolves to at import time is not modelled. The package and the older module are kept as two separate transforms, each with its own schema and rules.
