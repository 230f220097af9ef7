# RiverRunner core in Dafny

RiverRunner forecasts flow rates for white-water river runs. It reads gauge
measurements from the USGS water service into CSV files. A daily job asks a
forecaster for each run's series and caches the rounded values in a
`prediction` table. A repository object answers measurement queries and
writes the prediction cache through a database session.

This project models that core and proves properties of it:

- `context.dfy` (module `Context`): the entities (`Address`, `Metric`,
  `Station`, `RiverRun`, `Measurement`, `Prediction`) and their primary and
  foreign keys. It also has the column widths, the `__str__` forms, and the
  prediction table's INSERT and DELETE under its key constraints.
  `Valid(db)` collects every key, reference and width constraint of the
  schema. That covers:
  - at most one prediction per `(run_id, timestamp)`;
  - measurements keyed by `(date_time, metric_id, station_id)`;
  - unique `metric_id`, `station_id` and `run_id`.

  Coordinates are non-nullable fields of the datatypes. The prediction
  table's `fr_lb`, `fr` and `fr_ub` are nullable, as their columns are.
- `session.dfy` (module `Session`): the database session, restricted to the
  prediction table. The class `Session` holds the committed rows and the
  statements issued since the last commit or rollback. `add_all` and the
  bulk delete stay pending until `commit`. `rollback` and `close` discard
  them.
- `repository.py` is modelled in `repository.dfy` (module `Repository`):
  - `get_measurements` as a function of the stored rows, the arguments and
    the current time `now`;
  - `put_predictions` and `clear_predictions` as methods of the class
    `Repository`, which keeps a ghost trace of the calls made through it.
- `daily.py` is modelled in `daily.dfy` (module `Daily`):
  - `compute_predictions` as a method with the loop over the runs;
  - its specification as a left fold over the session state;
  - `daily_run`, which opens a session, runs that step and closes it.
- `models.dfy` (module `Models`): the plain `Prediction` record, its
  `__str__`, `__repr__` and `as_gvalue`.
- `scrape.dfy` (module `Scrape`): `scrape_usgs_data.py`. It covers reading
  the id files with `str.strip`, the request parameters, and the extraction
  of the `{dateTime: value}` map from the JSON answer. It also covers the CSV
  output: one file per parameter code, one `site,param,dateTime,value` line
  per entry. The network is a `fetch` function argument. The file system is
  a map from path to lines.
- `text.dfy` (module `Text`) and `wrappers.dfy` (module `Wrappers`):
  - Python's `str` of integers and of one-decimal floats (counted in tenths),
    with their parsers;
  - splitting at a character;
  - the `Option`/`Result` types.

Modelling choices:

- Timestamps are integers, since only their order matters. `str` of a
  timestamp is a function parameter `fmt`.
- Flow rates are stored as integer tenths. `round(p, 1)` is
  `Daily.RoundTenths`: the correctly rounded result of Python's built-in
  `round` on the exact value, half to even on an exact tie. numpy's own
  rounding can differ near a tie (see "## Left out").
- The forecaster is a function from run id to an optional series (None when
  it raises).
- The run list, the model's construction and store failures are inputs:
  - `Setup.runs` is the run list, None when fetching it raises;
  - `Setup.modelReady` is false when the model's construction raises;
  - `Setup.clearFault` is true when the store refuses the delete issued by
    `clear_predictions`;
  - `fault` marks a store failure at commit.

## Where the code and its documentation differ

The model follows the code in each of these points:

- `get_measurements`'s doc-comment promises a thirty-day default window.
  The code has none (`Repository.NoDefaultWindow`). As written, the code
  cannot return at all once the date checks pass: it calls `.execute()` on
  an ORM `Query`, which has no such method. For `run_id > -1` the resulting
  error is caught and re-raised as 'run_id does not exist'; otherwise the
  `AttributeError` of the final query escapes. The model reads the query as
  its authors meant it: an absent bound does not constrain, a present
  run_id must exist, and the rows inside the window are returned.
- An end date without a start date is accepted unchecked.
- After a start date passes its checks, any end date is replaced by `now`
  (`Repository.EndReplacedByNow`).
- `clear_predictions` never commits. If no run's forecast succeeds, closing
  the session rolls the delete back, and the day leaves the OLD predictions
  in place, not an empty table (`Daily.DailyTableNoFault`).
- When the first `put_predictions` after the clear fails, its rollback
  undoes the pending delete as well.
- A `False` answer from `put_predictions` is not treated as a failure: the
  run is still logged as added (`Daily.RunStep`).
- `test_remove_prediction` (riverrunner/tests/context_tests.py:50) calls
  `query(Prediction).delete(predictions[0])`. That is a bulk delete of
  every row, with the row passed as its `synchronize_session` argument,
  which SQLAlchemy rejects. Even as a bulk delete it would leave no row,
  not the one row the test expects. The model's
  `Context.Delete` is the single-row delete the test means.

## Model

| member | source | states |
|---|---|---|
| Context.Insert | riverrunner/context.py:92-93 | An INSERT succeeds exactly when the `(run_id, timestamp)` key is new and the run exists; the row is then appended |
| Context.InsertAllSpec | riverrunner/context.py:92-93 | A batch inserts exactly when its keys are distinct, disjoint from the table's, and every run exists; the result is the table followed by the batch |
| Context.InsertAllAccepts | riverrunner/context.py:92-93 | A batch with distinct new keys for existing runs is inserted, appended in order |
| Context.InsertAllRefuses | riverrunner/context.py:92-93 | A batch that is inserted has distinct keys, none already stored, and existing runs only |
| Context.InsertAll | riverrunner/context.py:89-98 | Inserting a batch row by row into the prediction table, each INSERT under the key and run constraints; when it succeeds and what it gives is `InsertAllSpec` |
| Context.Delete | riverrunner/tests/context_tests.py:43-52 | Deleting the prediction with a given key keeps exactly the rows with another key, and never adds a row |
| Context.DeleteSpec | riverrunner/tests/context_tests.py:43-52 | Deleting a key from a keyed table removes exactly that key, keeps keys unique, and shrinks the table by one exactly when the key was present |
| Context.AddDistinctGivesCount | riverrunner/tests/context_tests.py:30-38 | Adding n predictions with distinct keys for existing runs to an empty table gives a valid table of n rows |
| Context.DeleteOneOfTwo | riverrunner/tests/context_tests.py:43-52 | Deleting one of two stored predictions leaves exactly the other |
| Context.AddressStr | riverrunner/context.py:47-48 | `Address.__str__` is address, city and state joined by ", " (length, prefix and suffix) |
| Context.AddressStrSplit | riverrunner/context.py:47-48 | When the address has no comma, the first comma of the text separates it from the rest |
| Context.MetricStr | riverrunner/context.py:85-86 | `Metric.__str__`, the metric id and name; what can be read back from it is `MetricStrRecoversId` |
| Context.MetricStrRecoversId | riverrunner/context.py:85-86 | `Metric.__str__` starts with "metric_id: ", and the metric id is read back from the text before the first comma |
| Context.RunStr | riverrunner/context.py:137-138 | `RiverRun.__str__` is the run name, and raises when the name is NULL |
| Context.StationStr | riverrunner/context.py:159-160 | `Station.__str__` is the station name, and raises when the name is NULL |
| Context.FindMetric | riverrunner/context.py:56-57 | The `metric` relationship finds a metric with that id exactly when one exists |
| Context.MeasurementStr | riverrunner/context.py:68-70 | `Measurement.__str__` succeeds exactly when the measurement's metric exists |
| Context.MeasurementStrText | riverrunner/context.py:68-70 | The text is "station: ", the station id, ", datetime: ", the timestamp, ", metric: " and the name of the metric the measurement refers to |
| Context.ShowTenths | riverrunner/context.py:95-97 | A nullable flow-rate column prints "None" exactly when it is NULL, and otherwise text that reads back as its value |
| Context.PredictionStr | riverrunner/context.py:102-104 | The table row's `__str__`, with a NULL flow rate printed as "None"; what can be read back from it is `PredictionStrRecoversRun` and `PredictionStrEndsWithUpperBound` |
| Context.PredictionStrEndsWithUpperBound | riverrunner/context.py:95-104 | The table row's `__str__` ends with ", ub: " and the upper bound: "None" when it is NULL, otherwise text that reads back as the stored value |
| Context.PredictionStrRecoversRun | riverrunner/context.py:102-104 | The table row's `__str__` starts with "run_id: ", and the run id is read back from it |
| Session.ApplyOpsValid | riverrunner/context.py:92-93 | Pending statements that flush without error keep the prediction table's key and reference constraints |
| Session.CommitTx | riverrunner/repository.py:32-33 | COMMIT succeeds exactly when the store does not fail and every pending statement applies; then they all take effect and nothing stays pending, otherwise nothing changes |
| Session.Session.constructor | daily.py:75 | A new session over a valid table has that table committed and nothing pending |
| Session.Session.AddAll | riverrunner/repository.py:32 | `add_all` appends an insert of the batch to the pending statements and keeps the table valid |
| Session.Session.DeleteAll | riverrunner/repository.py:46 | `query(Prediction).delete()` appends a bulk delete to the pending statements, uncommitted; when the store refuses it, it fails and nothing changes |
| Session.Session.Commit | riverrunner/repository.py:33 | The session's new state and the answer are those of `CommitTx`, and the table stays valid |
| Session.Session.Rollback | riverrunner/repository.py:37 | Rollback discards every pending statement and keeps the committed rows |
| Session.Session.Close | daily.py:81 | Closing discards whatever was not committed |
| Session.AddCommitDelete | riverrunner/tests/context_tests.py:57-66 | Adding n distinct predictions and committing gives n rows; a bulk delete then leaves none |
| Repository.NormalizeWindow | riverrunner/repository.py:61-71 | A start date later than now fails first; a start date with an earlier end date fails next; the checks fail exactly in those two cases; a valid start gives the window [start, now); without a start the window is (unbounded, end) |
| Repository.Filter | riverrunner/repository.py:81-85 | The kept rows are exactly the stored rows inside the half-open window |
| Repository.GetMeasurements | riverrunner/repository.py:48-87 | The two date errors come first in that order and are passed through unchanged; 'run_id does not exist' happens exactly when the dates pass, run_id > -1, and no such run exists; the query succeeds exactly when neither happens, and then holds exactly the stored rows with start <= date_time < now (or < end without a start) |
| Repository.FilterKeepsKeysUnique | riverrunner/context.py:54-60 | Filtering keeps the measurement key unique |
| Repository.GetMeasurementsKeyed | riverrunner/repository.py:81-87 | On a consistent database the result is keyed by (date_time, metric_id, station_id) and refers to existing metrics and stations |
| Repository.FilterUnbounded | riverrunner/repository.py:81-85 | With no bound every row is kept, in stored order |
| Repository.NoDefaultWindow | riverrunner/repository.py:61-71 | With neither date and no run check, the model returns every stored measurement: the code sets no thirty-day default (as written, the final `.execute()` raises instead of returning; see above) |
| Repository.EndReplacedByNow | riverrunner/repository.py:66-69 | A valid end date later than now is replaced by now, so a row between the two is dropped |
| Repository.AsList | riverrunner/repository.py:28-29 | A single prediction becomes a one-element list; a list is used as it is |
| Repository.PutTx | riverrunner/repository.py:20-39 | `put_predictions` on a session state: add the batch, commit, and roll back when the commit fails; its all-or-nothing contract is `PutTxAllOrNothing` |
| Repository.ClearTx | riverrunner/repository.py:41-46 | `clear_predictions` on a session state: the committed rows stay and a bulk delete is left pending; its effect is `ClearedViewEmpty` and `PutTxAfterClear` |
| Repository.PutTxAllOrNothing | riverrunner/repository.py:31-39 | `put_predictions` is all or nothing: True exactly when the commit succeeds, and then everything pending plus the batch is committed; on False the committed rows are unchanged and everything pending is discarded |
| Repository.PutTxFresh | riverrunner/tests/repository_tests.py:19-39 | With nothing pending, a batch is stored exactly when it is insertable and the store does not fail, and it is then appended |
| Repository.PutTxAfterClear | riverrunner/repository.py:31-46 | Right after `clear_predictions` a successful batch replaces the whole table; a failed one brings the old rows back |
| Repository.ClearedViewEmpty | riverrunner/tests/repository_tests.py:41-49 | A query after `clear_predictions` sees no rows |
| Repository.Repository.constructor | riverrunner/repository.py:9-14 | The repository works through the given session and has made no calls |
| Repository.Repository.PutPredictions | riverrunner/repository.py:20-39 | The session's new state and the answer are those of add-all, commit, and rollback on failure; the call is recorded |
| Repository.Repository.ClearPredictions | riverrunner/repository.py:41-46 | A bulk delete is left pending, uncommitted; if the store refuses it the call fails and the session is unchanged; the call is recorded either way |
| Text.ParseIntToString | riverrunner/models.py:17-18 | `str` of an integer reads back as that integer |
| Text.TenthsRoundTrip | riverrunner/models.py:19-22 | `str` of a one-decimal float reads back as the same number of tenths |
| Daily.RoundTenths | daily.py:57-59 | `round(p, 1)` is within half a tenth of p, and on a tie the even number of tenths |
| Daily.RoundTenthsExact | daily.py:57-59 | A value that already has one decimal place is unchanged by rounding |
| Daily.ToAdd | daily.py:53-62 | One prediction per `zip` pair, as many as the shorter of values and index; each has this run's id, the pair's timestamp and `fr_lb = fr = fr_ub = round(p, 1)` |
| Daily.ToAddInsertable | daily.py:53-64 | A run's rows fit an empty table exactly when the run exists (or no rows were built) and the forecast's timestamps are distinct |
| Daily.RunStep | daily.py:50-67 | One iteration: a run whose forecast raises is logged as failed and changes nothing; otherwise its rows are put and it is logged as added, whatever `put_predictions` answers (`LoopLogs`, `LoopTable`) |
| Daily.Loop | daily.py:49-67 | The loop over the first n runs as a left fold of `RunStep`; its logs are `LoopLogs`, its table `LoopTable` |
| Daily.Compute | daily.py:41-70 | `compute_predictions` returns False exactly when building the model, clearing the cache or fetching the runs raises, and then logs no run; if the model cannot be built or the clear fails the session is untouched |
| Daily.Puts | daily.py:49-64 | At most one put per run, and only puts, in the loop |
| Daily.OkIndices | daily.py:49-64 | The indices of the runs whose forecast succeeded: each is a success, they increase, and no success is missed |
| Daily.PutsPerSuccess | daily.py:49-64 | There is one put per successful forecast, and the k-th put carries the rows built for the k-th successful run |
| Daily.LoopLogs | daily.py:49-67 | One log entry per run in run order: added exactly when that run's own forecast succeeded, whatever happened to the others |
| Daily.ComputePredictions | daily.py:41-70 | The loop's final session state, outcome and logs are those of `Compute`; the repository calls are one clear followed by one put per successful forecast, in run order (just the clear when it fails or the runs cannot be had) |
| Daily.ClearOnceFirst | daily.py:45-49 | The cache is cleared exactly once, before any put |
| Daily.DailyTable | daily.py:73-81 | The table `daily_run` leaves: the committed rows after `Compute` once the close has discarded what was pending; its properties are `DailyTableNoFault`, `DailyIdempotent` and `DailySetupFailure` |
| Daily.DailyRun | daily.py:73-81 | The table after `daily_run` is valid and is the committed result of `compute_predictions` once the session is closed |
| Daily.BatchRows | daily.py:49-64 | A row is in the day's batch exactly when it was built from a successful forecast of some run |
| Daily.LoopTable | daily.py:46-67 | With no store failure, and when the day's whole batch is insertable into an empty table (distinct keys, existing runs): until a forecast succeeds only the pending delete exists; afterwards the table is exactly the rows put so far |
| Daily.DailyTableNoFault | daily.py:73-81 | With no store failure, and when the day's whole batch is insertable into an empty table: the day's table is the rows of every successful forecast; if none succeeded, the old rows remain |
| Daily.DailyIdempotent | daily.py:73-81 | With no store failure, and when the day's whole batch is insertable into an empty table: running the day twice with the same forecasts leaves the same table |
| Daily.DailySetupFailure | daily.py:43-48 | When the model cannot be built, the cache cannot be cleared or the run list cannot be had, the table is unchanged |
| Models.Str | riverrunner/models.py:9-11 | `__str__` of the plain record; what can be read back from it is `StrRecoversRun` and `StrEndsWithUpperBound` |
| Models.StrRecoversRun | riverrunner/models.py:9-11 | `__str__` starts with "run: ", and the run id is read back from the text before the first comma |
| Models.StrEndsWithUpperBound | riverrunner/models.py:9-11 | `__str__` ends with ", ub: " and the upper bound, which is read back from it |
| Models.Repr | riverrunner/models.py:13-14 | `__repr__` of the plain record; its layout is `ReprFields` |
| Models.ReprFields | riverrunner/models.py:13-14 | `__repr__` is "<Prediction> " then the run id, a '-' and the timestamp; for a non-negative id the first '-' separates them |
| Models.AsGValue | riverrunner/models.py:16-23 | Exactly five strings: `str` of run_id, timestamp, fr_lb, fr, fr_ub, in that order |
| Models.AsGValueRoundTrip | riverrunner/models.py:16-23 | The row reads back as the same prediction, given a timestamp parser that inverts `str` |
| Scrape.Strip | riverrunner/scrape_usgs_data.py:25 | `str.strip` removes exactly the leading and trailing whitespace, keeping the middle unchanged |
| Scrape.StripIdempotent | riverrunner/scrape_usgs_data.py:25 | Stripping twice is stripping once |
| Scrape.GetSiteIds | riverrunner/scrape_usgs_data.py:17-26 | The site ids are the stripped lines of "data/usgs_site_ids.csv", one per line in order; a missing file raises, exactly then |
| Scrape.GetParamCodes | riverrunner/scrape_usgs_data.py:29-38 | The parameter codes are the stripped lines of "data/usgs_param_codes.csv", one per line in order; a missing file raises, exactly then |
| Scrape.ReadStripped | riverrunner/scrape_usgs_data.py:23-26 | A missing file raises; otherwise there is one stripped entry per line, in file order |
| Scrape.Params | riverrunner/scrape_usgs_data.py:53-60 | The request has exactly six parameters: format "json", siteStatus "all", and the given site, start, end and parameter code |
| Scrape.ValuesList | riverrunner/scrape_usgs_data.py:68-71 | A failure is always a malformed answer; an answer without `value` or without `value.timeSeries` fails; an empty `timeSeries` gives no values |
| Scrape.ValuesListFirstBlock | riverrunner/scrape_usgs_data.py:71 | For any answer whose `value.timeSeries[0].values[0].value` is a list, that list is the result, whatever other series, blocks or keys the answer holds |
| Scrape.ValuesListSuccessChain | riverrunner/scrape_usgs_data.py:68-71 | A successful extraction came from an empty `timeSeries` or from the end of the whole `[0]["values"][0]["value"]` path; an answer missing any step of it fails |
| Scrape.StrMember | riverrunner/scrape_usgs_data.py:72 | `elem[key]` is read exactly when the element is an object holding the key with a string value |
| Scrape.Pairs | riverrunner/scrape_usgs_data.py:72 | Succeeds exactly when every element carries a string `dateTime` and `value`, and then gives one pair per element, in order, holding exactly those two strings; otherwise the answer is malformed |
| Scrape.Put | riverrunner/scrape_usgs_data.py:72 | A dict store adds a new key at the end, or replaces an existing key's value in its place |
| Scrape.ToDict | riverrunner/scrape_usgs_data.py:72 | The dictionary comprehension as a fold of `Put`; its properties are `ToDictDistinct`, `ToDictKeys` and `ToDictLastWins` |
| Scrape.ToDictDistinct | riverrunner/scrape_usgs_data.py:72 | The map holds no key twice |
| Scrape.ToDictKeys | riverrunner/scrape_usgs_data.py:72 | The map's keys are exactly the dateTimes of the elements |
| Scrape.ToDictLastWins | riverrunner/scrape_usgs_data.py:72 | Each dateTime maps to the value of its last occurrence |
| Scrape.GetJsonData | riverrunner/scrape_usgs_data.py:41-73 | `get_json_data`: query, decode, extract the first block and build the map; its errors are `GetJsonDataErrors`, its content `GetJsonDataContent` and `GetJsonDataLastWins` |
| Scrape.GetJsonDataErrors | riverrunner/scrape_usgs_data.py:61-73 | An undecodable answer is re-raised, exactly then; every other failure is a malformed answer; a result has distinct keys |
| Scrape.GetJsonDataNoSeries | riverrunner/scrape_usgs_data.py:68-72 | An empty `timeSeries` list yields an empty map |
| Scrape.GetJsonDataContent | riverrunner/scrape_usgs_data.py:61-73 | When the first block lists well-formed elements, the result is the map built from their `(dateTime, value)` strings in order; its keys are exactly their dateTimes, each once |
| Scrape.GetJsonDataLastWins | riverrunner/scrape_usgs_data.py:68-73 | In that map a dateTime gives the value of the last element carrying it |
| Scrape.OutPathInjective | riverrunner/scrape_usgs_data.py:90 | Different parameter codes get different output paths |
| Scrape.ParseLineRoundTrip | riverrunner/scrape_usgs_data.py:103-108 | A written line splits back into its site, code, dateTime and value when the first three hold no comma |
| Scrape.EntryLines | riverrunner/scrape_usgs_data.py:102-108 | One line per map entry, in the map's order |
| Scrape.SitesLines | riverrunner/scrape_usgs_data.py:93-108 | The lines of one code's file after the first n sites, stopping at the first failed query; what they hold is `SitesLinesContent` |
| Scrape.SitesLinesContent | riverrunner/scrape_usgs_data.py:93-108 | A line is in a code's file exactly when it was built from an entry of some site's map |
| Scrape.CodesRun | riverrunner/scrape_usgs_data.py:88-108 | The loop over the first n codes: the paths listed and the files written, stopping at the first failure; its layout is `ScrapeLayout` |
| Scrape.ScrapeSpec | riverrunner/scrape_usgs_data.py:76-109 | `scrape_usgs_data` as a function: the id files' errors first, then `CodesRun` over every code; its layout is `ScrapeLayout` |
| Scrape.ScrapeLayout | riverrunner/scrape_usgs_data.py:76-109 | On success the result has one path "data/measurements_<code>.csv" per code, in order; each file holds the lines of every site's entries; no other file changes |
| Scrape.WriteEntries | riverrunner/scrape_usgs_data.py:102-108 | The loop over a map's items appends one line per entry to the open file and changes no other file |
| Scrape.WriteCodeFile | riverrunner/scrape_usgs_data.py:92-108 | The loop over the sites truncates the file, then writes every site's lines until a query fails, reporting that failure |
| Scrape.WriteCode | riverrunner/scrape_usgs_data.py:90-108 | One parameter code's file holds what its queries produce |
| Scrape.WriteAll | riverrunner/scrape_usgs_data.py:88-108 | The loop over the codes lists and writes the files exactly as the specification `CodesRun` says, stopping at the first failure |
| Scrape.ScrapeUsgsData | riverrunner/scrape_usgs_data.py:76-109 | `scrape_usgs_data` gives the result and the files of `ScrapeSpec`: the id files' errors first, then the files written |

## Left out

- Database and network I/O are not modelled: engine creation and
  `Context.__init__`, `requests.get`, and opening, reading and writing
  files. The store, the answer to a request and the files are values.
  Connectivity failures are the `fault` inputs.
- The forecaster `Arima.arima_model` and all floating-point numerics are out
  of scope. The forecast is an input: a function from run id to an optional
  series of reals.
- `get_all_runs_as_list` is not part of this model. The run list is an
  input, None when fetching it raises.
- `pd.to_datetime` is taken as the identity on timestamps.
- `str` of a timestamp is the parameter `fmt`.
- `str` of a float is modelled for values in tenths whose magnitude is
  below 2^49 (about 5.6e14). There, doubles are less than a tenth apart,
  so distinct tenths give distinct doubles, and Python prints each with
  one decimal place. Larger values, exponent notation and `-0.0` are not
  modelled.
- Daily.RoundTenths: rounds the exact value of the float, half to even, as
  Python's `round` does for a `float`. The forecast's values come from a
  pandas series, so they are numpy float64, and numpy's `round` first
  multiplies by ten in floating point. Near a tie the two can differ. For
  0.15, which is stored just below 0.15, the model gives 0.1 and numpy 0.2.
- The station proximity clause of `get_measurements` is not modelled, and
  `StationRiverDistance` is not part of this model. The filter is the
  half-open time window only.
- Repository.GetMeasurements: follows the intended meaning of the run
  lookup and the filter expression. As written, every call past the date
  checks raises, because an ORM `Query` has no `.execute()`. That is
  'run_id does not exist' for run_id > -1, and otherwise an
  `AttributeError`. Python's `and` between SQL clauses is not modelled
  either.
- The `__repr__` methods of the context entities are not modelled. Only
  their `__str__` forms are.
- `Repository.__del__` (flush, close) is folded into the session's `Close`.
  A failing flush or rollback is not modelled.
- `get_weather_observations` and `get_usgs_observations` are not modelled.
  They are external calls with a sleep, and `daily_run` has both commented
  out.
- `upload_data_from_file` is not part of this model. `put_measurements` is
  not part of this model.
- The `print` calls are not modelled. The per-run messages of
  `compute_predictions` are the `RunLog` entries.
- Scrape.StrMember: reads `elem[key]` only when the value is a JSON
  string, as the service sends `dateTime` and `value`. Python reads any
  value there.
- Scrape.Pairs: through `StrMember`, an element whose `dateTime` or `value`
  is not a string is reported as malformed. Python would instead format a
  number, boolean or null and write it out. For an array or object
  `dateTime` it raises TypeError, because such a key is unhashable.
- Repository.NormalizeWindow: uses one reading of the clock, `now`. The
  code reads `datetime.datetime.now()` twice: once for the start-after-now
  check (riverrunner/repository.py:63) and once for the new end bound
  (riverrunner/repository.py:69). A start date or a row that falls between
  the two readings can be treated differently from the model. The same
  holds for `Repository.GetMeasurements`.
- Models.Prediction: the plain record's flow rates are one-decimal floats,
  counted in tenths. Its constructor accepts any value. Two cases are not
  modelled: an `int` such as the gsheets tests pass, which prints without
  a decimal point ("5"), and a `None`, which prints as "None".
- The `self.fail()` placeholder tests and the gsheets and
  continuous-retrieval modules are not part of this model.
