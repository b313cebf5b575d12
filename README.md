# empire-state-of-mind: a verified model of the fetch core

This project models, in Dafny, the deterministic logic under the two data
fetchers of *empire-state-of-mind*: the OpenWeatherMap fetcher
(`data_pipeline/weather_fetcher.py`), the NYC Open Data MTA fetcher
(`data_pipeline/mta_fetcher.py`) and the shared helpers they use
(`utils/helpers.py`). It also proves what that logic promises.

The network, the clock and the file system come in as parameters, and
what the program does to them comes out as values:

- the answer to the i-th HTTP request of a kind is `http(i)`, with `None`
  for a `RequestException`;
- every `datetime.now()` reading is a `DateTime` argument;
- the requests a method issues come out as a `seq<Request>`;
- the files it writes come out as a `seq<Artifact>` (path and content).

Python exceptions raised while navigating a document are `Failure(fault)`
values of a `Result`.

Modules:

- `Wrappers`: `Option` and `Result`.
- `Json`: JSON values as Python's `json` hands them over. Objects are
  ordered member lists. The module also gives Python truthiness, `in`,
  `d.get(k, default)`, `x.get` on a value that may not be a dict, and
  `x[0]`, each with the exceptions Python raises.
- `DateTimes`: date-times, zero-padded decimal formatting, `isoformat()`
  and Python's lexicographic string order.
- `Frames`: a pandas DataFrame kept as its column labels and row count.
  `pd.DataFrame(records)` takes every key of every record, in order of
  first appearance.
- `Effects`: requests, exchanges (a request issued and its answer) and
  written files.
- `Config`: the settings of `config.py` the fetchers read.
- `Helpers`: `clean_column_names`, `retry_on_fail`, `timestamp_now` and
  the stems of `save_dataframe`.
- `Weather`: `WeatherFetcher`, with its request construction,
  `parse_weather_data` and `fetch_and_save`.
- `Mta`: `MtaFetcher`, with the dataset table, `fetch_dataset`, the two
  fetch methods and `fetch_all`.

`retry_on_fail` is a method with a `while` loop and invariants. The
fetchers' `fetch_and_save`, `fetch_terminal_otp`,
`fetch_platform_wait_times` and `fetch_all` are methods that follow the
source step by step. Each is proved against a specification function
(`SavePlan`, `Collected`, `ResultsOf`, `SummaryWrites`). The properties are
then proved about those functions.

When two labels clean to the same name, assigning the cleaned list to
`df.columns` keeps both columns under that label.
`Helpers.CleanColumnNamesCollide` shows two labels cleaning to the same
name, with both kept.

## Model

| member | source | states |
|---|---|---|
| Helpers.CleanLabel | utils/helpers.py:56 | `col.lower().replace(' ', '_').replace('-', '_')` keeps the label's length and rewrites each character on its own, as `CleanChar` says (ASCII capitals lowered, blank and hyphen to `_`) |
| Helpers.CleanColumnNames | utils/helpers.py:56-57 | the assigned list has one label per column, each as long as the label it replaces |
| Helpers.CleanFrame | utils/helpers.py:54-58 | cleaning keeps the row count and the number of columns |
| Helpers.CleanColumnNamesSpec | utils/helpers.py:56-57 | same number of labels in the same order; each output label has its input's length and is, character by character, the input lowercased with `' '` and `'-'` turned into `'_'`; no output label contains a blank, a hyphen or an ASCII capital |
| Helpers.CleanLabelIsClean | utils/helpers.py:56-57 | a cleaned label has no blank, hyphen or ASCII capital |
| Helpers.CleanLabelKeepsClean | utils/helpers.py:56-57 | a label without blanks, hyphens or capitals is left unchanged |
| Helpers.CleanColumnNamesIdempotent | utils/helpers.py:56-58 | cleaning twice equals cleaning once |
| Helpers.CleanColumnNamesCollide | utils/helpers.py:56-57 | `["Line Name", "line-name"]` becomes `["line_name", "line_name"]`: both columns remain, under one label |
| Helpers.Retry | utils/helpers.py:40-51 | with `max_attempts <= 0` no call is made and the result is `None`; otherwise 1 to `max_attempts` calls, every call before the last raised, the last call's value is returned unchanged or, after exactly `max_attempts` calls, its exception propagates; the sleeps are `delay, 2·delay, …`, one after each failed call except the last call; with a negative `delay`, a failed first call that is not the last raises `ValueError` from `time.sleep` and no second call is made |
| Helpers.RetrySleeps | utils/helpers.py:48-51 | the j-th sleep is `delay·2^j`, there are `calls - 1` of them, and each follows a failed call |
| Helpers.BackoffSum | utils/helpers.py:48-51 | the first n sleeps add up to `delay·(2^n − 1)` |
| Helpers.RetryFirstSuccess | utils/helpers.py:42-44 | if the first k calls raise and call k returns, the result is call k's value after exactly k + 1 calls and k sleeps totalling `delay·(2^k − 1)`; no further call is made, and a `None` value counts as success (for k > 0 the delay is non-negative, since a negative one stops at the first wait) |
| Helpers.RetryAllFail | utils/helpers.py:45-47 | if every call raises, `func` is called exactly `max_attempts` times, the last exception propagates, and the total wait is `delay·(2^(max_attempts−1) − 1)` (for more than one attempt the delay is non-negative, since a negative one stops at the first wait) |
| Helpers.RetryNegativeDelay | utils/helpers.py:45-50 | with a negative delay and more than one attempt, a failing first call ends with the `ValueError` of `time.sleep` after one call and no wait, and a succeeding one returns its value |
| Helpers.RetriedFetch | utils/helpers.py:40-51 | a fetch that catches its own transport errors, under `max_attempts=2`: it runs once, issues only its first request, and that answer is the result |
| Helpers.TimestampNow | utils/helpers.py:10-11 | `strftime("%Y%m%d_%H%M%S")` of the clock reading; for a four-digit year it is 15 characters with `_` at index 8 |
| Helpers.TimestampPadded | utils/helpers.py:10-11 | for a four-digit year the timestamp is the zero-padded `YYYYmmdd_HHMMSS` |
| Helpers.TimestampShape | utils/helpers.py:10-11 | for a four-digit year the timestamp has 15 characters: 8 digits, `'_'`, 6 digits |
| Helpers.TimestampOrder | utils/helpers.py:10-11 | for four-digit years, string order of timestamps is chronological order, and equal timestamps mean the same second |
| Helpers.LatestFileName | data_pipeline/debug_mta.py:8-11 | file names `prefix + timestamp + suffix` sort in timestamp order, so the greatest name is the latest file |
| Helpers.DataFrameStem | utils/helpers.py:28-29 | the stem is `name` without timestamp, otherwise `name + "_" + timestamp` |
| Helpers.SaveDataFrame | utils/helpers.py:24-37 | the CSV and pickle paths share the directory `PROCESSED_DATA_DIR` (`<base>/data/processed`) and the stem, and differ only in `.csv`/`.pkl`; the frame is written to both, CSV first |
| Json.AttrGet | data_pipeline/weather_fetcher.py:87 | `x.get(k, d)` succeeds exactly on a dict, giving the member or `d`; on anything else it raises `AttributeError` |
| Json.Index0 | data_pipeline/weather_fetcher.py:91 | `x[0]` on a non-empty list is its first item |
| Frames.ColumnsOfSpec | data_pipeline/mta_fetcher.py:86 | the columns of a frame built from records are distinct, and a label is a column exactly when some record has that key |
| Frames.FromRecordsEmpty | data_pipeline/mta_fetcher.py:86-90 | the frame is empty exactly when there are no records or every record is an empty object |
| DateTimes.IsoFormat | data_pipeline/weather_fetcher.py:86 | `isoformat()` has 19 characters, or 26 with microseconds |
| Weather.Description | data_pipeline/weather_fetcher.py:91 | succeeds exactly when `weather` is absent or a non-empty list starting with a dict, and is that dict's `description` or `''` |
| Weather.Conditions | data_pipeline/weather_fetcher.py:84-95 | the dict literal is built exactly when `current` is a dict whose `main`, `wind` and `clouds` are dicts or absent and whose `weather` is usable; it has the nine base keys in order |
| Weather.ConditionsFields | data_pipeline/weather_fetcher.py:85-95 | each of the nine fields holds its nested value, or null, or `''` for a missing description |
| Weather.Precipitation | data_pipeline/weather_fetcher.py:97-103 | the `rain_1h`/`snow_1h` member is there iff the document has `rain`/`snow`; then it is the single member under that name |
| Weather.AddPrecipitation | data_pipeline/weather_fetcher.py:97-103 | adding `rain_1h`/`snow_1h` raises exactly when the source member is present and not a dict; otherwise a member is appended only when the source key is present |
| Weather.WeatherFetcher.constructor | data_pipeline/weather_fetcher.py:26-29 | the key comes from the environment, the base URL is the OpenWeatherMap 2.5 API, and the directory is `raw/weather` |
| Weather.WeatherFetcher.CurrentWeatherRequest | data_pipeline/weather_fetcher.py:37-47 | no request exactly when there is no non-empty API key |
| Weather.WeatherFetcher.ForecastRequest | data_pipeline/weather_fetcher.py:59-69 | no request without a key; otherwise the fifth parameter is `cnt`, the number of whole 3-hour blocks: `3·cnt <= hours < 3·cnt + 3` |
| Weather.WeatherFetcher.RequestParamsSpec | data_pipeline/weather_fetcher.py:42-69 | both requests carry `lat`, `lon`, `appid` = key and `units` = `imperial`; only the forecast has `cnt`, equal to `hours // 3` (8 for 24) |
| Weather.WeatherFetcher.FetchCurrentWeather | data_pipeline/weather_fetcher.py:35-55 | without a key no request is issued and the result is `None`; otherwise one request and its answer |
| Weather.WeatherFetcher.FetchForecast | data_pipeline/weather_fetcher.py:57-77 | the same for the forecast |
| Weather.WeatherFetcher.ParseWeatherData | data_pipeline/weather_fetcher.py:79-105 | `None` for an absent or falsy `current`; `AttributeError` for a truthy non-dict; otherwise a record exactly when `main`, `wind`, `clouds`, `rain` and `snow` are each a dict or absent and `weather` is absent or a non-empty list whose first item is a dict; any other document gives the fault its navigation raises |
| Weather.WeatherFetcher.ParseIgnoresForecast | data_pipeline/weather_fetcher.py:79-105 | the result does not depend on `forecast` |
| Weather.WeatherFetcher.ParseShape | data_pipeline/weather_fetcher.py:85-103 | a record is the dict literal followed by the optional rain and snow members |
| Weather.WeatherFetcher.ParseKeys | data_pipeline/weather_fetcher.py:85-103 | the record's keys are exactly the nine base keys in order, then `rain_1h` iff `current` has `rain`, then `snow_1h` iff it has `snow` |
| Weather.WeatherFetcher.ParseWeatherDataFields | data_pipeline/weather_fetcher.py:85-95 | the record holds the clock time, the nested `main`, `weather[0]`, `wind` and `clouds` fields and `visibility` |
| Weather.WeatherFetcher.ParsePrecipitation | data_pipeline/weather_fetcher.py:97-103 | `rain_1h` is present iff `rain` is, and holds `rain['1h']` or 0; likewise `snow_1h` |
| Weather.WeatherFetcher.ParseWeatherDataDefaults | data_pipeline/weather_fetcher.py:87-94 | missing `main`, `wind`, `clouds` or `visibility` give nulls; a missing `weather` gives `description = ''` |
| Weather.WeatherFetcher.SavePlan | data_pipeline/weather_fetcher.py:123-149 | nothing is written when `current` is falsy or no record came back; otherwise `current`, `forecast` (if truthy) and `parsed` files in that order, all with one timestamp, the first holding the raw document and the last the record |
| Weather.WeatherFetcher.ArtifactPathKind | data_pipeline/weather_fetcher.py:134-147 | right after the directory and `/`, a file's name starts with the first letter of its kind (`current`, `forecast`, `parsed`), so the three paths differ |
| Weather.WeatherFetcher.SavePlanForecast | data_pipeline/weather_fetcher.py:139-143 | a forecast file is written iff anything is written and the forecast is truthy |
| Weather.WeatherFetcher.SavePlanParsed | data_pipeline/weather_fetcher.py:123-149 | with the real parser, files are written iff `current` is truthy and parsing does not raise |
| Weather.WeatherFetcher.SaveArtifacts | data_pipeline/weather_fetcher.py:130-149 | the three `if` blocks write exactly the planned files |
| Weather.WeatherFetcher.FetchAndSave | data_pipeline/weather_fetcher.py:107-160 | both fetches run once each, before the `current` check; the result is the parse of what they returned; the writes are the plan for that result under the save-time timestamp |
| Weather.ClearSkyParse | data_pipeline/weather_fetcher.py:79-105 | a typical clear-sky current-conditions document parses to `temp = 72.5`, `description = 'clear sky'`, with no precipitation keys |
| Mta.OtpSummaryFault | data_pipeline/mta_fetcher.py:100-104 | the per-line summary runs only when the frame has a `line` column, and then raises a `KeyError` for the missing `otp` column exactly when there is no `otp` column |
| Mta.RecordCounts | data_pipeline/mta_fetcher.py:165 | the counts are keyed by the result names in order, each holding its frame's row count |
| Mta.MtaFetcher.constructor | data_pipeline/mta_fetcher.py:25-35 | base URL `https://data.ny.gov/resource`, directory `raw/mta`, and the three dataset ids |
| Mta.MtaFetcher.QueryParams | data_pipeline/mta_fetcher.py:51-54 | the parameters begin with `$limit = limit` and `$order = ':id'` |
| Mta.MtaFetcher.QueryParamsSpec | data_pipeline/mta_fetcher.py:51-62 | `$limit` and `$order` are always there; `$$app_token` iff the token is truthy and `$where` iff the clause is truthy, each with its value; no key appears twice and there is no other key |
| Mta.MtaFetcher.DatasetRequest | data_pipeline/mta_fetcher.py:44-65 | no request exactly for an unknown key; otherwise a 30-second request with the query parameters |
| Mta.MtaFetcher.DatasetUrl | data_pipeline/mta_fetcher.py:48-49 | the URL is `base_url + "/" + datasets[key] + ".json"` |
| Mta.MtaFetcher.FetchDataset | data_pipeline/mta_fetcher.py:42-70 | it issues the dataset request; an unknown key gives `None`, a known key gives the network's answer |
| Mta.UnknownDataset | data_pipeline/mta_fetcher.py:31-46 | a key outside the three dataset names is exactly the case of no request and a `None` result |
| Mta.MtaFetcher.Collected | data_pipeline/mta_fetcher.py:82-97 | the step both fetch methods share (also lines 121-135): no file without a frame; a kept frame has one row per record, at least one, and is the content of the single CSV file `<stem>_<ts>.csv` |
| Mta.MtaFetcher.CollectedSpec | data_pipeline/mta_fetcher.py:82-97 | no frame and no file exactly when the data is `None`, an empty list or only empty records; otherwise one row per record, the cleaned record keys as columns, written once to `<stem>_<ts>.csv` |
| Mta.MtaFetcher.CollectedClean | data_pipeline/mta_fetcher.py:93 | a kept frame's labels contain no blank, hyphen or capital |
| Mta.MtaFetcher.FetchTerminalOtp | data_pipeline/mta_fetcher.py:72-110 | one dataset request with limit 2000; the writes and frame are as collected under `terminal_otp`; the summary step raises a `KeyError` for the missing `otp` column after the CSV is written, or else leaves the returned frame as collected |
| Mta.MtaFetcher.FetchPlatformWaitTimes | data_pipeline/mta_fetcher.py:112-141 | one dataset request with limit 2000; the result and writes are as collected under `platform_times` |
| Mta.MtaFetcher.ResultsOf | data_pipeline/mta_fetcher.py:147-157 | the `results` dict holds one entry per fetch that returned a frame |
| Mta.MtaFetcher.ResultsSpec | data_pipeline/mta_fetcher.py:147-157 | result names are among `terminal_otp` and `platform_times`; each is present iff its fetch returned a frame, with that frame; `terminal_otp` comes first |
| Mta.ResultsNamesUnique | data_pipeline/mta_fetcher.py:147-157 | no name appears twice in the results |
| Mta.MtaFetcher.FetchAll | data_pipeline/mta_fetcher.py:143-173 | an on-time summary fault propagates before the second fetch; otherwise both fetches run, the results are as above, and the summary file is written iff the results are non-empty |
| Mta.SummaryDocument | data_pipeline/mta_fetcher.py:161-166 | the summary dict has three members; `datasets_fetched` lists one name and `record_counts` one count per result |
| Mta.MtaFetcher.SummaryWrites | data_pipeline/mta_fetcher.py:159-169 | the summary file is written iff the results are non-empty, once, holding the summary document |
| Mta.SummarySpec | data_pipeline/mta_fetcher.py:160-166 | the summary holds the ISO time, `datasets_fetched` = the result names in insertion order, and `record_counts[k]` = the row count of `results[k]` |

## Left out

- HTTP, file writes and `mkdir` are left out. Requests and files are
  values, and responses are parameters. `raise_for_status` and timeouts
  are folded into the `None` answer.
- `datetime.now()` and `time.sleep` are left out. The clock readings are
  arguments, and the sleeps are the list of their durations.
- Log and print messages, `utils/logger.py` and the `__main__` blocks are
  not modelled. Logging writes only stdout and the daily log file
  `logs/<YYYYmmdd>.log` (whose directory importing the logger creates);
  the model's trace of written files covers the data files only.
- `safe_json_load` is file I/O plus a foreign JSON parser.
  `config.py` is modelled only for the constants and paths the fetchers
  read. `data_pipeline/debug_mta.py` is modelled only for its
  "greatest file name is the latest" rule.
- Helpers.CleanColumnNamesSpec: lowercasing is ASCII only. Python's
  `str.lower` on other letters (which can change a label's length) is not
  modelled.
- Helpers.Retry: `delay` is an integer, not a float. A negative delay is
  modelled: `time.sleep` raises `ValueError` at the first wait, which ends
  the loop as `SleepRejected` (see `Helpers.RetryNegativeDelay`); the
  exception's message is not modelled.
- Weather.WeatherFetcher.ParseWeatherData: `weather[0]` on a dict raises
  `KeyError` with the key spelled as the string `"0"`. Python's JSON keys
  are strings, so this is the same failure branch.
- Frames: a DataFrame keeps only its labels and row count, not its cell
  values or dtypes. MTA responses are taken to be lists of row objects, as
  the Socrata API returns them.
- Mta.OtpSummaryFault: only the missing-`otp` `KeyError` is modelled,
  and its message is reduced to the column name (pandas words it as
  "Column(s) ['otp'] do not exist"). The `TypeError` pandas raises for a
  non-numeric `otp` column and the `ValueError` for a repeated `line`
  label are not modelled, since a frame keeps no cell values or dtypes.
- Json.Object: the type admits a key twice, which no Python dict can hold;
  such values stand for no document `json.loads` returns. `Lookup` takes
  the first member with the key, which for objects satisfying
  `Json.UniqueKeys` is the only one (`Json.LookupKeyAt`).
- Mta.MtaFetcher.FetchTerminalOtp: the `groupby('line')` mean and the
  `round(2)` are float numerics in pandas and are not modelled. The only
  fault kept is the `KeyError` for a missing `otp` column. Faults pandas
  raises for non-numeric `otp` values or repeated labels are not modelled.
- The unused `self.lines` list and the `MTA_API_KEY` setting are not
  modelled.
