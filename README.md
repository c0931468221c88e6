# Weather normalisation pipeline, modelled in Dafny

The modelled program is a one-shot weather ETL (extract, transform, load) job, `main.py`. It asks the
OpenWeatherMap API for the current weather and the forecast of each named location. It turns the nested
JSON responses into flat rows: a `weather` list is cut to its first element, nested dicts become
`key_subkey` columns, a `dt_txt` text column is derived from the Unix `dt` field, and each forecast's
`city` block is joined onto its entries. Finally it archives the response dicts in a bucket and appends
the two tables to a warehouse.

The model has six modules:

- `Json` (`json.dfy`) holds the response values. A dict is an association list, and assigning to it
  behaves like a Python dict: an existing key keeps its position, a new one is appended. Python's
  failure modes are errors of a `Result` (`KeyError`, `IndexError`, `TypeError`, `AttributeError`).
- `Flatten` (`flatten.dfy`) holds the one-level flattening loop. It is a method with nested loops,
  proved equal to a specification: the list of writes in order, applied to an empty dict one after
  another.
- `Civil` (`civil.dfy`) turns epoch seconds into `%Y-%m-%d %H:%M:%S` text. The calendar is proved
  against a reference day count in both directions, and the text is proved to parse back to the same
  instant.
- `Transform` (`transform.dfy`) holds the two transformers. They work in place on a `Payload` object,
  which stands for the caller's dict: they mutate it, and the caller later archives what they left.
- `Fetch` (`fetch.dfy`) holds `get_weather_data` over a `WeatherApi` oracle object. The oracle gives a
  fixed answer per URL and logs every URL asked for.
- `Pipeline` (`pipeline.dfy`) holds `main`: the two transform loops, the concatenation of the tables,
  the archive uploads and the success string. The model returns what `main` hands to the storage
  services as a `Report`.

Where the system's documentation and the code disagree, the model follows the code:

- Forecast rows. `pd.concat([forecast_df, city_df], axis=1)` aligns on the row index. The `city`
  columns therefore land on row 0 only (`Transform.CityOnlyOnRowZero`). A forecast with an empty
  `list` yields one row holding the city alone (`Transform.ForecastRowsShape`), not zero rows.
- Column collisions. An entry column and a city column with the same name both stay in row 0
  (`Transform.SharedColumnDuplicated`). Within one dict, a later write wins
  (`Flatten.FlattenedCollisionExample`).
- Archive contents. The archive holds the dicts as the transformers left them, not as fetched
  (`Pipeline.ArchivedCurrentWeather`, `Pipeline.ArchivedForecastList`). Take a forecast that transformed and
  whose first entry's `weather` list started with a dict. Once archived, it no longer transforms:
  its first entry now fails with `KeyError(0)` (`Transform.ForecastNotIdempotent`).
- Failures. A transform error ends the run before anything is archived (`Pipeline.ProcessOk`). A
  failed current-weather request skips that location's forecast request: the request log of
  `Fetch.VisitLocation` and `Fetch.GetWeatherData` holds the forecast URL only after a current body
  (`Fetch.LocationRequests`).

All six files form one program and are verified together, each proof within a resource limit of
2000000:

`dafny verify --resource-limit 2000000 --verification-time-limit 0 --warn-contradictory-assumptions json.dfy flatten.dfy civil.dfy transform.dfy fetch.dfy pipeline.dfy`

## Model

| member | source | states |
|---|---|---|
| Json.Assign | main.py:84 | `d[k] = v` on a dict; specified by `Json.AssignSpec` and `Json.AssignPositions` |
| Json.First | main.py:84 | `v[0]`: a non-empty list's first element, a non-empty string's first character, `IndexError` on an empty list or string, `KeyError(0)` on a dict, `TypeError` on null, a boolean or an integer; used by `Transform.NormaliseCurrentOther` and `Transform.SecondEntryFails` |
| Json.Iterate | main.py:143 | `for x in v`: a list's items, a dict's keys, a string's characters, `TypeError` otherwise; used by `Transform.ForecastRowsShape` |
| Json.GetKey | main.py:138-141 | `d[k]` is the value stored under `k`; a dict without `k` gives `KeyError(k)`; a non-dict gives `TypeError` |
| Json.AssignSpec | main.py:91-93 | dict assignment: the key list is unchanged when the key was present and gains it at the end otherwise; the key now maps to the value; every other key keeps its value; distinct keys stay distinct |
| Json.AssignPositions | main.py:91-93 | assignment keeps the relative order of the keys already present |
| Flatten.Writes | main.py:88-93 | the `(column, value)` writes of the loop, in order: `key_subkey` for each entry of a dict value, `key` for any other value; specified by `Flatten.WritesMember` and `Flatten.WritesScalars` |
| Flatten.Build | main.py:87-93 | the dict obtained by performing writes on `{}` one after another; specified by `Flatten.BuildColumns`, `Flatten.BuildLastWrite` and `Flatten.BuildOrder` |
| Flatten.FlattenDict | main.py:87-93 | the nested flattening loop returns exactly the dict built by applying the writes `key_subkey := v` (dict values) and `key := v` (other values), in order |
| Flatten.BuildColumns | main.py:87-93 | the flattened dict has a column exactly for each key written, and no column twice |
| Flatten.BuildCells | main.py:87-93 | every cell of the flattened dict is one of the writes |
| Flatten.BuildLastWrite | main.py:91-93 | a column holds the value of its last write |
| Flatten.BuildOrder | main.py:87-93 | columns appear in the order of their first write |
| Flatten.BuildDistinct | main.py:87-93 | writes to distinct columns build a dict equal to those writes |
| Flatten.WritesMember | main.py:88-93 | a cell is written iff some top-level entry produces it: a dict value produces its prefixed sub-entries, any other value produces itself |
| Flatten.WritesScalars | main.py:92-93 | a dict without nested dicts produces its own entries as the writes |
| Flatten.FlattenedColumns | main.py:116-122 | the flattened dict has distinct columns, each cell comes from one entry, and every scalar key and every `key_subkey` column is present |
| Flatten.FlattenedWithoutCollision | main.py:116-122 | without column collisions, each scalar keeps its value under its key and each nested value appears under `key_subkey` |
| Flatten.FlattenedIdentity | main.py:116-122 | a flat dict flattens to itself |
| Flatten.FlattenedCollisionExample | main.py:91-93 | `{"a_b": 1, "a": {"b": 2}}` flattens to a single column `a_b` holding 2: the later write wins |
| Civil.FromEpoch | main.py:98 | `pd.to_datetime(dt, unit='s')` in UTC; specified by `Civil.FromEpochSound` and `Civil.FromEpochComplete` |
| Civil.Strftime | main.py:99 | `.strftime('%Y-%m-%d %H:%M:%S')`; specified by `Civil.StrftimeParse` |
| Civil.EpochText | main.py:98-99 | the two steps together; specified by `Civil.EpochTextSpec` and `Civil.EpochTextExample` |
| Civil.DaysBeforeYearClosed | main.py:98 | days from 1970 to the start of year `y` equal `365*(y-1970)` plus the leap days in between |
| Civil.CivilFromDaysSound | main.py:98 | day number → date gives a valid Gregorian date that maps back to the same day number |
| Civil.CivilFromDaysComplete | main.py:98 | every valid date from 1970 on maps to a day number that maps back to that date |
| Civil.FromEpochSound | main.py:98 | epoch seconds → date-time gives a valid UTC date-time whose epoch value is the input |
| Civil.FromEpochComplete | main.py:98 | every valid date-time from 1970 on is the conversion of its own epoch value |
| Civil.FromEpochYearBound | main.py:98 | inside the nanosecond Timestamp range, the year lies between 1970 and 2263 |
| Civil.DigitsValue | main.py:99 | the decimal digits of `n` read back as `n` |
| Civil.PaddedValue | main.py:99 | zero padding to width `w` gives at least `w` digits, exactly `w` when `n` fits, and they read back as `n` |
| Civil.StrftimeParse | main.py:99 | `%Y-%m-%d %H:%M:%S` of a date-time with a 4-digit year is 19 characters and parses back to the same date-time |
| Civil.EpochTextSpec | main.py:98-99 | the `dt_txt` text of an in-range epoch is 19 characters, parses to a valid date-time, and its epoch value is the input |
| Civil.EpochExample | main.py:98 | 1700000000 seconds is 2023-11-14 22:13:20 |
| Civil.EpochTextExample | main.py:98-99 | the `dt_txt` of 1700000000 is `"2023-11-14 22:13:20"` |
| Transform.NormaliseCurrent | main.py:83-84 | the dict after the `weather` check, which succeeds only on a dict and yields a dict; specified by `Transform.NormaliseCurrentList`, `Transform.NormaliseCurrentOther` and `Transform.CurrentIdempotent` |
| Transform.CurrentRow | main.py:70-101 | the row or error `transform_current_weather_data` returns; specified by `Transform.CurrentRowDt` and `Transform.CurrentRowDtText`, computed by `Transform.TransformCurrent` |
| Transform.DtText | main.py:98-99 | the conversion succeeds exactly for an integer `dt` from 0 to `MaxSeconds`, the last second of the nanosecond Timestamp range; a larger one gives `OutOfBoundsDatetime` |
| Transform.TransformCurrent | main.py:70-101 | returns the current row or the error, and leaves the caller's dict normalised (a `weather` list replaced by its first element) |
| Transform.NormaliseCurrentList | main.py:83-84 | a non-empty `weather` list is replaced in place by its first element; every other key and the key order are unchanged |
| Transform.NormaliseCurrentOther | main.py:83-84 | a missing `weather` gives `KeyError('weather')`, an empty list gives `IndexError`, and a non-list leaves the dict as it is |
| Transform.CurrentIdempotent | main.py:83-84 | normalising again changes nothing and gives the same row, unless the first element was itself a list |
| Transform.CurrentTwiceExample | main.py:83-84 | a `weather` list whose first element is a list is unwrapped one level per call |
| Transform.CurrentRowDt | main.py:96-99 | without `dt` the row is the flattened dict; with `dt` it has a `dt_txt` column holding the text of an in-range integer `dt`, and every other column, `dt` included, is the flattened dict's |
| Transform.CurrentRowDtText | main.py:97-99 | in the row, `dt_txt` is 19 characters and parses back to the instant `dt` |
| Transform.NormaliseEntry | main.py:144 | the entry after `item['weather'] = item['weather'][0]`, or its error; specified by `Transform.ForecastAfterEffect` and `Transform.SecondEntryFails` |
| Transform.EntryRows | main.py:142-146 | the rows `forecast_df` accumulates, one per entry in order, or the first entry's error; specified by `Transform.EntryRowsFailure` and `Transform.EntryRowsContents`, computed by `Transform.FlattenEntries` |
| Transform.FirstFailure | main.py:143-145 | the index of the first forecast entry whose `weather` lookup fails; all entries before it succeed |
| Transform.EntryRowsFailure | main.py:143-146 | the entry rows exist iff no entry fails, and otherwise the error is that of the first failing entry |
| Transform.EntryRowsContents | main.py:143-146 | one row per entry, in order; row `i` is the flattened normalised entry `i` |
| Transform.FlattenEntries | main.py:143-146 | the entry loop returns the entry rows, and each entry before the first failure is normalised in the caller's list |
| Transform.TransformForecast | main.py:127-148 | returns the forecast rows or the error, and leaves the caller's dict as `Transform.ForecastAfter` gives it: the `list` entries before the first failure normalised, the rest as they were, and the whole dict unchanged when `city` is missing or not a dict, or `list` is missing or not a list |
| Transform.ForecastErrors | main.py:138-141 | a missing `city` gives `KeyError('city')`, a non-dict `city` gives `AttributeError`, a missing `list` gives `KeyError('list')` |
| Transform.JoinCity | main.py:148 | `pd.concat([forecast_df, city_df], axis=1)`; specified by `Transform.JoinCityShape` |
| Transform.ForecastRows | main.py:127-148 | the rows or error `transform_forecasted_weather_data` returns; specified by `Transform.ForecastErrors`, `Transform.ForecastRowsShape` and `Transform.CityOnlyOnRowZero`, computed by `Transform.TransformForecast` |
| Transform.ForecastAfter | main.py:141-144 | the dict the forecast transform leaves behind; specified by `Transform.ForecastAfterEffect` and `Transform.ForecastAfterLookups` |
| Transform.JoinCityShape | main.py:148 | the join has `max(n, 1)` rows: the city goes after row 0's columns, later rows are unchanged, and no entries gives the city row alone |
| Transform.ForecastRowsShape | main.py:138-148 | the number of rows is the number of entries (one if none); row 0 is entry 0 followed by the city columns; rows 1.. are the entries alone |
| Transform.CityOnlyOnRowZero | main.py:148 | a city column absent from entry `i >= 1` is absent from row `i` |
| Transform.SharedColumnDuplicated | main.py:148 | a column in both entry 0 and the city appears twice in row 0, once with the entry's value and once with the city's |
| Transform.ForecastAfterEffect | main.py:141-144 | the transform changes only `list`: entries before the first failure keep their keys and the values of all keys but `weather`, which is replaced by its first element; later entries are unchanged |
| Transform.AfterPrefixEntries | main.py:142-144 | every entry before the first failure is its original with `weather` replaced by `weather[0]`, the same keys, and every other key's value unchanged |
| Transform.ForecastAfterLookups | main.py:138-144 | after the transform, `city` is unchanged and `list` holds the partly normalised entries |
| Transform.ForecastNotIdempotent | main.py:144 | transforming an already transformed forecast fails with `KeyError(0)` when its first `weather` became a dict |
| Transform.SecondEntryFails | main.py:144 | every entry the loop normalised (each index before the first failure) whose `weather` list started with a dict fails a second normalisation with `KeyError(0)` |
| Fetch.CurrentUrl | main.py:57 | the current-weather f-string URL; specified by `Fetch.UrlShapes` |
| Fetch.ForecastUrl | main.py:58 | the forecast f-string URL; specified by `Fetch.UrlShapes` |
| Fetch.UrlShapes | main.py:51-58 | both URLs start with the base URL and their endpoint, end in `&units=metric`, and a current URL never equals a forecast URL |
| Fetch.WeatherApi.Get | main.py:26-29 | returns the endpoint's answer for the URL and logs the URL |
| Fetch.Visit | main.py:55-64 | one pass of the `try` block on `weather_data`; computed by `Fetch.VisitLocation`, specified by `Fetch.GatherLookup` |
| Fetch.Gather | main.py:52-66 | the dicts `get_weather_data` returns, or the escaping error; computed by `Fetch.GetWeatherData`, specified by `Fetch.GatherOk`, `Fetch.GatherLookup` and `Fetch.GatherContents` |
| Fetch.LocationRequests | main.py:57-62 | the URLs requested for one location: the current URL, then the forecast URL only when the current request returned a body; the request log of `Fetch.VisitLocation` |
| Fetch.VisitLocation | main.py:55-64 | one location: the current request, then, only if it succeeded, the forecast request; a `RequestException` keeps what was stored so far; anything else ends the run |
| Fetch.GetWeatherData | main.py:33-66 | returns the dicts built location by location, or the escaping error, and issues exactly the requests made up to that error |
| Fetch.GatherStops | main.py:63-64 | once an exception other than `RequestException` escapes, no later location is requested and the run fails |
| Fetch.GatherOk | main.py:54-66 | the fetch completes iff no location raises anything other than a `RequestException` |
| Fetch.GatherKeys | main.py:61-62 | only location names are stored |
| Fetch.GatherLookup | main.py:61-64 | `current[name]` is present iff its current request succeeded, and `forecast[name]` iff both of its requests did, with the fetched bodies |
| Fetch.GatherContents | main.py:54-62 | with distinct names, both dicts list exactly the fetched locations, in location order |
| Pipeline.Values | main.py:284 | the dicts `.items()` yields, in order; used by `Pipeline.AllCurrentRowsSpec`, `Pipeline.ProcessTables` and `Pipeline.ArchivedSpec` |
| Pipeline.Collect | main.py:284-291 | `pd.concat` of the per-response frames in order, or the first transform's error; specified by `Pipeline.CollectOk`, `Pipeline.CollectLength` and `Pipeline.CollectBlock` |
| Pipeline.CollectOk | main.py:284-291 | concatenating per-response frames succeeds iff every response transforms |
| Pipeline.CollectLength | main.py:286 | the table's length is the total of the frames' lengths |
| Pipeline.CollectBlock | main.py:291 | frame `i` sits in the table after the rows of frames `0..i-1` |
| Pipeline.CollectPrefix | main.py:291 | a prefix of the responses gives a prefix of the table |
| Pipeline.CollectStops | main.py:284-291 | once the responses so far have failed, the whole loop fails with that same error |
| Pipeline.AllCurrentRowsSpec | main.py:284-286 | the current table exists iff every current response transforms; it then has one row per response, row `i` being response `i`'s row |
| Pipeline.AllForecastRowsSpec | main.py:289-291 | the forecast table exists iff every forecast response transforms; each response's rows form one block, in response order |
| Pipeline.AllForecastRowsPrefix | main.py:289-291 | rows already in the forecast table are kept by later appends |
| Pipeline.ParseBodies | main.py:61-62 | one distinct fresh dict object per fetched body, holding that body |
| Pipeline.TransformAllCurrent | main.py:284-286 | the loop returns the current table or the first transform's error; when every transform succeeds, every dict is left as its transform leaves it |
| Pipeline.TransformAllForecast | main.py:289-291 | the loop returns the forecast table or the first transform's error; when every transform succeeds, every dict is left as its transform leaves it |
| Pipeline.ArchiveAll | main.py:297-304 | each dict is uploaded under `folder/location`, holding what the transforms left in it |
| Pipeline.Archive | main.py:297-304 | the `(folder/location, dict)` uploads of one archive loop; computed by `Pipeline.ArchiveAll` |
| Pipeline.Archived | main.py:297-304 | both archive loops, current first; specified by `Pipeline.ArchivedSpec` |
| Pipeline.Process | main.py:284-311 | everything `main` does after the fetch; specified by `Pipeline.ProcessOk`, `Pipeline.ProcessTables` and `Pipeline.ArchivedSpec` |
| Pipeline.Outcome | main.py:277-311 | the result of `main`; computed by `Pipeline.Run`, specified by `Pipeline.OutcomeFetched` |
| Pipeline.Run | main.py:246-311 | `main`: the result is the fetch followed by the processing, and the requests made are exactly those of the fetch |
| Pipeline.OutcomeFetched | main.py:277-311 | the run fails iff a request raises something other than a `RequestException`; otherwise it processes the fetched responses in location order |
| Pipeline.ProcessOk | main.py:284-304 | processing succeeds iff every fetched current response and every fetched forecast response transforms |
| Pipeline.ProcessTables | main.py:307-311 | a successful run returns `"200, Success"` and hands over two tables, `current_weather` (one row per current response) and `forecasted_weather` |
| Pipeline.ArchivedSpec | main.py:297-304 | one archive object per fetched response, current ones first, each under `current_weather/<name>` or `forecasted_weather/<name>`, holding the transformed dict |
| Pipeline.ArchivedCurrentWeather | main.py:83-84 | the archived current dict has its `weather` list replaced by the first element, and is otherwise as fetched |
| Pipeline.ArchivedForecastList | main.py:142-144 | the archived forecast dict keeps its `city`; its `list` holds the entries before the first failure with `weather` replaced by `weather[0]` and their other keys as fetched, then the remaining entries as fetched |

## Left out

- HTTP transport (`requests.get`, `raise_for_status`, `.json()`): the oracle `respond` answers each URL with a parsed body, a `RequestException`, or another exception.
- The error message printed for a failed location (line 64) and every other `print`: output only.
- The object store and the warehouse (`upload_json_to_gcs`, `upload_df_to_bigquery`), including clients, credentials, buckets, datasets, job configuration and their failures. The model returns what would be uploaded, as a `Report`.
- The timestamp in each object name (line 173): a clock read. Archive paths stop at the folder `current_weather/<name>` or `forecasted_weather/<name>`.
- The request parsing at lines 259-262 and the `settings` module: their results are unused or are configuration. The API key is a parameter.
- The hard-coded location table (lines 268-274): the locations are an input. Each location is its `lat` and `lon` strings, so a location without `lat`/`lon` (a `KeyError` at line 57) is not modelled.
- pandas frames: a row is the list of its own cells. The frame-wide column union, missing cells (NaN), dtype inference and column reordering on `concat` are not modelled.
- Floating-point values in the responses: JSON numbers are integers, strings, booleans or null.
- `Transform.DtText`: a negative or non-integer `dt` gives `Unmodelled` rather than pandas' result, because the model keeps integer seconds from 1970 only.
- Aliasing between response dicts: each fetched body is its own object, so one dict shared by two responses is not modelled.
- Concurrency: the program is sequential and so is the model.
