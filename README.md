# asi-lib core in Dafny

A model of two parts of the asi-lib all-sky-imager library, with proofs of
what they promise.

- **REGO image download** (`asi/download/download_rego.py`). It builds the
  remote month directory `…/reg/<station>/<year>/<MM>/` and the hour pattern
  `<station>_<YYYYMMDDHH>`. It filters the directory's links with a
  case-insensitive substring test (`search_hrefs`), which fails with
  `NotADirectoryError` when nothing matches. In hour mode it fetches the first
  match; in whole-day mode it fetches every link. A file is fetched only when
  forced or not yet present locally. `stream_large_file` writes the body in
  5 MiB chunks and stops after the first chunk under `test_flag`.
- **The `Imager` session object** (`asilib/imager.py`). Construction
  upper-cases the array code, filters the station table to that array, and
  rejects codes other than REGO and THEMIS. `load` empties `self.data` and
  loads each station's frames and calibration. A "data not found" error skips
  the station in the loop branches; any other error aborts the call. It then
  builds the hourly availability table. `__repr__` is modelled as text.

Files:

- `common.dfy`: `Option`, `Result` and `Outcome` (pass or fail with an error).
- `strings.dfy`: ASCII `str.lower`/`str.upper`, substring `in`, `str(n)`,
  `str.zfill`, `str.join` and a split used to read URLs back.
- `calendar.dfy`: date-times, their validity, and epoch seconds.
- `rego_download.dfy` (module `RegoDownload`): the download plan as pure
  functions (`Matching`, `Step`, `Run`, `Download`) with their lemmas. Class
  `RegoCache` holds the local files and the log of streamed file URLs; its methods
  `StreamLargeFile`, `FetchAll` and `DownloadRegoImg` are proved against
  those functions.
- `imager.dfy` (module `AsiImager`): the station-table filter and the `load`
  semantics as functions (`Gather`, `SingleLoad`, `Loaded`, `LoadOutcome`)
  with their lemmas. Class `Imager` has methods `Load`, `LoadSingle` and
  `LoadEach`, proved against those functions. `NewImager` models the
  constructor call with its assertion.

The HTTP server is a value `Server`: a listing and a body for each URL. The
frame and calibration loaders are a value `Loader`: each call gives a result
or the exception it raises. The local data directory is a map from path to
bytes, plus the list of file URLs streamed.

Where the code and its own documentation disagree, the model follows the code:

- With an empty pattern, `search_hrefs` keeps the parent link `../`, although
  its docstring says it is dropped (`ParentLinkKept`). The whole-day loop then
  handles it: `<data_dir>/rego/..` is a directory, so it is not a file, and
  `stream_large_file` fails to open it for writing (`IsADirectoryError`, or
  `TypeError` first when the response has no `content-length`). The model
  does not reproduce that failure; see `RegoDownload.DownloadDayPaths` under
  "## Left out".
- "First match" means first in the listing's document order, not the
  lexicographically first name (`MatchingHeadIsFirst`).
- In the single-string branch of `load`, a "data not found" error is
  swallowed but the station is not skipped. `load_cal` is called and then the
  unbound `times` is read, which raises `UnboundLocalError` (`SingleNeverSkips`).
- `load` ignores its `time_range` argument. The loaders and the table use
  `self.time_range`, and `_check_time_range_exists` cannot raise on a
  constructed object (`TimeRangeCheckNeverRaises`). With `time_range=None`, the
  table line raises `TypeError`.
- The availability table's rows are the stations that loaded, not the
  stations requested. Its cells are left empty.
- `__repr__` promises an expression that re-creates the object, but a single
  station code is written without quotes: `Imager('THEMIS', 'GILL', None)`
  gives `Imager('THEMIS', stations=GILL, time_range=None)`, which names `GILL`
  as a variable (`ReprSingleUnquoted`).

The specification functions the lemmas are about, with the lines they model:

- `RegoDownload.DirectoryUrl`: asi/download/download_rego.py:61.
- `RegoDownload.HourStamp` and `RegoDownload.HourPattern`: asi/download/download_rego.py:65.
- `RegoDownload.Matching`: asi/download/download_rego.py:168-170.
- `RegoDownload.LocalPath`: asi/download/download_rego.py:69 and 82.
- `RegoDownload.Step` and `RegoDownload.Run`: asi/download/download_rego.py:80-86.
- `RegoDownload.Download`: asi/download/download_rego.py:25-87.
- `AsiImager.CheckArrayCode`: asilib/imager.py:238-244.
- `AsiImager.CheckTimeRangeExists`: asilib/imager.py:265-272.
- `AsiImager.Iterated`, `AsiImager.StationStep` and `AsiImager.Gather`: asilib/imager.py:138-152 and 170-182.
- `AsiImager.SingleLoad`: asilib/imager.py:156-168.
- `AsiImager.Loaded`: asilib/imager.py:136-182.
- `AsiImager.HourlyColumns` and `AsiImager.AvailabilityFor`: asilib/imager.py:184.
- `AsiImager.LoadOutcome`: asilib/imager.py:136-184.
- `AsiImager.ReprText` and `AsiImager.Imager.Repr`: asilib/imager.py:203-209.
- `RegoDownload.Matches`: the test `search_pattern.lower() in href.lower()` at asi/download/download_rego.py:169.
- `RegoDownload.Concat`: the in-order `f.write` of each chunk at asi/download/download_rego.py:133.
- `RegoDownload.Streamed`: the file contents that asi/download/download_rego.py:131-135 leave behind.
- `AsiImager.IsNoData`: the "ASI data not found for station" test at asilib/imager.py:146, 162 and 176.
- `AsiImager.Insert`: the dict assignment `self.data[station] = …` at asilib/imager.py:152, 168 and 182.

## Model

| member | source | states |
|---|---|---|
| Strings.Lower | asi/download/download_rego.py:169 | `str.lower` keeps the length and lower-cases each ASCII capital, character by character |
| Strings.Upper | asilib/imager.py:65 | `str.upper` keeps the length and upper-cases each ASCII small letter, character by character |
| Strings.CaseMapsAbsorb | asilib/imager.py:65 | lower-casing undoes upper-casing and vice versa; upper-casing twice is upper-casing once |
| Strings.SameUpperIffSameLower | asilib/imager.py:233 | two strings agree after `upper()` exactly when they agree after `lower()` |
| Strings.LowerFixesIffNoCapital | asi/download/download_rego.py:169 | `lower()` leaves a string unchanged exactly when it has no capital |
| Strings.ContainsAt | asi/download/download_rego.py:169 | `needle in hay` holds exactly when `needle` occurs at some offset of `hay` |
| Strings.EmptyContained | asi/download/download_rego.py:169 | the empty string is in every string |
| Strings.Decimal | asi/download/download_rego.py:61 | `str(n)` is all digits, at least one, with no leading zero |
| Strings.DecimalValue | asi/download/download_rego.py:61 | `str(n)` reads back as `n` |
| Strings.DecimalLength | asi/download/download_rego.py:65 | a number below 10^k has at most k digits |
| Strings.ZFill | asi/download/download_rego.py:61 | `zfill(w)` pads to at least width `w` and ends with the original string |
| Strings.ZFillValue | asi/download/download_rego.py:61 | left zero padding does not change the value of a digit string |
| Strings.FixedWidthRoundTrip | asi/download/download_rego.py:65 | a number below 10^w written on `w` digits is exactly `w` digits that read back as the number |
| Strings.SplitOnAppend | asi/download/download_rego.py:61 | splitting `a/b` on `/` gives the fields of `a` followed by those of `b` |
| RegoDownload.DirectoryUrlSegments | asi/download/download_rego.py:61 | the directory URL is the base URL followed by the lower-cased station's fields, the year, the two-digit month and an empty field |
| RegoDownload.HourStampFields | asi/download/download_rego.py:65 | `strftime("%Y%m%d%H")` is ten digits that read back as year, month, day and hour |
| RegoDownload.HourPatternRoundTrip | asi/download/download_rego.py:65 | the hour pattern is the lower-cased station, `_`, then a stamp reading back as the hour |
| RegoDownload.HourPatternInjective | asi/download/download_rego.py:65 | two hours share a pattern only if they are the same hour of the same day and the stations agree up to case |
| RegoDownload.LuckDirectory | asi/tests/test_download_rego.py:17-21 | for station `Luck` in August 2020 the directory is `…/reg/luck/2020/08/` |
| RegoDownload.LuckPattern | asi/download/download_rego.py:65 | for `Luck` at 2020-08-01 04h the pattern is `luck_2020080104` |
| RegoDownload.LuckMatch | asi/tests/test_download_rego.py:35-39 | the file `clg_l1_rgf_luck_2020080104_v01.cdf` matches the pattern `Luck_2020080104` despite the capital |
| RegoDownload.MatchingMembers | asi/download/download_rego.py:168-170 | an href is kept exactly when it is listed and matches the pattern |
| RegoDownload.MatchingAppend | asi/download/download_rego.py:168-170 | filtering keeps document order: filtering a concatenation concatenates the filtered parts |
| RegoDownload.MatchingEmptyIff | asi/download/download_rego.py:171 | the filter is empty exactly when no listed href matches |
| RegoDownload.EmptyPatternMatches | asi/download/download_rego.py:142 | every href matches the default empty pattern |
| RegoDownload.MatchingEmptyPattern | asi/download/download_rego.py:77 | in whole-day mode the filter returns the listing unchanged |
| RegoDownload.ParentLinkKept | asi/download/download_rego.py:168-170 | a listed `../` survives the empty pattern |
| RegoDownload.MatchingIgnoresCase | asi/download/download_rego.py:169 | upper-casing the pattern does not change the result |
| RegoDownload.SearchHrefs | asi/download/download_rego.py:142-174 | succeeds exactly when some href matches, returning the non-empty filter in document order; otherwise `NotADirectoryError` naming the URL and the pattern |
| RegoDownload.ConcatAppend | asi/download/download_rego.py:131-133 | writing two runs of chunks writes the first run then the second |
| RegoDownload.Chunked | asi/download/download_rego.py:132 | every chunk is non-empty and at most 5 MiB |
| RegoDownload.ChunkedRoundTrip | asi/download/download_rego.py:131-133 | writing every chunk in order reproduces the body |
| RegoDownload.FirstChunk | asi/download/download_rego.py:132-135 | the first chunk is the first 5 MiB of the body, or all of a shorter body |
| RegoDownload.TestFlagWritesFirstChunk | asi/download/download_rego.py:134-135 | under `test_flag` the file holds exactly the first chunk |
| RegoDownload.WholeBodyStreamed | asi/download/download_rego.py:131-139 | a loop that runs to the end leaves the whole body in the file |
| RegoDownload.LocalPaths | asi/download/download_rego.py:82-83 | one local path per file name, in listing order, each `<data_dir>/rego/<name>` |
| RegoDownload.LocalPathInjective | asi/download/download_rego.py:82 | distinct file names get distinct local paths |
| RegoDownload.RunCachesAll | asi/download/download_rego.py:80-86 | after the whole-day loop every handled file is local, no local file is removed and the fetch log only grows |
| RegoDownload.RunForced | asi/download/download_rego.py:85-86 | with `force_download` every file is fetched, in listing order |
| RegoDownload.RunSkipsCached | asi/download/download_rego.py:85 | without `force_download`, when every file is already local, nothing is fetched or changed |
| RegoDownload.RunKeepsCachedContents | asi/download/download_rego.py:85 | without `force_download`, an already-local file keeps its contents |
| RegoDownload.RunFetchesOnlyMissing | asi/download/download_rego.py:85-86 | without `force_download`, every fetched URL is for a file that was not local before |
| RegoDownload.RunFetchesMissing | asi/download/download_rego.py:85-86 | every handled file that was not local before the loop is fetched during it |
| RegoDownload.RunLocalOnlyIfFetched | asi/download/download_rego.py:80-86 | a path that is local after the loop but not before belongs to a handled file fetched during the loop |
| RegoDownload.DownloadFailsIffNoMatch | asi/download/download_rego.py:66 | `download_rego_img` raises exactly when nothing in the directory matches, with the URL and pattern, and then changes nothing; on success the result is non-empty |
| RegoDownload.MatchingHeadIsFirst | asi/download/download_rego.py:69 | `file_names[0]` is the first listed href that matches |
| RegoDownload.DownloadHourFirstMatch | asi/download/download_rego.py:63-74 | hour mode returns the one local path of the first listed file matching the hour pattern, streaming it only when forced or not yet local |
| RegoDownload.DownloadDayPaths | asi/download/download_rego.py:75-87 | whole-day mode fails exactly on an empty listing, and otherwise returns the local paths of every listed href, in order |
| RegoDownload.DownloadCachesResult | asi/download/download_rego.py:72-74 | every returned path is a local file afterwards; no local file is removed and the fetch log only grows |
| RegoDownload.DownloadIdempotent | asi/download/download_rego.py:72 | a second non-forced call with the same arguments returns the same result and leaves the files and the log of streamed file URLs unchanged |
| RegoDownload.DownloadForced | asi/download/download_rego.py:43-44 | a forced call fetches every file it returns, in order |
| RegoDownload.RegoCache.constructor | asi/download/download_rego.py:20-22 | a cache over the data directory, holding the given files, with nothing fetched yet |
| RegoDownload.RegoCache.StreamLargeFile | asi/download/download_rego.py:107-140 | the file at `save_path` is replaced by the body, or by its first chunk under `test_flag`; the counter ends at the body length, or 0 under `test_flag` |
| RegoDownload.RegoCache.FetchAll | asi/download/download_rego.py:78-87 | returns the local paths of the names and leaves the cache as the whole-day plan says |
| RegoDownload.RegoCache.DownloadRegoImg | asi/download/download_rego.py:25-87 | result and new cache are those of the `Download` plan, whose properties are the lemmas above |
| AsiImager.ArrayCodeCaseInsensitive | asilib/imager.py:238-244 | since the code is upper-cased first, it is accepted exactly when it is `rego` or `themis` in any capitalisation |
| AsiImager.ArrayAttributes | asilib/imager.py:222-236 | the rows are exactly the station-table rows whose upper-cased array column equals the array, in table order, each with its table row number |
| AsiImager.StationColumn | asilib/imager.py:141 | the station column, one entry per row, in row order |
| AsiImager.TimeRangeCheckNeverRaises | asilib/imager.py:265-272 | on a constructed object, which always has `time_range`, the check never raises |
| AsiImager.DedupDistinct | asilib/imager.py:152 | with no repeated station, the dict's keys are the stations in loop order |
| AsiImager.GatherNoFatal | asilib/imager.py:139-152 | with no fatal station, the station loop completes with no error; `self.data` holds each surviving station once, in first-loop order, with the entry its loaders give |
| AsiImager.GatherAbortsAtFirstFatal | asilib/imager.py:143-151 | the first fatal station aborts with its exception; `self.data` keeps what the stations before it stored |
| AsiImager.GatherFailsIffFatal | asilib/imager.py:170-182 | `load` raises during the loop exactly when some iterated station is fatal |
| AsiImager.GatherKeysIterated | asilib/imager.py:137 | every key left in `self.data` is a station iterated by this call, so nothing from an earlier `load` remains |
| AsiImager.SingleNeverSkips | asilib/imager.py:157-168 | a single station is stored exactly when frames and calibration both load; a swallowed not-found error followed by a loaded calibration ends in `UnboundLocalError` |
| AsiImager.HourlyColumnsShape | asilib/imager.py:184 | hourly columns run from the first instant in steps of one hour, none after the last, the last within an hour of it |
| AsiImager.AvailabilityShape | asilib/imager.py:184 | the table exists exactly when `time_range` is a non-empty list; its rows are the keys of `self.data` and its columns the hours from first to last instant |
| AsiImager.ReprArrayRoundTrip | asilib/imager.py:203-209 | the array code reads back from the `repr` text |
| AsiImager.ReprSingleUnquoted | asilib/imager.py:203-209 | a single station is not written as a string literal; for `THEMIS` and `GILL` the text is `Imager('THEMIS', stations=GILL, time_range=None)` |
| AsiImager.Imager.Init | asilib/imager.py:53-72 | stores the upper-cased array, the stations, the time range and the filtered station table |
| AsiImager.Imager.LoadSingle | asilib/imager.py:157-168 | `self.data` and the error are those `SingleLoad` gives |
| AsiImager.Imager.LoadEach | asilib/imager.py:139-152 | `self.data` (keys in insertion order) and the error are those `Gather` gives; keys stay distinct |
| AsiImager.Imager.Load | asilib/imager.py:111-188 | `self.data` becomes the gathered dict of this call; the result is the gathering error, else the table's error; `data_availability` is set only on success; the other fields are unchanged |
| AsiImager.NewImager | asilib/imager.py:53-75 | succeeds exactly when the array is `rego` or `themis` in any case, else `AssertionError` with the upper-cased code; a new object is fully initialised |

## Left out

- HTTP and HTML parsing: `requests.get` and BeautifulSoup become the `Server` value. Its listing is the sequence of `<a href>` values in document order. Status codes, redirects and transport errors are not modelled.
- `search_hrefs` requests the directory listing on every call, even when every file is already cached, so a repeated non-forced call still makes one network request. The model logs only streamed file URLs, not listing requests.
- The `content-length` header, the progress line and its percentage (`print`) are left out. A missing header, which crashes `int(None)`, is not modelled.
- RegoDownload.DownloadDayPaths: at a listed `../` the source raises, after streaming the files listed before it, because `pathlib` turns it into the directory `<data_dir>/rego/..`, which cannot be opened for writing. An absolute href makes the source write outside `rego/` instead. The model treats every href as a plain file name and returns a path for it, so its success on such a listing is not the source's behaviour.
- RegoDownload.LocalPathInjective: it holds of the string `data_dir + "/rego/" + name`, not of `pathlib.Path(data_dir, 'rego', name)`. With pathlib, `a`, `a/` and `./a` name one path, and an absolute href replaces the whole prefix. `RegoDownload.RunFetchesMissing` relies on it, so it too assumes hrefs are plain file names.
- The file system: a local file is a map entry, and "is a file" is membership. Path normalisation, the `rego/` directory creation at import, and a `../` href naming the parent directory itself are not modelled.
- RegoCache.StreamLargeFile: `iter_content` is modelled as exact 5 MiB chunks. The real server may deliver chunks of other sizes; only the concatenation is promised.
- `dateutil.parser.parse` of a string `day`: the model takes a date-time.
- RegoDownload.HourStamp: `%Y` is rendered on four digits. glibc's `strftime` does not pad years below 1000.
- `download_rego_cal`, `Imager.download` and `Imager.plot` are empty stubs in the source and have no model.
- `Imager.__str__`: it tests the misspelt attribute `data_avaliability`, so it never shows the table. It and the `print` in `load` are output only.
- `_check_station_codes` is never called (its call is commented out) and is not modelled.
- `_validate_time_range` (asilib/io/load.py) is not part of this model. Time ranges are taken as already-valid lists of date-times.
- `get_frames` and `load_cal` are not part of this model. Their outcomes are the `Loader` value; frames and skymaps are opaque.
- `pd.read_csv` of the station table becomes a parameter holding its array and station columns. The other columns are not modelled.
- AsiImager.Imager.Init: before the first `load`, `data` and `data_availability` are absent in the source (reading them raises `AttributeError`). The model starts them empty and `None`.
- AsiImager.AvailabilityFor: the table's cells (all NaN) and pandas' datetime index type are not modelled. Columns are epoch seconds.
- AsiImager.ReprText: strings in a station list are quoted with `'` only. Python switches to `"` for a name containing `'` and escapes backslashes; neither is modelled. Every sized container is written as a list `[...]`, though Python writes a tuple as `(...)`. Date-times with microseconds are not modelled.
- AsiImager.Stations: a station list's elements are taken to be strings.
- Case mapping covers ASCII letters only. Python's Unicode `lower`/`upper` are not modelled.
- The `__main__` blocks and the tests that need the network are not modelled. The LUCK test's URL, pattern and match are lemmas.
