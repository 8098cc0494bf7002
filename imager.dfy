/**
 * The `Imager` session object: construction (array code upper-cased and
 * checked, station table filtered to the array), `load` (per-station
 * loading with "no data" failures skipped, every other failure aborting),
 * the availability table's shape, and `__repr__`.
 *
 * The frame and calibration loaders are not part of this model; a
 * `Loader` value stands for them, giving for each call either its result
 * or the exception it raises.
 */
module AsiImager {
  import opened Common
  import opened Strings
  import opened Calendar

  const SupportedArrays: seq<string> := ["REGO", "THEMIS"]

  /** The message fragment that marks a loader's `FileNotFoundError` as "this station has no data". */
  const NotFoundMarker: string := "ASI data not found for station"

  const SecondsPerHour: nat := 3600

  type Instant = t: DateTime | t.Valid() witness DateTime(1970, 1, 1, 0, 0, 0)

  /** A row of the station table (its location columns are not modelled). */
  datatype StationRow = StationRow(asiArray: string, station: string)

  /** A row of `array_attributes`: the row number in the station table, kept by `reset_index`, and the row. */
  datatype AttributeRow = AttributeRow(index: nat, asiArray: string, station: string)

  /** The `stations` argument, by the shape the code tests: `None`, a `str`, something with `__len__`, anything else. */
  datatype Stations = AllStations | Single(code: string) | Listed(codes: seq<string>) | Unsized(shown: string)

  /** An exception raised by a loader; `message` is its `str()`. */
  datatype PyException = FileNotFoundError(message: string) | OtherException(name: string, message: string)

  type Image = seq<seq<int>>
  type Skymap = map<string, seq<int>>

  datatype FramesOutcome = Frames(times: seq<DateTime>, images: seq<Image>) | FramesRaised(exception: PyException)
  datatype CalOutcome = Calibration(skymap: Skymap) | CalRaised(exception: PyException)

  /** `get_frames(time_range, array, station)` and `load_cal(array, station)`, as the outcomes they give. */
  datatype Loader = Loader(getFrames: (Option<seq<Instant>>, string, string) -> FramesOutcome,
                           loadCal: (string, string) -> CalOutcome)

  /** One value of `self.data`: `{'times': ..., 'frames': ..., 'cal': ...}`. */
  datatype Entry = Entry(times: seq<DateTime>, frames: seq<Image>, cal: Skymap)

  /** Why `load` stops: a loader's exception, or the three crashes of the code itself. */
  datatype LoadError =
    | Raised(exception: PyException)
    | UnboundTimes                 // `times` read after a swallowed not-found error
    | TimeRangeNotSubscriptable    // `self.time_range[0]` with `time_range=None`
    | TimeRangeEmpty               // `self.time_range[0]` on an empty list

  /** The `AssertionError` of `_check_array_code`. */
  datatype InitError = InvalidArrayCode(asiArray: string)

  /** `_check_time_range_exists`'s `AttributeError`. */
  datatype AttrError = TimeRangeNotFound

  /** `data_availability`: its index (the stations) and columns (hourly instants, in epoch seconds); its cells are all empty. */
  datatype Availability = Availability(index: seq<string>, columns: seq<int>)

  // ---------------------------------------------------------------------
  // Construction

  /** `_check_array_code`: the stored (upper-cased) code must be one of the supported arrays. */
  function CheckArrayCode(asiArray: string): Outcome<InitError>
  {
    if asiArray in SupportedArrays then Pass else Fail(InvalidArrayCode(asiArray))
  }

  /** Because the code is upper-cased first, any capitalisation of "rego" or "themis" is accepted, and nothing else. */
  lemma ArrayCodeCaseInsensitive(asiArray: string)
    ensures CheckArrayCode(Upper(asiArray)).Pass? <==> Lower(asiArray) == "rego" || Lower(asiArray) == "themis"
  {
    assert Upper("rego") == "REGO" && Lower("rego") == "rego";
    assert Upper("themis") == "THEMIS" && Lower("themis") == "themis";
    SameUpperIffSameLower(asiArray, "rego");
    SameUpperIffSameLower(asiArray, "themis");
  }

  /**
   * `rows` are exactly the rows of `table` whose upper-cased array column
   * equals `asiArray`, each with its row number, in table order.
   */
  ghost predicate SelectsRows(rows: seq<AttributeRow>, table: seq<StationRow>, asiArray: string)
  {
    && (forall k :: 0 <= k < |rows| ==>
          && rows[k].index < |table|
          && table[rows[k].index] == StationRow(rows[k].asiArray, rows[k].station)
          && Upper(rows[k].asiArray) == asiArray)
    && (forall k, l :: 0 <= k < l < |rows| ==> rows[k].index < rows[l].index)
    && (forall i :: 0 <= i < |table| && Upper(table[i].asiArray) == asiArray ==>
          exists k :: 0 <= k < |rows| && rows[k].index == i)
  }

  /** `_load_array_attributes`: the station-table rows of the array, in table order. */
  function ArrayAttributes(table: seq<StationRow>, asiArray: string): (rows: seq<AttributeRow>)
    ensures SelectsRows(rows, table, asiArray)
  {
    if table == [] then []
    else
      var n := |table| - 1;
      var front := ArrayAttributes(table[..n], asiArray);
      var rows := front + (if Upper(table[n].asiArray) == asiArray then [AttributeRow(n, table[n].asiArray, table[n].station)] else []);
      AttributesSnoc(table, asiArray, front, rows);
      rows
  }

  /** The step of `ArrayAttributes`: the selection from the front of the table, then the last row if it belongs to the array. */
  lemma AttributesSnoc(table: seq<StationRow>, asiArray: string, front: seq<AttributeRow>, rows: seq<AttributeRow>)
    requires table != []
    requires var n := |table| - 1;
             && SelectsRows(front, table[..n], asiArray)
             && rows == front + (if Upper(table[n].asiArray) == asiArray
                                 then [AttributeRow(n, table[n].asiArray, table[n].station)] else [])
    ensures SelectsRows(rows, table, asiArray)
  {
    var n := |table| - 1;
    forall k | 0 <= k < |front|
      ensures rows[k] == front[k] && front[k].index < n && table[front[k].index] == table[..n][front[k].index]
    {
    }
    forall i | 0 <= i < |table| && Upper(table[i].asiArray) == asiArray
      ensures exists k :: 0 <= k < |rows| && rows[k].index == i
    {
      if i == n {
        assert rows[|front|].index == n;
      } else {
        assert table[..n][i] == table[i];
        var k :| 0 <= k < |front| && front[k].index == i;
        assert rows[k] == front[k];
      }
    }
  }

  /** The `station` column of `array_attributes`, in row order. */
  function StationColumn(rows: seq<AttributeRow>): (codes: seq<string>)
    ensures |codes| == |rows| && forall k :: 0 <= k < |rows| ==> codes[k] == rows[k].station
  {
    seq(|rows|, k requires 0 <= k < |rows| => rows[k].station)
  }

  /**
   * `_check_time_range_exists`: raises only when no `time_range` is
   * passed and the object has no `time_range` attribute.
   */
  function CheckTimeRangeExists(timeRange: Option<seq<Instant>>, hasAttribute: bool): Outcome<AttrError>
  {
    if timeRange.None? && !hasAttribute then Fail(TimeRangeNotFound) else Pass
  }

  /** `__init__` always sets `time_range`, so on a constructed `Imager` the check never raises. */
  lemma TimeRangeCheckNeverRaises(timeRange: Option<seq<Instant>>)
    ensures CheckTimeRangeExists(timeRange, true) == Pass
  {
  }

  // ---------------------------------------------------------------------
  // load, as a function of the loader

  /** The stations `load` iterates, in order: every station of the array, or the given list. */
  function Iterated(stations: Stations, rows: seq<AttributeRow>): seq<string>
  {
    match stations
    case AllStations => StationColumn(rows)
    case Listed(codes) => codes
    case _ => []
  }

  /** The keys and values of `self.data` so far, and the error that stopped the iteration, if any. */
  datatype Gathered = Gathered(keys: seq<string>, data: map<string, Entry>, error: Option<LoadError>)

  /** Python's dict assignment: a new key goes last, an existing key keeps its place and takes the new value. */
  function Insert(g: Gathered, key: string, e: Entry): Gathered
  {
    g.(keys := if key in g.data then g.keys else g.keys + [key], data := g.data[key := e])
  }

  /** A loader failure that `load` swallows: a `FileNotFoundError` whose message carries the marker. */
  predicate IsNoData(e: PyException)
  {
    e.FileNotFoundError? && Contains(NotFoundMarker, e.message)
  }

  /** One station of the loop: store its entry, skip it on "no data", or stop with the error. */
  function StationStep(g: Gathered, loader: Loader, timeRange: Option<seq<Instant>>, asiArray: string, code: string): Gathered
  {
    if g.error.Some? then g
    else
      match loader.getFrames(timeRange, asiArray, code)
      case FramesRaised(e) => if IsNoData(e) then g else g.(error := Some(Raised(e)))
      case Frames(times, images) =>
        match loader.loadCal(asiArray, code)
        case CalRaised(e) => g.(error := Some(Raised(e)))
        case Calibration(cal) => Insert(g, code, Entry(times, images, cal))
  }

  /** The loop over `codes`, starting from the emptied `self.data`. */
  function Gather(loader: Loader, timeRange: Option<seq<Instant>>, asiArray: string, codes: seq<string>): Gathered
  {
    if codes == [] then Gathered([], map[], None)
    else StationStep(Gather(loader, timeRange, asiArray, codes[..|codes| - 1]), loader, timeRange, asiArray, codes[|codes| - 1])
  }

  /**
   * The single-string branch. A swallowed "no data" error does not skip
   * the station: `load_cal` is still called and `times` is then read
   * unbound.
   */
  function SingleLoad(loader: Loader, timeRange: Option<seq<Instant>>, asiArray: string, code: string): Gathered
  {
    match loader.getFrames(timeRange, asiArray, code)
    case FramesRaised(e) =>
      if IsNoData(e) then
        match loader.loadCal(asiArray, code)
        case CalRaised(e') => Gathered([], map[], Some(Raised(e')))
        case Calibration(_) => Gathered([], map[], Some(UnboundTimes))
      else Gathered([], map[], Some(Raised(e)))
    case Frames(times, images) =>
      match loader.loadCal(asiArray, code)
      case CalRaised(e) => Gathered([], map[], Some(Raised(e)))
      case Calibration(cal) => Gathered([code], map[code := Entry(times, images, cal)], None)
  }

  /** What `load` leaves in `self.data` (and the error it raises while filling it), for each shape of `stations`. */
  function Loaded(stations: Stations, rows: seq<AttributeRow>, loader: Loader,
                  timeRange: Option<seq<Instant>>, asiArray: string): Gathered
  {
    match stations
    case Single(code) => SingleLoad(loader, timeRange, asiArray, code)
    case _ => Gather(loader, timeRange, asiArray, Iterated(stations, rows))
  }

  /** `pd.date_range(start, end, freq='H')`: `start`, then every hour after it up to `end` inclusive. */
  function HourlyColumns(start: int, end: int): seq<int>
    decreases end - start
  {
    if end < start then [] else [start] + HourlyColumns(start + SecondsPerHour, end)
  }

  /** The table built at the end of `load`; indexing `time_range` fails when it is `None` or empty. */
  function AvailabilityFor(keys: seq<string>, timeRange: Option<seq<Instant>>): Result<Availability, LoadError>
  {
    match timeRange
    case None => Failure(TimeRangeNotSubscriptable)
    case Some(ts) =>
      if ts == [] then Failure(TimeRangeEmpty)
      else Success(Availability(keys, HourlyColumns(EpochSeconds(ts[0]), EpochSeconds(ts[|ts| - 1]))))
  }

  /** `load`'s outcome: the gathering error, else the availability table or the error of building it. */
  function LoadOutcome(g: Gathered, timeRange: Option<seq<Instant>>): Result<Availability, LoadError>
  {
    if g.error.Some? then Failure(g.error.value) else AvailabilityFor(g.keys, timeRange)
  }

  // ---------------------------------------------------------------------
  // Properties of load

  /** The dictionary shape of `self.data`: keys listed once each, in insertion order. */
  ghost predicate DictShaped(keys: seq<string>, data: map<string, Entry>)
  {
    && (forall i, j :: 0 <= i < j < |keys| ==> keys[i] != keys[j])
    && (forall c :: c in data <==> c in keys)
  }

  /** A station that loads: its frames and its calibration both load. */
  predicate Survives(loader: Loader, timeRange: Option<seq<Instant>>, asiArray: string, code: string)
  {
    loader.getFrames(timeRange, asiArray, code).Frames? && loader.loadCal(asiArray, code).Calibration?
  }

  /** A station whose failure aborts `load`: any error but "no data" from the frames, or any error from the calibration. */
  predicate Fatal(loader: Loader, timeRange: Option<seq<Instant>>, asiArray: string, code: string)
  {
    match loader.getFrames(timeRange, asiArray, code)
    case FramesRaised(e) => !IsNoData(e)
    case Frames(_, _) => loader.loadCal(asiArray, code).CalRaised?
  }

  /** The error a fatal station raises. */
  function FatalError(loader: Loader, timeRange: Option<seq<Instant>>, asiArray: string, code: string): LoadError
    requires Fatal(loader, timeRange, asiArray, code)
  {
    match loader.getFrames(timeRange, asiArray, code)
    case FramesRaised(e) => Raised(e)
    case Frames(_, _) => Raised(loader.loadCal(asiArray, code).exception)
  }

  /** The entry a surviving station stores. */
  function EntryOf(loader: Loader, timeRange: Option<seq<Instant>>, asiArray: string, code: string): Entry
    requires Survives(loader, timeRange, asiArray, code)
  {
    var f := loader.getFrames(timeRange, asiArray, code);
    Entry(f.times, f.images, loader.loadCal(asiArray, code).skymap)
  }

  /** The surviving stations of `codes`, in order. */
  function SurvivorsOf(loader: Loader, timeRange: Option<seq<Instant>>, asiArray: string, codes: seq<string>): seq<string>
  {
    if codes == [] then []
    else
      var last := codes[|codes| - 1];
      SurvivorsOf(loader, timeRange, asiArray, codes[..|codes| - 1])
        + (if Survives(loader, timeRange, asiArray, last) then [last] else [])
  }

  /** The first occurrence of each element, in order. */
  function Dedup(s: seq<string>): seq<string>
  {
    if s == [] then []
    else
      var last := s[|s| - 1];
      Dedup(s[..|s| - 1]) + (if last in s[..|s| - 1] then [] else [last])
  }

  lemma {:induction false} DedupMembers(s: seq<string>)
    ensures forall c :: c in Dedup(s) <==> c in s
  {
    if s != [] {
      DedupMembers(s[..|s| - 1]);
      assert s == s[..|s| - 1] + [s[|s| - 1]];
    }
  }

  lemma {:induction false} SurvivorsMembers(loader: Loader, timeRange: Option<seq<Instant>>, asiArray: string, codes: seq<string>)
    ensures forall c :: c in SurvivorsOf(loader, timeRange, asiArray, codes) <==>
                        c in codes && Survives(loader, timeRange, asiArray, c)
  {
    if codes != [] {
      SurvivorsMembers(loader, timeRange, asiArray, codes[..|codes| - 1]);
      assert codes == codes[..|codes| - 1] + [codes[|codes| - 1]];
    }
  }

  /** Without a duplicate, taking first occurrences changes nothing. */
  lemma {:induction false} DedupDistinct(s: seq<string>)
    requires forall i, j :: 0 <= i < j < |s| ==> s[i] != s[j]
    ensures Dedup(s) == s
  {
    if s != [] {
      var front := s[..|s| - 1];
      DedupDistinct(front);
      assert s[|s| - 1] !in front;
      assert s == front + [s[|s| - 1]];
    }
  }

  /** A station that cannot abort `load` is either stored or skipped as "no data". */
  lemma NotFatalCases(loader: Loader, timeRange: Option<seq<Instant>>, asiArray: string, code: string)
    requires !Fatal(loader, timeRange, asiArray, code)
    ensures Survives(loader, timeRange, asiArray, code) || loader.getFrames(timeRange, asiArray, code).FramesRaised?
  {
  }

  /** The invariant of the loop while no station is fatal: the dict shape, and only surviving stations with their entries. */
  ghost predicate GoodSoFar(g: Gathered, loader: Loader, timeRange: Option<seq<Instant>>, asiArray: string)
  {
    && g.error == None
    && DictShaped(g.keys, g.data)
    && forall c :: c in g.data ==> (Survives(loader, timeRange, asiArray, c)
                                    && g.data[c] == EntryOf(loader, timeRange, asiArray, c))
  }

  lemma StepNotFatal(g: Gathered, loader: Loader, timeRange: Option<seq<Instant>>, asiArray: string, code: string)
    requires GoodSoFar(g, loader, timeRange, asiArray) && !Fatal(loader, timeRange, asiArray, code)
    ensures var g' := StationStep(g, loader, timeRange, asiArray, code);
            && GoodSoFar(g', loader, timeRange, asiArray)
            && g'.keys == g.keys + (if Survives(loader, timeRange, asiArray, code) && code !in g.keys then [code] else [])
  {
    NotFatalCases(loader, timeRange, asiArray, code);
  }

  lemma DedupSnoc(s: seq<string>, x: string)
    ensures Dedup(s + [x]) == Dedup(s) + (if x in Dedup(s) then [] else [x])
  {
    assert (s + [x])[..|s|] == s;
    DedupMembers(s);
  }

  /**
   * When no station is fatal, the station loop completes with no error and `self.data` holds
   * exactly the surviving stations, each once, in the order they are
   * first iterated, each with the entry its loaders give.
   */
  lemma {:induction false} GatherNoFatal(loader: Loader, timeRange: Option<seq<Instant>>, asiArray: string, codes: seq<string>)
    requires forall c :: c in codes ==> !Fatal(loader, timeRange, asiArray, c)
    ensures var g := Gather(loader, timeRange, asiArray, codes);
            && g.error == None
            && g.keys == Dedup(SurvivorsOf(loader, timeRange, asiArray, codes))
            && DictShaped(g.keys, g.data)
            && forall c :: c in g.data ==> (Survives(loader, timeRange, asiArray, c)
                                            && g.data[c] == EntryOf(loader, timeRange, asiArray, c))
  {
    if codes != [] {
      var front, last := codes[..|codes| - 1], codes[|codes| - 1];
      assert forall c :: c in front ==> c in codes;
      GatherNoFatal(loader, timeRange, asiArray, front);
      var g0 := Gather(loader, timeRange, asiArray, front);
      assert GoodSoFar(g0, loader, timeRange, asiArray);
      StepNotFatal(g0, loader, timeRange, asiArray, last);
      var sv := SurvivorsOf(loader, timeRange, asiArray, front);
      if Survives(loader, timeRange, asiArray, last) {
        assert SurvivorsOf(loader, timeRange, asiArray, codes) == sv + [last];
        DedupSnoc(sv, last);
      } else {
        assert SurvivorsOf(loader, timeRange, asiArray, codes) == sv;
      }
    }
  }

  /** Once an error is recorded, the remaining stations are not visited. */
  lemma {:induction false} GatherStopped(loader: Loader, timeRange: Option<seq<Instant>>, asiArray: string,
                                         codes: seq<string>, k: nat)
    requires k <= |codes| && Gather(loader, timeRange, asiArray, codes[..k]).error.Some?
    ensures Gather(loader, timeRange, asiArray, codes) == Gather(loader, timeRange, asiArray, codes[..k])
    decreases |codes|
  {
    if k < |codes| {
      var front := codes[..|codes| - 1];
      assert front[..k] == codes[..k];
      GatherStopped(loader, timeRange, asiArray, front, k);
    } else {
      assert codes[..k] == codes;
    }
  }

  /**
   * The first fatal station aborts `load` with its error; `self.data`
   * keeps what the stations before it stored.
   */
  lemma GatherAbortsAtFirstFatal(loader: Loader, timeRange: Option<seq<Instant>>, asiArray: string,
                                 codes: seq<string>, k: nat)
    requires k < |codes| && Fatal(loader, timeRange, asiArray, codes[k])
    requires forall j :: 0 <= j < k ==> !Fatal(loader, timeRange, asiArray, codes[j])
    ensures var g := Gather(loader, timeRange, asiArray, codes);
            && g.error == Some(FatalError(loader, timeRange, asiArray, codes[k]))
            && g.keys == Dedup(SurvivorsOf(loader, timeRange, asiArray, codes[..k]))
            && g.data == Gather(loader, timeRange, asiArray, codes[..k]).data
  {
    assert forall c :: c in codes[..k] ==> !Fatal(loader, timeRange, asiArray, c);
    GatherNoFatal(loader, timeRange, asiArray, codes[..k]);
    assert codes[..k + 1][..k] == codes[..k];
    GatherStopped(loader, timeRange, asiArray, codes, k + 1);
  }

  /** `load` aborts exactly when some iterated station is fatal. */
  lemma GatherFailsIffFatal(loader: Loader, timeRange: Option<seq<Instant>>, asiArray: string, codes: seq<string>)
    ensures Gather(loader, timeRange, asiArray, codes).error.Some? <==>
            exists c :: c in codes && Fatal(loader, timeRange, asiArray, c)
  {
    if exists c :: c in codes && Fatal(loader, timeRange, asiArray, c) {
      var k := FirstFatal(loader, timeRange, asiArray, codes);
      GatherAbortsAtFirstFatal(loader, timeRange, asiArray, codes, k);
    } else {
      GatherNoFatal(loader, timeRange, asiArray, codes);
    }
  }

  /** The index of the first fatal station. */
  function FirstFatal(loader: Loader, timeRange: Option<seq<Instant>>, asiArray: string, codes: seq<string>): (k: nat)
    requires exists c :: c in codes && Fatal(loader, timeRange, asiArray, c)
    ensures k < |codes| && Fatal(loader, timeRange, asiArray, codes[k])
    ensures forall j :: 0 <= j < k ==> !Fatal(loader, timeRange, asiArray, codes[j])
  {
    if Fatal(loader, timeRange, asiArray, codes[0]) then 0
    else
      assert exists c :: c in codes[1..] && Fatal(loader, timeRange, asiArray, c) by {
        var c :| c in codes && Fatal(loader, timeRange, asiArray, c);
        assert c != codes[0];
        var i :| 0 <= i < |codes| && codes[i] == c;
        assert codes[1..][i - 1] == c;
      }
      1 + FirstFatal(loader, timeRange, asiArray, codes[1..])
  }

  /** Every key `load` leaves is one of the stations it iterated: nothing from an earlier `load` survives. */
  lemma {:induction false} GatherKeysIterated(loader: Loader, timeRange: Option<seq<Instant>>, asiArray: string, codes: seq<string>)
    ensures var g := Gather(loader, timeRange, asiArray, codes);
            DictShaped(g.keys, g.data) && forall c :: c in g.keys ==> c in codes
  {
    if codes != [] {
      var front := codes[..|codes| - 1];
      GatherKeysIterated(loader, timeRange, asiArray, front);
      assert forall c :: c in front ==> c in codes;
    }
  }

  /** The single-string branch never skips its station: it stores it, or it raises. */
  lemma SingleNeverSkips(loader: Loader, timeRange: Option<seq<Instant>>, asiArray: string, code: string)
    ensures var g := SingleLoad(loader, timeRange, asiArray, code);
            && (g.error.None? <==> Survives(loader, timeRange, asiArray, code))
            && (g.error.None? ==> g.keys == [code] && g.data == map[code := EntryOf(loader, timeRange, asiArray, code)])
            && (g.error.Some? ==> g.keys == [] && g.data == map[])
            && ((&& loader.getFrames(timeRange, asiArray, code).FramesRaised?
                 && IsNoData(loader.getFrames(timeRange, asiArray, code).exception)
                 && loader.loadCal(asiArray, code).Calibration?)
                ==> g.error == Some(UnboundTimes))
  {
  }

  /**
   * The availability table has one row per key of `self.data` and one
   * column per hour from the first instant of the time range through its
   * last, the last column within an hour of the end.
   */
  lemma {:induction false} HourlyColumnsShape(start: int, end: int)
    ensures var cols := HourlyColumns(start, end);
            && |cols| == (if end < start then 0 else (end - start) / SecondsPerHour + 1)
            && (forall i :: 0 <= i < |cols| ==> cols[i] == start + i * SecondsPerHour && cols[i] <= end)
            && (|cols| > 0 ==> end < cols[|cols| - 1] + SecondsPerHour)
    decreases end - start
  {
    if end >= start {
      HourlyColumnsShape(start + SecondsPerHour, end);
      var rest := HourlyColumns(start + SecondsPerHour, end);
      var cols := HourlyColumns(start, end);
      assert cols == [start] + rest;
      if end < start + SecondsPerHour {
        assert (end - start) / SecondsPerHour == 0;
      } else {
        assert (end - start) / SecondsPerHour == (end - start - SecondsPerHour) / SecondsPerHour + 1;
      }
      forall i | 1 <= i < |cols| ensures cols[i] == start + i * SecondsPerHour {
        assert cols[i] == rest[i - 1];
      }
    }
  }

  lemma AvailabilityShape(keys: seq<string>, timeRange: Option<seq<Instant>>)
    ensures var a := AvailabilityFor(keys, timeRange);
            && (a.Success? <==> timeRange.Some? && timeRange.value != [])
            && (a.Success? ==>
                  var start, end := EpochSeconds(timeRange.value[0]), EpochSeconds(timeRange.value[|timeRange.value| - 1]);
                  && a.value.index == keys
                  && |a.value.columns| == (if end < start then 0 else (end - start) / SecondsPerHour + 1)
                  && forall i :: 0 <= i < |a.value.columns| ==> a.value.columns[i] == start + i * SecondsPerHour)
  {
    if timeRange.Some? && timeRange.value != [] {
      var ts := timeRange.value;
      HourlyColumnsShape(EpochSeconds(ts[0]), EpochSeconds(ts[|ts| - 1]));
    }
  }

  // ---------------------------------------------------------------------
  // __repr__

  function Quoted(s: string): string
  {
    "'" + s + "'"
  }

  /** `str()` of the `stations` attribute. */
  function StationsText(stations: Stations): string
  {
    match stations
    case AllStations => "None"
    case Single(code) => code
    case Listed(codes) => "[" + Join(", ", seq(|codes|, i requires 0 <= i < |codes| => Quoted(codes[i]))) + "]"
    case Unsized(shown) => shown
  }

  /** `repr()` of a `datetime.datetime` without microseconds: trailing zero seconds are dropped. */
  function DateTimeText(t: DateTime): string
  {
    var fields := [t.year, t.month, t.day, t.hour, t.minute] + (if t.second != 0 then [t.second] else []);
    "datetime.datetime(" + Join(", ", seq(|fields|, i requires 0 <= i < |fields| => Decimal(fields[i]))) + ")"
  }

  /** `str()` of the `time_range` attribute, a list of date-times or `None`. */
  function TimeRangeText(timeRange: Option<seq<Instant>>): string
  {
    match timeRange
    case None => "None"
    case Some(ts) => "[" + Join(", ", seq(|ts|, i requires 0 <= i < |ts| => DateTimeText(ts[i]))) + "]"
  }

  /** `__repr__`: `Imager('<array>', stations=<stations>, time_range=<time_range>)`. */
  function ReprText(asiArray: string, stations: Stations, timeRange: Option<seq<Instant>>): string
  {
    "Imager(" + Quoted(asiArray) + ", stations=" + StationsText(stations) + ", time_range=" + TimeRangeText(timeRange) + ")"
  }

  /** The characters before the first `c`, or all of `s`. */
  function TakeUntil(s: string, c: char): (r: string)
    ensures c !in r && IsPrefix(r, s)
  {
    if s == [] || s[0] == c then [] else [s[0]] + TakeUntil(s[1..], c)
  }

  lemma {:induction false} TakeUntilPrefix(a: string, c: char, rest: string)
    requires c !in a
    ensures TakeUntil(a + [c] + rest, c) == a
  {
    if a != [] {
      assert (a + [c] + rest)[1..] == a[1..] + [c] + rest;
      TakeUntilPrefix(a[1..], c, rest);
    }
  }

  /** The array code a `repr` text names: what stands between `Imager('` and the next quote. */
  function ReprArray(text: string): Option<string>
  {
    if IsPrefix("Imager('", text) then Some(TakeUntil(text[8..], '\'')) else None
  }

  lemma ReprSplits(asiArray: string, rest: string, stationsText: string, timeRangeText: string)
    requires rest == ", stations=" + stationsText + ", time_range=" + timeRangeText + ")"
    ensures "Imager(" + Quoted(asiArray) + ", stations=" + stationsText + ", time_range=" + timeRangeText + ")"
            == "Imager('" + (asiArray + ['\''] + rest)
  {
  }

  /** The array code reads back from the `repr` text. */
  lemma ReprArrayRoundTrip(asiArray: string, stations: Stations, timeRange: Option<seq<Instant>>)
    requires '\'' !in asiArray
    ensures ReprArray(ReprText(asiArray, stations, timeRange)) == Some(asiArray)
  {
    var rest := ", stations=" + StationsText(stations) + ", time_range=" + TimeRangeText(timeRange) + ")";
    var tail := asiArray + ['\''] + rest;
    ReprSplits(asiArray, rest, StationsText(stations), TimeRangeText(timeRange));
    PrefixOfAppend("Imager('", tail);
    TakeUntilPrefix(asiArray, '\'', rest);
  }

  /**
   * A single station is written without quotes, so the `repr` text is not
   * the expression that re-creates the object: `Imager('THEMIS', 'GILL')`
   * gives a text naming `GILL` as a variable, not as a string.
   */
  lemma ReprSingleUnquoted(code: string, text: string)
    requires code == "GILL" && text == "Imager('THEMIS', stations=GILL, time_range=None)"
    ensures StationsText(Single(code)) != Quoted(code)
    ensures ReprText("THEMIS", Single(code), None) == text
  {
    assert |Quoted(code)| == |code| + 2;
    QuotedArrayPrefix("THEMIS");
    GillReprPieces(code, text);
  }

  /** The quoted array code and the text after it, as one run of characters. */
  lemma QuotedArrayPrefix(asiArray: string)
    ensures "Imager(" + Quoted(asiArray) + ", stations=" == "Imager('" + asiArray + "', stations="
  {
    assert "'" + ", stations=" == "', stations=";
  }

  /** The pieces of the example's `repr` text, joined. */
  lemma GillReprPieces(code: string, text: string)
    requires code == "GILL" && text == "Imager('THEMIS', stations=GILL, time_range=None)"
    ensures "Imager('" + "THEMIS" + "', stations=" + code + ", time_range=" + "None" + ")" == text
  {
    assert "Imager('" + "THEMIS" == "Imager('THEMIS";
    assert "Imager('THEMIS" + "', stations=" == "Imager('THEMIS', stations=";
    assert "Imager('THEMIS', stations=" + code == "Imager('THEMIS', stations=GILL";
    assert "Imager('THEMIS', stations=GILL" + ", time_range=" == "Imager('THEMIS', stations=GILL, time_range=";
    assert "Imager('THEMIS', stations=GILL, time_range=" + "None" + ")" == text;
  }

  // ---------------------------------------------------------------------
  // The session object

  class Imager {
    var asiArray: string
    var stations: Stations
    var timeRange: Option<seq<Instant>>
    var arrayAttributes: seq<AttributeRow>
    /** The keys of `self.data`, in insertion order, and its values. */
    var dataKeys: seq<string>
    var data: map<string, Entry>
    /** `None` until a `load` gets as far as building the table. */
    var dataAvailability: Option<Availability>

    ghost predicate Valid()
      reads this
    {
      asiArray in SupportedArrays && DictShaped(dataKeys, data)
    }

    /** The assignments of `__init__` before `_check_array_code`. */
    constructor Init(asiArray: string, stations: Stations, timeRange: Option<seq<Instant>>, table: seq<StationRow>)
      ensures this.asiArray == Upper(asiArray) && this.stations == stations && this.timeRange == timeRange
      ensures arrayAttributes == ArrayAttributes(table, Upper(asiArray))
      ensures dataKeys == [] && data == map[] && dataAvailability == None
    {
      this.asiArray := Upper(asiArray);
      this.stations := stations;
      this.timeRange := timeRange;
      arrayAttributes := ArrayAttributes(table, Upper(asiArray));
      dataKeys, data, dataAvailability := [], map[], None;
    }

    /** `__repr__`. */
    function Repr(): string
      reads this
    {
      ReprText(asiArray, stations, timeRange)
    }

    /**
     * `load`. The `time_range` argument only feeds `_check_time_range_exists`,
     * which cannot raise here (`TimeRangeCheckNeverRaises`); the loaders get
     * `self.time_range`. `self.data` is emptied first and then filled, so
     * on an abort it keeps what the stations before the failure stored,
     * and `data_availability` keeps its previous value.
     */
    method Load(timeRangeArg: Option<seq<Instant>>, loader: Loader) returns (r: Outcome<LoadError>)
      requires Valid()
      modifies this
      ensures Valid()
      ensures asiArray == old(asiArray) && stations == old(stations) && timeRange == old(timeRange)
      ensures arrayAttributes == old(arrayAttributes)
      ensures var g := Loaded(stations, arrayAttributes, loader, timeRange, asiArray);
              var res := LoadOutcome(g, timeRange);
              && dataKeys == g.keys && data == g.data
              && r == (if res.Success? then Pass else Fail(res.error))
              && dataAvailability == (if res.Success? then Some(res.value) else old(dataAvailability))
    {
      dataKeys, data := [], map[];
      var failure: Option<LoadError>;
      if stations.Single? {
        failure := LoadSingle(stations.code, loader);
      } else {
        failure := LoadEach(Iterated(stations, arrayAttributes), loader);
      }
      if failure.Some? {
        return Fail(failure.value);
      }
      var table := AvailabilityFor(dataKeys, timeRange);
      if table.Failure? {
        return Fail(table.error);
      }
      dataAvailability := Some(table.value);
      return Pass;
    }

    /** The single-string branch of `load`, from the emptied `self.data`. */
    method LoadSingle(code: string, loader: Loader) returns (failure: Option<LoadError>)
      requires dataKeys == [] && data == map[]
      modifies this`dataKeys, this`data
      ensures SingleLoad(loader, timeRange, asiArray, code) == Gathered(dataKeys, data, failure)
    {
      var frames := loader.getFrames(timeRange, asiArray, code);
      match frames {
        case FramesRaised(e) =>
          if !IsNoData(e) {
            return Some(Raised(e));
          }
          var cal := loader.loadCal(asiArray, code);
          if cal.CalRaised? {
            return Some(Raised(cal.exception));
          }
          return Some(UnboundTimes);
        case Frames(times, images) =>
          var cal := loader.loadCal(asiArray, code);
          if cal.CalRaised? {
            return Some(Raised(cal.exception));
          }
          dataKeys, data := [code], map[code := Entry(times, images, cal.skymap)];
          return None;
      }
    }

    /** The loop of `load` over several stations, from the emptied `self.data`. */
    method LoadEach(codes: seq<string>, loader: Loader) returns (failure: Option<LoadError>)
      requires dataKeys == [] && data == map[]
      modifies this`dataKeys, this`data
      ensures Gather(loader, timeRange, asiArray, codes) == Gathered(dataKeys, data, failure)
      ensures DictShaped(dataKeys, data)
    {
      for i := 0 to |codes|
        invariant Gather(loader, timeRange, asiArray, codes[..i]) == Gathered(dataKeys, data, None)
        invariant DictShaped(dataKeys, data)
      {
        assert codes[..i + 1][..i] == codes[..i];
        GatherKeysIterated(loader, timeRange, asiArray, codes[..i + 1]);
        var frames := loader.getFrames(timeRange, asiArray, codes[i]);
        match frames {
          case FramesRaised(e) =>
            if IsNoData(e) {
              continue;
            }
            GatherStopped(loader, timeRange, asiArray, codes, i + 1);
            return Some(Raised(e));
          case Frames(times, images) =>
            var cal := loader.loadCal(asiArray, codes[i]);
            if cal.CalRaised? {
              GatherStopped(loader, timeRange, asiArray, codes, i + 1);
              return Some(Raised(cal.exception));
            }
            if codes[i] !in data {
              dataKeys := dataKeys + [codes[i]];
            }
            data := data[codes[i] := Entry(times, images, cal.skymap)];
        }
      }
      assert codes[..|codes|] == codes;
      return None;
    }
  }

  /**
   * `Imager(array, stations, time_range)`: the array code is stored
   * upper-cased, the station table filtered to it, and an unsupported
   * code raises `AssertionError`.
   */
  method NewImager(asiArray: string, stations: Stations, timeRange: Option<seq<Instant>>, table: seq<StationRow>)
    returns (r: Result<Imager, InitError>)
    ensures r.Success? <==> Lower(asiArray) == "rego" || Lower(asiArray) == "themis"
    ensures r.Failure? ==> r.error == InvalidArrayCode(Upper(asiArray))
    ensures r.Success? ==> fresh(r.value) && r.value.Valid()
    ensures r.Success? ==> r.value.asiArray == Upper(asiArray) && r.value.stations == stations && r.value.timeRange == timeRange
    ensures r.Success? ==> r.value.arrayAttributes == ArrayAttributes(table, Upper(asiArray))
    ensures r.Success? ==> r.value.dataKeys == [] && r.value.dataAvailability == None
  {
    var im := new Imager.Init(asiArray, stations, timeRange, table);
    ArrayCodeCaseInsensitive(asiArray);
    var check := CheckArrayCode(im.asiArray);
    if check.Fail? {
      return Failure(check.error);
    }
    return Success(im);
  }
}
