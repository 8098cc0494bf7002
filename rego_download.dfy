/**
 * The REGO image downloader: the remote directory of a station and month,
 * the search of its listing for the wanted file names, the local cache
 * that a file is fetched into only when forced or absent, and the
 * chunked streaming of one file.
 *
 * The network is a `Server` value: what a directory listing holds (the
 * `href` targets of its anchors, in document order) and what body each
 * file URL streams. The local `rego` directory is a `RegoCache` object.
 */
module RegoDownload {
  import opened Common
  import opened Strings
  import opened Calendar

  newtype Byte = b: int | 0 <= b < 256

  const ImgBaseUrl: string := "http://themis.ssl.berkeley.edu/data/themis/thg/l1/reg/"
  const Megabyte: nat := 1024 * 1024
  /** `iter_content` is asked for chunks of 5 MiB. */
  const ChunkSize: nat := 5 * Megabyte

  /** A snapshot of the remote archive: the hrefs listed at a URL and the bytes served at a URL. */
  datatype Server = Server(listing: string -> seq<string>, body: string -> seq<Byte>)

  /** `NotADirectoryError`, raised when no href of the listing at `url` contains `pattern`. */
  datatype DownloadError = NotADirectory(url: string, pattern: string)

  // ---------------------------------------------------------------------
  // Remote directory and hour pattern

  /** The remote directory of a station and month: `<base><station>/<year>/<MM>/`. */
  function DirectoryUrl(station: string, day: DateTime): string
  {
    ImgBaseUrl + Lower(station) + "/" + Decimal(day.year) + "/" + ZFill(Decimal(day.month), 2) + "/"
  }

  lemma DigitsHaveNoSlash(s: string)
    requires AllDigits(s)
    ensures '/' !in s
  {
    forall i | 0 <= i < |s| ensures s[i] != '/' { assert IsDigit(s[i]); }
  }

  /** `st/y/m/` splits into the fields of `st`, then `y`, `m` and an empty field, when `y` and `m` hold no slash. */
  lemma SplitDirectoryPath(st: string, y: string, m: string)
    requires '/' !in y && '/' !in m
    ensures SplitOn(st + "/" + y + "/" + m + "/", '/') == SplitOn(st, '/') + [y, m, ""]
  {
    assert st + "/" + y + "/" + m + "/" == ((st + ['/'] + y) + ['/'] + m) + ['/'] + "";
    SplitOnFree(y, '/');
    SplitOnFree(m, '/');
    SplitOnAppend(st + ['/'] + y + ['/'] + m, "", '/');
    SplitOnAppend(st + ['/'] + y, m, '/');
    SplitOnAppend(st, y, '/');
  }

  /** `segs` are the fields of `station`'s lower-cased name, then `day`'s year, its two-digit month, and an empty field. */
  predicate DirectorySegments(segs: seq<string>, station: string, day: DateTime)
  {
    && |segs| >= 3
    && segs[..|segs| - 3] == SplitOn(Lower(station), '/')
    && AllDigits(segs[|segs| - 3]) && DigitsValue(segs[|segs| - 3]) == day.year
    && |segs[|segs| - 2]| == 2
    && AllDigits(segs[|segs| - 2]) && DigitsValue(segs[|segs| - 2]) == day.month
    && segs[|segs| - 1] == ""
  }

  /** The path below the base URL splits into the station's own fields, then the year, the month and an empty field. */
  lemma DirectoryUrlSegments(station: string, day: DateTime)
    requires day.Valid()
    ensures IsPrefix(ImgBaseUrl, DirectoryUrl(station, day))
    ensures DirectorySegments(SplitOn(DirectoryUrl(station, day)[|ImgBaseUrl|..], '/'), station, day)
  {
    var st, y, m := Lower(station), Decimal(day.year), ZFill(Decimal(day.month), 2);
    var path := st + "/" + y + "/" + m + "/";
    assert DirectoryUrl(station, day) == ImgBaseUrl + path;
    PrefixOfAppend(ImgBaseUrl, path);
    DecimalValue(day.year);
    FixedWidthRoundTrip(day.month, 2);
    DigitsHaveNoSlash(y);
    DigitsHaveNoSlash(m);
    SplitDirectoryPath(st, y, m);
    var segs := SplitOn(path, '/');
    assert segs[..|segs| - 3] == SplitOn(st, '/');
  }

  /** `strftime("%Y%m%d%H")`: year on four digits, month, day and hour on two. */
  function HourStamp(day: DateTime): string
  {
    ZFill(Decimal(day.year), 4) + ZFill(Decimal(day.month), 2)
      + ZFill(Decimal(day.day), 2) + ZFill(Decimal(day.hour), 2)
  }

  /** The search pattern for one hour's file: `<station>_<YYYYMMDDHH>`, station lower-cased. */
  function HourPattern(station: string, day: DateTime): string
  {
    Lower(station) + "_" + HourStamp(day)
  }

  lemma SliceFourFields(y: string, m: string, d: string, h: string)
    requires |y| == 4 && |m| == 2 && |d| == 2 && |h| == 2
    ensures var t := y + m + d + h;
            |t| == 10 && t[..4] == y && t[4..6] == m && t[6..8] == d && t[8..] == h
  {
  }

  lemma AllDigitsAppend(a: string, b: string)
    requires AllDigits(a) && AllDigits(b)
    ensures AllDigits(a + b)
  {
  }

  /** `t` is ten digits naming `day`'s year, month, day and hour at fixed offsets. */
  predicate StampOf(t: string, day: DateTime)
  {
    && |t| == 10 && AllDigits(t)
    && DigitsValue(t[..4]) == day.year
    && DigitsValue(t[4..6]) == day.month
    && DigitsValue(t[6..8]) == day.day
    && DigitsValue(t[8..]) == day.hour
  }

  /** The stamp reads back as the hour it was made from. */
  lemma HourStampFields(day: DateTime)
    requires day.Valid()
    ensures StampOf(HourStamp(day), day)
  {
    assert Pow10(4) == 10000 && Pow10(2) == 100;
    var y, m, d, h := ZFill(Decimal(day.year), 4), ZFill(Decimal(day.month), 2),
                      ZFill(Decimal(day.day), 2), ZFill(Decimal(day.hour), 2);
    FixedWidthRoundTrip(day.year, 4);
    FixedWidthRoundTrip(day.month, 2);
    FixedWidthRoundTrip(day.day, 2);
    FixedWidthRoundTrip(day.hour, 2);
    SliceFourFields(y, m, d, h);
    AllDigitsAppend(y, m);
    AllDigitsAppend(y + m, d);
    AllDigitsAppend(y + m + d, h);
  }

  lemma SlicePattern(a: string, t: string)
    ensures var p := a + "_" + t;
            |p| == |a| + 1 + |t| && p[..|a|] == a && p[|a|] == '_' && p[|a| + 1..] == t
  {
  }

  /** The hour pattern reads back: the lower-cased station, the separator, then the stamp of the hour. */
  lemma HourPatternRoundTrip(station: string, day: DateTime)
    requires day.Valid()
    ensures var p := HourPattern(station, day);
            && |p| == |station| + 11
            && p[..|station|] == Lower(station)
            && p[|station|] == '_'
            && StampOf(p[|station| + 1..], day)
  {
    HourStampFields(day);
    SlicePattern(Lower(station), HourStamp(day));
  }

  /** Two hours share a search pattern only if they are the same hour of the same day, for stations equal up to case. */
  lemma HourPatternInjective(s1: string, d1: DateTime, s2: string, d2: DateTime)
    requires d1.Valid() && d2.Valid()
    requires HourPattern(s1, d1) == HourPattern(s2, d2)
    ensures Lower(s1) == Lower(s2)
    ensures d1.year == d2.year && d1.month == d2.month && d1.day == d2.day && d1.hour == d2.hour
  {
    HourPatternRoundTrip(s1, d1);
    HourPatternRoundTrip(s2, d2);
  }

  // ---------------------------------------------------------------------
  // search_hrefs

  /** The example station and hour: LUCK, 2020-08-01 04:00. */
  const LuckHour: DateTime := DateTime(2020, 8, 1, 4, 0, 0)

  lemma LuckDigits()
    ensures Decimal(2020) == "2020" && ZFill("2020", 4) == "2020"
    ensures ZFill(Decimal(8), 2) == "08" && ZFill(Decimal(1), 2) == "01" && ZFill(Decimal(4), 2) == "04"
  {
    assert Decimal(2) == "2" && Decimal(20) == "20" && Decimal(202) == "202";
    assert Decimal(8) == "8" && Decimal(1) == "1" && Decimal(4) == "4";
  }

  /** The example's remote directory: the station in lower case, the month on two digits. */
  lemma LuckDirectory()
    ensures DirectoryUrl("Luck", LuckHour) == ImgBaseUrl + "luck/2020/08/"
  {
    LuckDigits();
    assert Lower("Luck") == "luck";
  }

  /** The example's search pattern. */
  lemma LuckPattern()
    ensures HourPattern("Luck", LuckHour) == "luck_2020080104"
  {
    LuckDigits();
    assert Lower("Luck") == "luck";
  }

  /**
   * The file listed for the example hour matches its pattern, whatever the
   * capitalisation of the station. The two literals are parameters pinned by
   * the requires, so that Dafny does not unfold `Lower` on them letter by letter.
   */
  lemma LuckMatch(href: string, pattern: string)
    requires href == "clg_l1_rgf_luck_2020080104_v01.cdf" && pattern == "Luck_2020080104"
    ensures Matches(href, pattern)
  {
    assert forall i :: 0 <= i < |href| ==> !('A' <= href[i] <= 'Z');
    LowerFixesIffNoCapital(href);
    assert Lower(href) == href;
    var needle := Lower(pattern);
    assert needle == "luck_2020080104";
    assert href[11..][..15] == needle;
    assert IsPrefix(needle, href[11..]);
    ContainsAt(needle, href);
    assert Contains(needle, href);
  }

  /** An href is kept when the lower-cased pattern occurs in the lower-cased href. */
  predicate Matches(href: string, pattern: string)
  {
    Contains(Lower(pattern), Lower(href))
  }

  /** The hrefs of `hrefs` that match `pattern`, in document order. */
  function Matching(hrefs: seq<string>, pattern: string): seq<string>
  {
    if hrefs == [] then []
    else
      var last := hrefs[|hrefs| - 1];
      Matching(hrefs[..|hrefs| - 1], pattern) + (if Matches(last, pattern) then [last] else [])
  }

  /** An href is in the result exactly when it is listed and matches. */
  lemma {:induction false} MatchingMembers(hrefs: seq<string>, pattern: string, h: string)
    ensures h in Matching(hrefs, pattern) <==> h in hrefs && Matches(h, pattern)
  {
    if hrefs != [] {
      var front := hrefs[..|hrefs| - 1];
      MatchingMembers(front, pattern, h);
      assert hrefs == front + [hrefs[|hrefs| - 1]];
    }
  }

  /** Filtering commutes with concatenation, so the kept hrefs stay in document order. */
  lemma {:induction false} MatchingAppend(a: seq<string>, b: seq<string>, pattern: string)
    ensures Matching(a + b, pattern) == Matching(a, pattern) + Matching(b, pattern)
  {
    if b == [] {
      assert a + b == a;
    } else {
      var b' := b[..|b| - 1];
      assert (a + b)[..|a + b| - 1] == a + b';
      MatchingAppend(a, b', pattern);
    }
  }

  /** Nothing matches exactly when no listed href contains the pattern. */
  lemma MatchingEmptyIff(hrefs: seq<string>, pattern: string)
    ensures Matching(hrefs, pattern) == [] <==> forall h :: h in hrefs ==> !Matches(h, pattern)
  {
    if Matching(hrefs, pattern) != [] {
      var h := Matching(hrefs, pattern)[0];
      MatchingMembers(hrefs, pattern, h);
    } else {
      forall h | h in hrefs ensures !Matches(h, pattern) {
        MatchingMembers(hrefs, pattern, h);
      }
    }
  }

  /** Every href contains the empty pattern. */
  lemma EmptyPatternMatches(href: string)
    ensures Matches(href, "")
  {
    assert Lower("") == "";
    EmptyContained(Lower(href));
  }

  /** The whole-day search keeps every listed href, in order. */
  lemma {:induction false} MatchingEmptyPattern(hrefs: seq<string>)
    ensures Matching(hrefs, "") == hrefs
  {
    if hrefs != [] {
      var front, last := hrefs[..|hrefs| - 1], hrefs[|hrefs| - 1];
      MatchingEmptyPattern(front);
      EmptyPatternMatches(last);
      assert hrefs == front + [last];
    }
  }

  /** In particular the parent-directory link `../` is kept, although the docstring of `search_hrefs` says otherwise. */
  lemma ParentLinkKept(hrefs: seq<string>)
    requires "../" in hrefs
    ensures "../" in Matching(hrefs, "")
  {
    MatchingEmptyPattern(hrefs);
  }

  /** The case of the pattern does not matter. */
  lemma {:induction false} MatchingIgnoresCase(hrefs: seq<string>, pattern: string)
    ensures Matching(hrefs, Upper(pattern)) == Matching(hrefs, pattern)
    ensures Matching(hrefs, Lower(pattern)) == Matching(hrefs, pattern)
  {
    CaseMapsAbsorb(pattern);
    assert Lower(Lower(pattern)) == Lower(pattern);
    if hrefs != [] {
      MatchingIgnoresCase(hrefs[..|hrefs| - 1], pattern);
    }
  }

  /**
   * `search_hrefs`: the listed hrefs that contain the pattern, ignoring
   * case, in document order; `NotADirectoryError` when there is none.
   */
  method SearchHrefs(url: string, hrefs: seq<string>, pattern: string)
    returns (r: Result<seq<string>, DownloadError>)
    ensures r.Success? <==> exists h :: h in hrefs && Matches(h, pattern)
    ensures r.Success? ==> r.value == Matching(hrefs, pattern) && r.value != []
    ensures r.Failure? ==> r.error == NotADirectory(url, pattern)
  {
    var matched: seq<string> := [];
    var i := 0;
    while i < |hrefs|
      invariant 0 <= i <= |hrefs|
      invariant matched == Matching(hrefs[..i], pattern)
    {
      assert hrefs[..i + 1][..i] == hrefs[..i];
      if Contains(Lower(pattern), Lower(hrefs[i])) {
        matched := matched + [hrefs[i]];
      }
      i := i + 1;
    }
    assert hrefs[..i] == hrefs;
    MatchingEmptyIff(hrefs, pattern);
    if |matched| == 0 {
      return Failure(NotADirectory(url, pattern));
    }
    return Success(matched);
  }

  // ---------------------------------------------------------------------
  // stream_large_file

  /** The bytes of the chunks, in arrival order. */
  function Concat(chunks: seq<seq<Byte>>): seq<Byte>
  {
    if chunks == [] then [] else Concat(chunks[..|chunks| - 1]) + chunks[|chunks| - 1]
  }

  lemma {:induction false} ConcatAppend(a: seq<seq<Byte>>, b: seq<seq<Byte>>)
    ensures Concat(a + b) == Concat(a) + Concat(b)
  {
    if b == [] {
      assert a + b == a;
    } else {
      var b' := b[..|b| - 1];
      assert (a + b)[..|a + b| - 1] == a + b';
      ConcatAppend(a, b');
    }
  }

  /** `iter_content(chunk_size=size)`: the body cut into pieces of `size` bytes, the last one possibly shorter. */
  function Chunked(body: seq<Byte>, size: nat): (chunks: seq<seq<Byte>>)
    requires size > 0
    ensures forall i :: 0 <= i < |chunks| ==> 0 < |chunks[i]| <= size
    decreases |body|
  {
    if |body| == 0 then []
    else if |body| <= size then [body]
    else [body[..size]] + Chunked(body[size..], size)
  }

  /** Writing every chunk reproduces the body. */
  lemma {:induction false} ChunkedRoundTrip(body: seq<Byte>, size: nat)
    requires size > 0
    ensures Concat(Chunked(body, size)) == body
    decreases |body|
  {
    if |body| == 0 {
    } else if |body| <= size {
      assert Concat([body]) == Concat([]) + body;
    } else {
      ChunkedRoundTrip(body[size..], size);
      ConcatAppend([body[..size]], Chunked(body[size..], size));
      assert Concat([body[..size]]) == Concat([]) + body[..size];
      assert body[..size] + body[size..] == body;
    }
  }

  /** A loop that ran to the end wrote the whole body, which is what `Streamed` gives. */
  lemma WholeBodyStreamed(body: seq<Byte>, chunks: seq<seq<Byte>>, testFlag: bool)
    requires chunks == Chunked(body, ChunkSize) && (testFlag ==> chunks == [])
    ensures Concat(chunks) == Streamed(body, testFlag)
  {
    ChunkedRoundTrip(body, ChunkSize);
  }

  /** With `test_flag`, the file holds the first chunk when the loop returns. */
  lemma TestFlagWritesFirstChunk(body: seq<Byte>, chunks: seq<seq<Byte>>)
    requires chunks == Chunked(body, ChunkSize) && chunks != []
    ensures Concat(chunks[..1]) == chunks[0] == Streamed(body, true)
  {
    FirstChunk(body, ChunkSize);
    assert chunks[..1] == [chunks[0]];
    assert Concat([chunks[0]]) == Concat([]) + chunks[0];
  }

  /** The first chunk is the first `size` bytes of the body, or all of a shorter body. */
  lemma FirstChunk(body: seq<Byte>, size: nat)
    requires size > 0 && |body| > 0
    ensures Chunked(body, size)[0] == if |body| <= size then body else body[..size]
  {
  }

  /** What `stream_large_file` leaves in the saved file: the whole body, or with `test_flag` only its first chunk. */
  function Streamed(body: seq<Byte>, testFlag: bool): seq<Byte>
  {
    if testFlag && |body| > ChunkSize then body[..ChunkSize] else body
  }

  // ---------------------------------------------------------------------
  // The download plan, as a function of the cache state

  /** The local `rego` directory (path to contents) and the file URLs streamed so far, oldest first. */
  datatype CacheState = CacheState(files: map<string, seq<Byte>>, fetched: seq<string>)

  /** What one call fixes for all the files it handles. */
  datatype Request = Request(server: Server, dataDir: string, url: string, force: bool, testFlag: bool)

  /** `pathlib.Path(config.ASI_DATA_DIR, 'rego', file_name)`. */
  function LocalPath(dataDir: string, name: string): string
  {
    dataDir + "/rego/" + name
  }

  function LocalPaths(dataDir: string, names: seq<string>): (paths: seq<string>)
    ensures |paths| == |names|
    ensures forall i :: 0 <= i < |names| ==> paths[i] == LocalPath(dataDir, names[i])
  {
    seq(|names|, i requires 0 <= i < |names| => LocalPath(dataDir, names[i]))
  }

  /** One file: streamed from `url + name` when forced or not yet a local file, else left alone. */
  function Step(s: CacheState, req: Request, name: string): CacheState
  {
    var path := LocalPath(req.dataDir, name);
    if req.force || path !in s.files then
      CacheState(s.files[path := Streamed(req.server.body(req.url + name), req.testFlag)], s.fetched + [req.url + name])
    else s
  }

  /** The files handled one after the other, in listing order. */
  function Run(s: CacheState, req: Request, names: seq<string>): CacheState
  {
    if names == [] then s else Step(Run(s, req, names[..|names| - 1]), req, names[|names| - 1])
  }

  /** `download_rego_img`: the paths it returns (or the error it raises) and the cache it leaves. */
  function Download(s: CacheState, server: Server, dataDir: string, day: DateTime, station: string,
                    downloadHour: bool, force: bool, testFlag: bool): (Result<seq<string>, DownloadError>, CacheState)
  {
    var url := DirectoryUrl(station, day);
    var pattern := if downloadHour then HourPattern(station, day) else "";
    var names := Matching(server.listing(url), pattern);
    var req := Request(server, dataDir, url, force, testFlag);
    if names == [] then (Failure(NotADirectory(url, pattern)), s)
    else if downloadHour then (Success([LocalPath(dataDir, names[0])]), Step(s, req, names[0]))
    else (Success(LocalPaths(dataDir, names)), Run(s, req, names))
  }

  // ---------------------------------------------------------------------
  // Properties of the plan

  /** A run only adds local files, and every handled file is local afterwards. */
  lemma {:induction false} RunCachesAll(s: CacheState, req: Request, names: seq<string>)
    ensures s.files.Keys <= Run(s, req, names).files.Keys
    ensures forall n :: n in names ==> LocalPath(req.dataDir, n) in Run(s, req, names).files
    ensures s.fetched <= Run(s, req, names).fetched
  {
    if names != [] {
      RunCachesAll(s, req, names[..|names| - 1]);
      assert names == names[..|names| - 1] + [names[|names| - 1]];
    }
  }

  /** With `force_download` every handled file is streamed, in listing order. */
  lemma {:induction false} RunForced(s: CacheState, req: Request, names: seq<string>)
    requires req.force
    ensures Run(s, req, names).fetched == s.fetched + seq(|names|, i requires 0 <= i < |names| => req.url + names[i])
  {
    if names != [] {
      RunForced(s, req, names[..|names| - 1]);
    }
  }

  /** Without `force_download`, files that are already local are never streamed and keep their contents. */
  lemma {:induction false} RunSkipsCached(s: CacheState, req: Request, names: seq<string>)
    requires !req.force
    requires forall n :: n in names ==> LocalPath(req.dataDir, n) in s.files
    ensures Run(s, req, names) == s
  {
    if names != [] {
      RunSkipsCached(s, req, names[..|names| - 1]);
    }
  }

  /** Without `force_download`, a file that was local keeps its contents. */
  lemma {:induction false} RunKeepsCachedContents(s: CacheState, req: Request, names: seq<string>, path: string)
    requires !req.force && path in s.files
    ensures path in Run(s, req, names).files && Run(s, req, names).files[path] == s.files[path]
  {
    if names != [] {
      RunKeepsCachedContents(s, req, names[..|names| - 1], path);
    }
  }

  /**
   * Without `force_download`, every URL streamed by a run is that of a
   * handled file which was not local before the run.
   */
  lemma {:induction false} RunFetchesOnlyMissing(s: CacheState, req: Request, names: seq<string>)
    requires !req.force
    ensures var r := Run(s, req, names);
            && |s.fetched| <= |r.fetched|
            && forall k :: |s.fetched| <= k < |r.fetched| ==>
                 exists n :: n in names && r.fetched[k] == req.url + n && LocalPath(req.dataDir, n) !in s.files
  {
    if names != [] {
      var front, last := names[..|names| - 1], names[|names| - 1];
      RunFetchesOnlyMissing(s, req, front);
      var mid := Run(s, req, front);
      var r := Run(s, req, names);
      forall k | |s.fetched| <= k < |r.fetched|
        ensures exists n :: n in names && r.fetched[k] == req.url + n && LocalPath(req.dataDir, n) !in s.files
      {
        if k < |mid.fetched| {
          assert r.fetched[k] == mid.fetched[k];
          var n :| n in front && mid.fetched[k] == req.url + n && LocalPath(req.dataDir, n) !in s.files;
          assert n in names;
        } else {
          assert LocalPath(req.dataDir, last) !in mid.files;
          RunCachesAll(s, req, front);
          assert r.fetched[k] == req.url + last;
        }
      }
    }
  }

  /**
   * Every handled file that was not local is streamed during the run (the
   * converse of `RunFetchesOnlyMissing`).
   */
  lemma {:induction false} RunFetchesMissing(s: CacheState, req: Request, names: seq<string>, n: string)
    requires n in names && LocalPath(req.dataDir, n) !in s.files
    ensures |s.fetched| <= |Run(s, req, names).fetched|
    ensures req.url + n in Run(s, req, names).fetched[|s.fetched|..]
  {
    var front, last := names[..|names| - 1], names[|names| - 1];
    var mid := Run(s, req, front);
    RunCachesAll(s, req, front);
    if n in front {
      RunFetchesMissing(s, req, front, n);
      var r := Run(s, req, names);
      assert mid.fetched <= r.fetched;
      assert mid.fetched[|s.fetched|..] <= r.fetched[|s.fetched|..];
    } else {
      assert n == last;
      if !req.force && LocalPath(req.dataDir, n) in mid.files {
        // a file absent before the run becomes local only by being streamed, and `n` was not handled before
        RunLocalOnlyIfFetched(s, req, front, LocalPath(req.dataDir, n));
        var m :| m in front && LocalPath(req.dataDir, m) == LocalPath(req.dataDir, n)
                 && req.url + m in mid.fetched[|s.fetched|..];
        assert m == n by { LocalPathInjective(req.dataDir, m, n); }
        assert false;
      }
      var r := Run(s, req, names);
      assert r.fetched == mid.fetched + [req.url + n];
      assert r.fetched[|s.fetched|..] == mid.fetched[|s.fetched|..] + [req.url + n];
    }
  }

  /** Distinct file names land at distinct local paths. */
  lemma LocalPathInjective(dataDir: string, a: string, b: string)
    requires LocalPath(dataDir, a) == LocalPath(dataDir, b)
    ensures a == b
  {
    var pre := dataDir + "/rego/";
    assert LocalPath(dataDir, a)[|pre|..] == a;
    assert LocalPath(dataDir, b)[|pre|..] == b;
  }

  /** A path that was absent before a run is local after it only if one of the handled files with that path was streamed. */
  lemma {:induction false} RunLocalOnlyIfFetched(s: CacheState, req: Request, names: seq<string>, path: string)
    requires names != []
    requires path !in s.files && path in Run(s, req, names).files
    ensures |s.fetched| <= |Run(s, req, names).fetched|
    ensures exists m :: m in names && LocalPath(req.dataDir, m) == path
                        && req.url + m in Run(s, req, names).fetched[|s.fetched|..]
  {
    var front, last := names[..|names| - 1], names[|names| - 1];
    var mid := Run(s, req, front);
    var r := Run(s, req, names);
    RunCachesAll(s, req, front);
    if path in mid.files {
      assert front != [];
      RunLocalOnlyIfFetched(s, req, front, path);
      var m :| m in front && LocalPath(req.dataDir, m) == path && req.url + m in mid.fetched[|s.fetched|..];
      assert mid.fetched[|s.fetched|..] <= r.fetched[|s.fetched|..];
      assert m in names;
    } else {
      assert r.fetched == mid.fetched + [req.url + last];
      assert r.fetched[|s.fetched|..] == mid.fetched[|s.fetched|..] + [req.url + last];
    }
  }

  // ---------------------------------------------------------------------
  // Properties of one call

  /** A call raises `NotADirectoryError` exactly when no listed href contains its pattern, and then changes nothing. */
  lemma DownloadFailsIffNoMatch(s: CacheState, server: Server, dataDir: string, day: DateTime, station: string,
                                downloadHour: bool, force: bool, testFlag: bool)
    ensures var url := DirectoryUrl(station, day);
            var pattern := if downloadHour then HourPattern(station, day) else "";
            var (r, s') := Download(s, server, dataDir, day, station, downloadHour, force, testFlag);
            && (r.Failure? <==> forall h :: h in server.listing(url) ==> !Matches(h, pattern))
            && (r.Failure? ==> r.error == NotADirectory(url, pattern) && s' == s)
            && (r.Success? ==> r.value != [])
  {
    var url := DirectoryUrl(station, day);
    var pattern := if downloadHour then HourPattern(station, day) else "";
    MatchingEmptyIff(server.listing(url), pattern);
  }

  /** The head of the result is the first listed href that matches. */
  lemma {:induction false} MatchingHeadIsFirst(hrefs: seq<string>, pattern: string)
    requires Matching(hrefs, pattern) != []
    ensures exists k :: 0 <= k < |hrefs| && hrefs[k] == Matching(hrefs, pattern)[0]
                        && Matches(hrefs[k], pattern)
                        && forall j :: 0 <= j < k ==> !Matches(hrefs[j], pattern)
  {
    var front := hrefs[..|hrefs| - 1];
    if Matching(front, pattern) != [] {
      MatchingHeadIsFirst(front, pattern);
      var k :| 0 <= k < |front| && front[k] == Matching(front, pattern)[0]
               && Matches(front[k], pattern) && forall j :: 0 <= j < k ==> !Matches(front[j], pattern);
      assert hrefs[k] == front[k];
      assert forall j :: 0 <= j < k ==> hrefs[j] == front[j];
    } else {
      MatchingEmptyIff(front, pattern);
      var k := |hrefs| - 1;
      assert forall j :: 0 <= j < k ==> hrefs[j] in front;
    }
  }

  /**
   * Hour mode: the first matching href wins. The call returns its one
   * local path and streams at most that one file, from the station's
   * directory, and only when forced or not yet local.
   */
  lemma DownloadHourFirstMatch(s: CacheState, server: Server, dataDir: string, day: DateTime, station: string,
                               force: bool, testFlag: bool)
    ensures var url := DirectoryUrl(station, day);
            var listing := server.listing(url);
            var pattern := HourPattern(station, day);
            var (r, s') := Download(s, server, dataDir, day, station, true, force, testFlag);
            r.Success? ==>
              exists k :: 0 <= k < |listing| && Matches(listing[k], pattern)
                && (forall j :: 0 <= j < k ==> !Matches(listing[j], pattern))
                && r.value == [LocalPath(dataDir, listing[k])]
                && (if force || LocalPath(dataDir, listing[k]) !in s.files
                    then s'.fetched == s.fetched + [url + listing[k]]
                         && s'.files == s.files[LocalPath(dataDir, listing[k]) := Streamed(server.body(url + listing[k]), testFlag)]
                    else s' == s)
  {
    var url := DirectoryUrl(station, day);
    var names := Matching(server.listing(url), HourPattern(station, day));
    if names != [] {
      MatchingHeadIsFirst(server.listing(url), HourPattern(station, day));
    }
  }

  /**
   * Whole-day mode: one local path per listed href, in listing order,
   * whether its file was streamed or found local; `NotADirectoryError`
   * only for an empty listing.
   */
  lemma DownloadDayPaths(s: CacheState, server: Server, dataDir: string, day: DateTime, station: string,
                         force: bool, testFlag: bool)
    ensures var listing := server.listing(DirectoryUrl(station, day));
            var (r, s') := Download(s, server, dataDir, day, station, false, force, testFlag);
            && (r.Failure? <==> listing == [])
            && (r.Success? ==> |r.value| == |listing|
                               && forall i :: 0 <= i < |listing| ==> r.value[i] == LocalPath(dataDir, listing[i]))
  {
    MatchingEmptyPattern(server.listing(DirectoryUrl(station, day)));
  }

  /** Every file a call handles is local afterwards; local files are never removed. */
  lemma DownloadCachesResult(s: CacheState, server: Server, dataDir: string, day: DateTime, station: string,
                             downloadHour: bool, force: bool, testFlag: bool)
    ensures var (r, s') := Download(s, server, dataDir, day, station, downloadHour, force, testFlag);
            && s.files.Keys <= s'.files.Keys
            && s.fetched <= s'.fetched
            && (r.Success? ==> forall p :: p in r.value ==> p in s'.files)
  {
    var url := DirectoryUrl(station, day);
    var pattern := if downloadHour then HourPattern(station, day) else "";
    var names := Matching(server.listing(url), pattern);
    var req := Request(server, dataDir, url, force, testFlag);
    if names != [] {
      if downloadHour {
        assert Step(s, req, names[0]) == Run(s, req, [names[0]]);
        RunCachesAll(s, req, [names[0]]);
      } else {
        RunCachesAll(s, req, names);
      }
    }
  }

  /**
   * Idempotence without `force_download`: repeating a call returns the
   * same paths and streams nothing more.
   */
  lemma DownloadIdempotent(s: CacheState, server: Server, dataDir: string, day: DateTime, station: string,
                           downloadHour: bool, testFlag: bool)
    ensures var (r1, s1) := Download(s, server, dataDir, day, station, downloadHour, false, testFlag);
            var (r2, s2) := Download(s1, server, dataDir, day, station, downloadHour, false, testFlag);
            r2 == r1 && s2 == s1
  {
    var url := DirectoryUrl(station, day);
    var pattern := if downloadHour then HourPattern(station, day) else "";
    var names := Matching(server.listing(url), pattern);
    var req := Request(server, dataDir, url, false, testFlag);
    if names != [] {
      if downloadHour {
        assert Step(s, req, names[0]) == Run(s, req, [names[0]]);
        RunCachesAll(s, req, [names[0]]);
      } else {
        var s1 := Run(s, req, names);
        RunCachesAll(s, req, names);
        RunSkipsCached(s1, req, names);
      }
    }
  }

  /** With `force_download` a call streams every file it handles, in listing order, cached or not. */
  lemma DownloadForced(s: CacheState, server: Server, dataDir: string, day: DateTime, station: string,
                       downloadHour: bool, testFlag: bool)
    ensures var url := DirectoryUrl(station, day);
            var pattern := if downloadHour then HourPattern(station, day) else "";
            var names := Matching(server.listing(url), pattern);
            var chosen := if downloadHour && names != [] then [names[0]] else names;
            var (r, s') := Download(s, server, dataDir, day, station, downloadHour, true, testFlag);
            s'.fetched == s.fetched + seq(|chosen|, i requires 0 <= i < |chosen| => url + chosen[i])
  {
    var url := DirectoryUrl(station, day);
    var pattern := if downloadHour then HourPattern(station, day) else "";
    var names := Matching(server.listing(url), pattern);
    var req := Request(server, dataDir, url, true, testFlag);
    if names != [] {
      if downloadHour {
        assert Step(s, req, names[0]) == Run(s, req, [names[0]]);
        RunForced(s, req, [names[0]]);
      } else {
        RunForced(s, req, names);
      }
    }
  }

  // ---------------------------------------------------------------------
  // The local cache, updated in place

  /** The local `rego` directory under `config.ASI_DATA_DIR`, and the log of streamed URLs. */
  class RegoCache {
    const dataDir: string
    var files: map<string, seq<Byte>>
    var fetched: seq<string>

    function State(): CacheState
      reads this
    {
      CacheState(files, fetched)
    }

    constructor (dataDir: string, files: map<string, seq<Byte>>)
      ensures this.dataDir == dataDir && State() == CacheState(files, [])
    {
      this.dataDir := dataDir;
      this.files := files;
      fetched := [];
    }

    /**
     * `stream_large_file`: (re)creates `savePath` and appends the body's
     * 5 MiB chunks in arrival order; with `test_flag` it returns right
     * after the first chunk. `downloaded` is the running byte counter the
     * source prints as a percentage; it is not advanced for the chunk
     * written before a `test_flag` return.
     */
    method StreamLargeFile(server: Server, url: string, savePath: string, testFlag: bool) returns (downloaded: nat)
      modifies this
      ensures files == old(files)[savePath := Streamed(server.body(url), testFlag)]
      ensures fetched == old(fetched) + [url]
      ensures downloaded == if testFlag then 0 else |server.body(url)|
    {
      var body := server.body(url);
      var chunks := Chunked(body, ChunkSize);
      fetched := fetched + [url];
      var written: seq<Byte> := [];
      files := files[savePath := written];
      downloaded := 0;
      for i := 0 to |chunks|
        invariant written == Concat(chunks[..i])
        invariant files == old(files)[savePath := written]
        invariant fetched == old(fetched) + [url]
        invariant downloaded == |written|
        invariant testFlag ==> i == 0
      {
        assert chunks[..i + 1][..i] == chunks[..i];
        written := written + chunks[i];
        files := files[savePath := written];
        if testFlag {
          TestFlagWritesFirstChunk(body, chunks);
          return;
        }
        downloaded := downloaded + |chunks[i]|;
      }
      assert chunks[..|chunks|] == chunks;
      WholeBodyStreamed(body, chunks, testFlag);
    }

    /** The loop of `download_rego_img` over every file of the directory. */
    method FetchAll(req: Request, names: seq<string>) returns (paths: seq<string>)
      requires req.dataDir == dataDir
      modifies this
      ensures paths == LocalPaths(dataDir, names)
      ensures State() == Run(old(State()), req, names)
    {
      paths := [];
      for i := 0 to |names|
        invariant paths == LocalPaths(dataDir, names[..i])
        invariant State() == Run(old(State()), req, names[..i])
      {
        assert names[..i + 1][..i] == names[..i];
        ghost var before := State();
        var downloadUrl := req.url + names[i];
        var downloadPath := LocalPath(dataDir, names[i]);
        paths := paths + [downloadPath];
        assert paths == LocalPaths(dataDir, names[..i + 1]);
        if req.force || downloadPath !in files {
          var _ := StreamLargeFile(req.server, downloadUrl, downloadPath, req.testFlag);
        }
        assert State() == Step(before, req, names[i]);
      }
      assert names[..|names|] == names;
    }

    /**
     * `download_rego_img`: one hour's file (first match of the hour
     * pattern) or every file of the station's month directory, each
     * streamed only when forced or not yet local; returns the local paths.
     */
    method DownloadRegoImg(server: Server, day: DateTime, station: string,
                           downloadHour: bool, forceDownload: bool, testFlag: bool)
      returns (r: Result<seq<string>, DownloadError>)
      modifies this
      ensures (r, State()) == Download(old(State()), server, dataDir, day, station, downloadHour, forceDownload, testFlag)
    {
      var url := DirectoryUrl(station, day);
      var req := Request(server, dataDir, url, forceDownload, testFlag);
      if downloadHour {
        var searchPattern := HourPattern(station, day);
        var found := SearchHrefs(url, server.listing(url), searchPattern);
        MatchingEmptyIff(server.listing(url), searchPattern);
        if found.Failure? {
          return Failure(found.error);
        }
        var fileNames := found.value;
        var downloadUrl := url + fileNames[0];
        var downloadPath := LocalPath(dataDir, fileNames[0]);
        if forceDownload || downloadPath !in files {
          var _ := StreamLargeFile(server, downloadUrl, downloadPath, testFlag);
        }
        return Success([downloadPath]);
      } else {
        var found := SearchHrefs(url, server.listing(url), "");
        MatchingEmptyIff(server.listing(url), "");
        if found.Failure? {
          return Failure(found.error);
        }
        var downloadPaths := FetchAll(req, found.value);
        return Success(downloadPaths);
      }
    }
  }
}
