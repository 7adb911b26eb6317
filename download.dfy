/**
 * The download phase: the nested loops over the planned tiles, the skip of a
 * tile whose cache file exists, one retry after a failed retrieval, and the
 * abort of the whole phase when the retry fails too.
 */
module Download {
  import opened Config
  import opened TileGrid

  /** What one call of `urlretrieve(url, filename)` does. */
  datatype Attempt =
    | Fetched(wellFormed: bool)  // the response was written; whether it parses as XML
    | FailedNoFile               // raised before the file was opened (refused, HTTP error status)
    | FailedPartial              // raised after the file was opened: a partial file is left

  /** One `urlretrieve(url, filename)` call. */
  datatype Request = Request(url: string, file: string)

  /**
   * How the loop stands: still going (or, at the end, finished), returned
   * early after a second failure, or left by an exception.
   */
  datatype Phase = Running | Stopped | Raised

  /** The cache directory's files, the requests issued so far and the phase. */
  datatype DownloadState = DownloadState(files: set<string>, requests: seq<Request>, phase: Phase)

  function RequestOf(cfg: Config, t: Tile): Request {
    Request(TileUrl(cfg, t), TileName(cfg, t))
  }

  /** The cache after one retrieval into `f`. */
  function AfterAttempt(files: set<string>, f: string, a: Attempt): set<string> {
    if a == FailedNoFile then files else files + {f}
  }

  /** After a retrieval wrote the file, `etree.parse` either reads it or raises. */
  function Parsed(files: set<string>, requests: seq<Request>, a: Attempt): DownloadState
    requires a.Fetched?
  {
    DownloadState(files, requests, if a.wellFormed then Running else Raised)
  }

  /**
   * One pass of the inner loop body for tile `t`: skipped once the loop has
   * ended or when the tile's file exists, fetched otherwise.
   */
  function Step(cfg: Config, outcome: nat -> Attempt, st: DownloadState, t: Tile): DownloadState {
    if st.phase != Running || TileName(cfg, t) in st.files then st else Fetch(cfg, outcome, st, t)
  }

  /**
   * Fetching tile `t`, with one retry. `outcome(k)` is what the k-th request
   * of the run does.
   */
  function Fetch(cfg: Config, outcome: nat -> Attempt, st: DownloadState, t: Tile): DownloadState {
    var f := TileName(cfg, t);
    var k := |st.requests|;
    var first := outcome(k);
    if first.Fetched? then Parsed(st.files + {f}, st.requests + [RequestOf(cfg, t)], first)
    else
      var files1 := AfterAttempt(st.files, f, first);
      var second := outcome(k + 1);
      var requests := st.requests + [RequestOf(cfg, t), RequestOf(cfg, t)];
      if second.Fetched? then Parsed(files1 + {f}, requests, second)
      else
        var files2 := AfterAttempt(files1, f, second);
        // os.remove(filename) raises when neither attempt created the file
        if f in files2 then DownloadState(files2 - {f}, requests, Stopped)
        else DownloadState(files2, requests, Raised)
  }

  /** The loop body applied to each tile of `tiles` in turn. */
  function Run(cfg: Config, outcome: nat -> Attempt, tiles: seq<Tile>, st: DownloadState): DownloadState
    decreases |tiles|
  {
    if tiles == [] then st
    else Step(cfg, outcome, Run(cfg, outcome, tiles[..|tiles| - 1], st), tiles[|tiles| - 1])
  }

  /** The state before the download phase starts. */
  function Start(files: set<string>, requests: seq<Request>): DownloadState {
    DownloadState(files, requests, Running)
  }

  // ---------------------------------------------------------------------
  // The file system and the server
  // ---------------------------------------------------------------------

  /** The temporary directory, as the set of file names in it. */
  class TileCache {
    var files: set<string>

    constructor (files: set<string>)
      ensures this.files == files
    {
      this.files := files;
    }

    /** `os.remove(f)`; `removed` is false where Python raises FileNotFoundError. */
    method Remove(f: string) returns (removed: bool)
      modifies this
      ensures removed == (f in old(files))
      ensures files == old(files) - {f}
    {
      removed := f in files;
      files := files - {f};
    }
  }

  /** The WFS server: what each request of the run does, and the requests received. */
  class Server {
    const outcome: nat -> Attempt
    var requests: seq<Request>

    constructor (outcome: nat -> Attempt)
      ensures this.outcome == outcome && requests == []
    {
      this.outcome := outcome;
      requests := [];
    }

    /** `urlretrieve(url, file)` into the cache directory. */
    method Retrieve(url: string, file: string, cache: TileCache) returns (a: Attempt)
      modifies this, cache
      ensures requests == old(requests) + [Request(url, file)]
      ensures a == outcome(|old(requests)|)
      ensures cache.files == AfterAttempt(old(cache.files), file, a)
    {
      a := outcome(|requests|);
      requests := requests + [Request(url, file)];
      if a != FailedNoFile {
        cache.files := cache.files + {file};
      }
    }
  }

  /**
   * `download_files`: the cache and the server end in the state `Run` gives
   * for the planned tiles.
   */
  method DownloadFiles(cfg: Config, cache: TileCache, server: Server) returns (phase: Phase)
    requires Terminates(cfg)
    modifies cache, server
    ensures DownloadState(cache.files, server.requests, phase)
         == Run(cfg, server.outcome, Plan(cfg), Start(old(cache.files), old(server.requests)))
  {
    var westRange, southRange := PlanAxes(cfg);
    assert Plan(cfg) == Product(westRange, southRange);
    ghost var start := Start(cache.files, server.requests);
    phase := Running;
    for i := 0 to |westRange|
      invariant phase == Running
      invariant Start(cache.files, server.requests) == Run(cfg, server.outcome, Product(westRange[..i], southRange), start)
    {
      ghost var k;
      phase, k := DownloadRow(cfg, westRange[i], southRange, cache, server, Product(westRange[..i], southRange), start);
      if phase != Running {
        HaltedPlan(cfg, server.outcome, westRange, southRange, i, k, start);
        return;
      }
      assert Row(westRange[i], southRange)[..|southRange|] == Row(westRange[i], southRange);
      ProductSnoc(westRange, southRange, i);
    }
    assert westRange[..|westRange|] == westRange;
  }

  /**
   * The inner loop `for south in south_range` for one west origin: it ends in
   * the state `Run` gives after the first `k` tiles of the row, and `k` is the
   * whole row unless the loop returned or raised.
   */
  method DownloadRow(cfg: Config, w: int, southRange: seq<int>, cache: TileCache, server: Server,
                     ghost done: seq<Tile>, ghost start: DownloadState) returns (phase: Phase, ghost k: nat)
    requires Start(cache.files, server.requests) == Run(cfg, server.outcome, done, start)
    modifies cache, server
    ensures k <= |southRange|
    ensures DownloadState(cache.files, server.requests, phase) == Run(cfg, server.outcome, done + Row(w, southRange)[..k], start)
    ensures phase == Running ==> k == |southRange|
  {
    ghost var row := Row(w, southRange);
    assert done + row[..0] == done;
    phase := Running;
    k := 0;
    for j := 0 to |southRange|
      invariant phase == Running && k == j
      invariant Start(cache.files, server.requests) == Run(cfg, server.outcome, done + row[..j], start)
    {
      var t := Tile(w, southRange[j]);
      assert row[j] == t;
      ghost var before := Run(cfg, server.outcome, done + row[..j], start);
      RunSnoc(cfg, server.outcome, done + row[..j], t, start);
      VisitedSnoc(done, row, j);
      assert Run(cfg, server.outcome, done + row[..j + 1], start) == Step(cfg, server.outcome, before, t);
      phase := VisitTile(cfg, t, cache, server);
      assert DownloadState(cache.files, server.requests, phase) == Step(cfg, server.outcome, before, t);
      k := j + 1;
      if phase != Running {
        return;
      }
    }
  }

  lemma VisitedSnoc(done: seq<Tile>, row: seq<Tile>, j: nat)
    requires j < |row|
    ensures done + row[..j + 1] == (done + row[..j]) + [row[j]]
  {
    assert row[..j + 1] == row[..j] + [row[j]];
  }

  /** Running the loop over one more tile is one more step. */
  lemma RunSnoc(cfg: Config, outcome: nat -> Attempt, p: seq<Tile>, t: Tile, st: DownloadState)
    ensures Run(cfg, outcome, p + [t], st) == Step(cfg, outcome, Run(cfg, outcome, p, st), t)
  {
    assert (p + [t])[..|p|] == p;
  }

  /**
   * The loop body for one tile: `continue` when its file exists, otherwise
   * `urlretrieve`, once more after a failure, and `os.remove` plus `return`
   * after a second failure; then `etree.parse` of the file.
   */
  method VisitTile(cfg: Config, t: Tile, cache: TileCache, server: Server) returns (phase: Phase)
    modifies cache, server
    ensures DownloadState(cache.files, server.requests, phase)
         == Step(cfg, server.outcome, Start(old(cache.files), old(server.requests)), t)
  {
    var url := TileUrl(cfg, t);
    var filename := TileName(cfg, t);
    phase := Running;
    if filename in cache.files {
      return;
    }
    var a := server.Retrieve(url, filename, cache);
    if !a.Fetched? {
      a := server.Retrieve(url, filename, cache);
      if !a.Fetched? {
        var removed := cache.Remove(filename);
        phase := if removed then Stopped else Raised;
        return;
      }
    }
    if !a.wellFormed {
      phase := Raised;
    }
  }

  /**
   * The tiles visited up to row `i`, column `j` are a prefix of the plan, so
   * once the loop halts there, the run over the whole plan ends in that state.
   */
  lemma HaltedPlan(cfg: Config, outcome: nat -> Attempt, xs: seq<int>, ys: seq<int>, i: nat, j: nat, st: DownloadState)
    requires Terminates(cfg)
    requires (xs, ys) == Axes(cfg)
    requires i < |xs| && j <= |ys|
    requires Run(cfg, outcome, Product(xs[..i], ys) + Row(xs[i], ys)[..j], st).phase != Running
    ensures Run(cfg, outcome, Plan(cfg), st) == Run(cfg, outcome, Product(xs[..i], ys) + Row(xs[i], ys)[..j], st)
  {
    ProductPrefix(xs, ys, i, j);
    RunHaltedPrefix(cfg, outcome, Product(xs[..i], ys) + Row(xs[i], ys)[..j], Plan(cfg), st);
  }

  lemma {:induction false} ProductPrefix(xs: seq<int>, ys: seq<int>, i: nat, j: nat)
    requires i < |xs| && j <= |ys|
    ensures Product(xs[..i], ys) + Row(xs[i], ys)[..j] <= Product(xs, ys)
    decreases |xs|
  {
    var init := xs[..|xs| - 1];
    if i == |xs| - 1 {
      assert init == xs[..i];
    } else {
      ProductPrefix(init, ys, i, j);
      assert init[..i] == xs[..i];
    }
  }

  // ---------------------------------------------------------------------
  // One tile
  // ---------------------------------------------------------------------

  /** A tile whose cache file exists is skipped: no request, nothing changes. */
  lemma StepSkipsCached(cfg: Config, outcome: nat -> Attempt, st: DownloadState, t: Tile)
    requires TileName(cfg, t) in st.files
    ensures Step(cfg, outcome, st, t) == st
  {
  }

  /**
   * A failed first attempt followed by a successful retry leaves the tile's
   * file in the cache and, when it parses, the loop going on to the next tile.
   */
  lemma StepRetrySucceeds(cfg: Config, outcome: nat -> Attempt, st: DownloadState, t: Tile)
    requires st.phase == Running && TileName(cfg, t) !in st.files
    requires !outcome(|st.requests|).Fetched? && outcome(|st.requests| + 1).Fetched?
    ensures var r := Step(cfg, outcome, st, t);
      && r.files == st.files + {TileName(cfg, t)}
      && r.requests == st.requests + [RequestOf(cfg, t), RequestOf(cfg, t)]
      && (r.phase == Running <==> outcome(|st.requests| + 1).wellFormed)
  {
  }

  /**
   * When both attempts fail the tile's file is absent, every other file is as
   * before, and the loop ends: by returning when an attempt left a file to
   * remove, by FileNotFoundError from `os.remove` when neither did.
   */
  lemma StepDoubleFailure(cfg: Config, outcome: nat -> Attempt, st: DownloadState, t: Tile)
    requires st.phase == Running && TileName(cfg, t) !in st.files
    requires !outcome(|st.requests|).Fetched? && !outcome(|st.requests| + 1).Fetched?
    ensures var r := Step(cfg, outcome, st, t);
      && r.files == st.files
      && TileName(cfg, t) !in r.files
      && r.requests == st.requests + [RequestOf(cfg, t), RequestOf(cfg, t)]
      && (r.phase == Stopped <==> (outcome(|st.requests|) == FailedPartial || outcome(|st.requests| + 1) == FailedPartial))
      && (r.phase == Raised <==> (outcome(|st.requests|) == FailedNoFile && outcome(|st.requests| + 1) == FailedNoFile))
  {
  }

  /** A step only adds its own tile's file, never removes one that was there before. */
  lemma StepFiles(cfg: Config, outcome: nat -> Attempt, st: DownloadState, t: Tile)
    ensures st.files <= Step(cfg, outcome, st, t).files <= st.files + {TileName(cfg, t)}
  {
  }

  // ---------------------------------------------------------------------
  // The whole loop
  // ---------------------------------------------------------------------

  /** Once the loop has ended early, later tiles are never attempted. */
  lemma {:induction false} RunHalted(cfg: Config, outcome: nat -> Attempt, p: seq<Tile>, q: seq<Tile>, st: DownloadState)
    requires Run(cfg, outcome, p, st).phase != Running
    ensures Run(cfg, outcome, p + q, st) == Run(cfg, outcome, p, st)
    decreases |q|
  {
    if q != [] {
      var q' := q[..|q| - 1];
      assert (p + q)[..|p + q| - 1] == p + q';
      RunHalted(cfg, outcome, p, q', st);
      assert Run(cfg, outcome, p + q, st)
          == Step(cfg, outcome, Run(cfg, outcome, p + q', st), (p + q)[|p + q| - 1]);
    } else {
      assert p + q == p;
    }
  }

  lemma RunHaltedPrefix(cfg: Config, outcome: nat -> Attempt, p: seq<Tile>, ts: seq<Tile>, st: DownloadState)
    requires p <= ts
    requires Run(cfg, outcome, p, st).phase != Running
    ensures Run(cfg, outcome, ts, st) == Run(cfg, outcome, p, st)
  {
    assert ts == p + ts[|p|..];
    RunHalted(cfg, outcome, p, ts[|p|..], st);
  }

  /**
   * Files cached before the run are all still there afterwards, and the run
   * adds no file other than the planned tiles' ones.
   */
  lemma {:induction false} RunFiles(cfg: Config, outcome: nat -> Attempt, ts: seq<Tile>, st: DownloadState)
    ensures st.files <= Run(cfg, outcome, ts, st).files
    ensures Run(cfg, outcome, ts, st).files <= st.files + set t | t in ts :: TileName(cfg, t)
    decreases |ts|
  {
    if ts != [] {
      var init := ts[..|ts| - 1];
      RunFiles(cfg, outcome, init, st);
      StepFiles(cfg, outcome, Run(cfg, outcome, init, st), ts[|ts| - 1]);
    }
  }

  /** Over a cache that already holds every tile's file the run makes no request and changes nothing. */
  lemma {:induction false} RunAllCached(cfg: Config, outcome: nat -> Attempt, ts: seq<Tile>, st: DownloadState)
    requires forall t :: t in ts ==> TileName(cfg, t) in st.files
    ensures Run(cfg, outcome, ts, st) == st
    decreases |ts|
  {
    if ts != [] {
      RunAllCached(cfg, outcome, ts[..|ts| - 1], st);
    }
  }

  /** The requests for the tiles of `ts` whose file is not in `files`. */
  function Wanted(cfg: Config, ts: seq<Tile>, files: set<string>): set<Request> {
    set t | t in ts && TileName(cfg, t) !in files :: RequestOf(cfg, t)
  }

  /**
   * The run only appends to the request log, every request is for one of its
   * tiles, and never for a tile whose file was cached when the run started.
   */
  lemma {:induction false} RunRequests(cfg: Config, outcome: nat -> Attempt, ts: seq<Tile>, st: DownloadState)
    ensures var r := Run(cfg, outcome, ts, st);
      && st.requests <= r.requests
      && forall k :: |st.requests| <= k < |r.requests| ==> r.requests[k] in Wanted(cfg, ts, st.files)
    decreases |ts|
  {
    if ts != [] {
      var init := ts[..|ts| - 1];
      var t := ts[|ts| - 1];
      RunRequests(cfg, outcome, init, st);
      RunFiles(cfg, outcome, init, st);
      var mid := Run(cfg, outcome, init, st);
      assert Wanted(cfg, init, st.files) <= Wanted(cfg, ts, st.files);
      if mid.phase == Running && TileName(cfg, t) !in mid.files {
        assert RequestOf(cfg, t) in Wanted(cfg, ts, st.files);
        FetchRequests(cfg, outcome, mid, t);
      }
    }
  }

  /** A fetch appends one or two requests for its tile. */
  lemma FetchRequests(cfg: Config, outcome: nat -> Attempt, st: DownloadState, t: Tile)
    ensures var r := Fetch(cfg, outcome, st, t);
      r.requests == st.requests + [RequestOf(cfg, t)] || r.requests == st.requests + [RequestOf(cfg, t), RequestOf(cfg, t)]
  {
  }

  /** A run that ends without stopping has every tile's file in the cache. */
  lemma {:induction false} RunComplete(cfg: Config, outcome: nat -> Attempt, ts: seq<Tile>, st: DownloadState)
    requires Run(cfg, outcome, ts, st).phase == Running
    ensures forall t :: t in ts ==> TileName(cfg, t) in Run(cfg, outcome, ts, st).files
    decreases |ts|
  {
    if ts != [] {
      var init, last := ts[..|ts| - 1], ts[|ts| - 1];
      var mid := Run(cfg, outcome, init, st);
      var r := Step(cfg, outcome, mid, last);
      assert Run(cfg, outcome, ts, st) == r;
      assert mid.phase == Running;
      RunComplete(cfg, outcome, init, st);
      StepFiles(cfg, outcome, mid, last);
      StepCompletes(cfg, outcome, mid, last);
      assert forall t :: t in ts ==> t in init || t == last;
    }
  }

  /** A step after which the loop goes on leaves its tile's file in the cache. */
  lemma StepCompletes(cfg: Config, outcome: nat -> Attempt, st: DownloadState, t: Tile)
    requires Step(cfg, outcome, st, t).phase == Running
    ensures TileName(cfg, t) in Step(cfg, outcome, st, t).files
  {
  }

  // ---------------------------------------------------------------------
  // Removing a file that was never written
  // ---------------------------------------------------------------------

  /**
   * As written: when both attempts fail before opening the file,
   * `os.remove(filename)` raises, so the phase ends with an exception instead
   * of returning, and the merge of the existing files never runs.
   */
  lemma DoubleFailureBeforeWriteRaises(cfg: Config, outcome: nat -> Attempt, st: DownloadState, t: Tile)
    requires st.phase == Running && TileName(cfg, t) !in st.files
    requires outcome(|st.requests|) == FailedNoFile && outcome(|st.requests| + 1) == FailedNoFile
    ensures Step(cfg, outcome, st, t).phase == Raised
  {
  }

  /** The second failure as evidently intended: remove the file if one was written, then return. */
  function GuardedStep(cfg: Config, outcome: nat -> Attempt, st: DownloadState, t: Tile): DownloadState {
    var f := TileName(cfg, t);
    if st.phase != Running || f in st.files then st
    else
      var k := |st.requests|;
      var first := outcome(k);
      if first.Fetched? then Parsed(st.files + {f}, st.requests + [RequestOf(cfg, t)], first)
      else
        var files1 := AfterAttempt(st.files, f, first);
        var second := outcome(k + 1);
        var requests := st.requests + [RequestOf(cfg, t), RequestOf(cfg, t)];
        if second.Fetched? then Parsed(files1 + {f}, requests, second)
        else DownloadState(AfterAttempt(files1, f, second) - {f}, requests, Stopped)
  }

  /** Corrected: a double failure always returns normally, with the cache as it was. */
  lemma GuardedStepDoubleFailure(cfg: Config, outcome: nat -> Attempt, st: DownloadState, t: Tile)
    requires st.phase == Running && TileName(cfg, t) !in st.files
    requires !outcome(|st.requests|).Fetched? && !outcome(|st.requests| + 1).Fetched?
    ensures GuardedStep(cfg, outcome, st, t) == DownloadState(st.files, st.requests + [RequestOf(cfg, t), RequestOf(cfg, t)], Stopped)
  {
  }

  /** The two differ only where the loop body raises and the guarded step returns. */
  lemma GuardedStepAgrees(cfg: Config, outcome: nat -> Attempt, st: DownloadState, t: Tile)
    ensures GuardedStep(cfg, outcome, st, t) != Step(cfg, outcome, st, t) ==>
      Step(cfg, outcome, st, t).phase == Raised && GuardedStep(cfg, outcome, st, t).phase == Stopped
  {
  }
}
