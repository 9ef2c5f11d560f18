/** The watch mode: file events are buffered by path with the time of the
    latest one, a periodic sweep takes the entries that have been quiet for
    more than a second and starts a single-file run for each container among
    them, and a path started less than thirty seconds earlier is not started
    again. Times are whole milliseconds. */
module Watcher {
  import opened Paths
  import opened Settings
  import Text

  /** An entry is taken by a sweep once it is older than this. */
  const QuietWindow := 1000
  /** A path is not started again within this long of its last start. */
  const DedupWindow := 30000

  /** The kinds of an fsnotify event that matter here. */
  datatype Op = Op(create: bool, write: bool)

  /** A single-file run handed to the processing screen. */
  datatype Request = Request(cfg: Config, files: seq<string>)

  /** An entry last touched at `t` is stale at `now`. */
  predicate Stale(t: int, now: int)
  {
    now - t > QuietWindow
  }

  /** The buffer a sweep at `now` leaves: the entries that are not stale. */
  function Pending(buffer: map<string, int>, now: int): (r: map<string, int>)
    ensures forall f :: f in r <==> f in buffer && !Stale(buffer[f], now)
    ensures forall f :: f in r ==> r[f] == buffer[f]
  {
    map f | f in buffer && !Stale(buffer[f], now) :: buffer[f]
  }

  /** The paths a sweep at `now` hands on: the stale containers. */
  function Taken(buffer: map<string, int>, now: int): (r: set<string>)
    ensures forall f :: f in r <==> f in buffer && Stale(buffer[f], now) && IsMkv(f)
  {
    set f | f in buffer && Stale(buffer[f], now) && IsMkv(f)
  }

  /** Started at `now` is too soon after the last start of `path`. */
  predicate Recent(processed: map<string, int>, path: string, now: int)
  {
    path in processed && now - processed[path] < DedupWindow
  }

  /** The configuration of a single-file run: the container's folder as the
      directory, everything else inherited. */
  function SingleFileConfig(cfg: Config, path: string): (r: Config)
    ensures r.dir == Dir(path)
    ensures r.(dir := cfg.dir) == cfg
  {
    cfg.(dir := Dir(path))
  }

  predicate Distinct(s: seq<string>)
  {
    forall i, j :: 0 <= i < j < |s| ==> s[i] != s[j]
  }

  /** The runs a list of distinct paths starts at `now`: one per path not
      started recently, in list order. */
  function Requests(cfg: Config, paths: seq<string>, processed: map<string, int>, now: int): (r: seq<Request>)
    ensures |r| <= |paths|
  {
    if paths == [] then []
    else
      var last := paths[|paths| - 1];
      Requests(cfg, paths[..|paths| - 1], processed, now)
        + (if Recent(processed, last, now) then [] else [Request(SingleFileConfig(cfg, last), [last])])
  }

  /** `processed` once the paths not started recently are recorded at `now`. */
  function Stamped(paths: seq<string>, processed: map<string, int>, now: int): (r: map<string, int>)
    ensures r.Keys == processed.Keys + (set f | f in paths && !Recent(processed, f, now))
  {
    if paths == [] then processed
    else
      var last := paths[|paths| - 1];
      var before := Stamped(paths[..|paths| - 1], processed, now);
      if Recent(processed, last, now) then before else before[last := now]
  }

  class FileWatcher {
    const path: string
    const cfg: Config
    /** The event buffer of `handleEvents`: path to the time of its latest event. */
    var fileBuffer: map<string, int>
    /** Path to the time it was last started. */
    var processed: map<string, int>
    /** The single-file runs started so far, in order. */
    var runs: seq<Request>

    /** `NewFileWatcher`. */
    constructor (path: string, cfg: Config)
      ensures this.path == path && this.cfg == cfg
      ensures fileBuffer == map[] && processed == map[] && runs == []
    {
      this.path := path;
      this.cfg := cfg;
      fileBuffer := map[];
      processed := map[];
      runs := [];
    }

    /** A file event: a creation or a write (re)sets the path's time. */
    method HandleEvent(name: string, op: Op, now: int)
      modifies this`fileBuffer
      ensures op.create || op.write ==> fileBuffer == old(fileBuffer)[name := now]
      ensures !(op.create || op.write) ==> fileBuffer == old(fileBuffer)
    {
      if op.create || op.write {
        fileBuffer := fileBuffer[name := now];
      }
    }

    /** The sweep of a tick: every stale entry leaves the buffer, and the
        containers among them are handed on, each once, in no particular
        order. */
    method Sweep(now: int) returns (filesToProcess: seq<string>)
      modifies this`fileBuffer
      ensures fileBuffer == Pending(old(fileBuffer), now)
      ensures forall f :: f in filesToProcess <==> f in Taken(old(fileBuffer), now)
      ensures Distinct(filesToProcess)
    {
      filesToProcess := [];
      if |fileBuffer| == 0 {
        return;
      }
      ghost var buffer0 := fileBuffer;
      var keys := fileBuffer.Keys;
      while keys != {}
        invariant keys <= buffer0.Keys
        invariant forall f :: f in fileBuffer <==> f in buffer0 && (f in keys || !Stale(buffer0[f], now))
        invariant forall f :: f in fileBuffer ==> fileBuffer[f] == buffer0[f]
        invariant forall f :: f in filesToProcess <==> f in buffer0 && f !in keys && Stale(buffer0[f], now) && IsMkv(f)
        invariant Distinct(filesToProcess)
        decreases |keys|
      {
        var file :| file in keys;
        var createdAt := fileBuffer[file];
        if now - createdAt > QuietWindow {
          if IsMkv(file) {
            filesToProcess := filesToProcess + [file];
          }
          fileBuffer := fileBuffer - {file};
        }
        keys := keys - {file};
      }
      assert fileBuffer == Pending(buffer0, now);
    }

    /** `processFile`: a path started less than thirty seconds ago is
        dropped; otherwise its start time is recorded and a single-file run
        of it is started. */
    method ProcessFile(file: string, now: int) returns (started: bool)
      modifies this`processed, this`runs
      ensures started == !Recent(old(processed), file, now)
      ensures started ==> processed == old(processed)[file := now]
      ensures started ==> runs == old(runs) + [Request(SingleFileConfig(cfg, file), [file])]
      ensures !started ==> processed == old(processed) && runs == old(runs)
    {
      if file in processed && now - processed[file] < DedupWindow {
        return false;
      }
      processed := processed[file := now];
      var fileCfg := cfg;
      fileCfg := fileCfg.(dir := Dir(file));
      runs := runs + [Request(fileCfg, [file])];
      return true;
    }

    /** A tick: the sweep, then `processFile` for each path it hands on. The
        time of the tick stands for the time of every start it causes. */
    method Tick(now: int) returns (swept: seq<string>)
      modifies this`fileBuffer, this`processed, this`runs
      ensures fileBuffer == Pending(old(fileBuffer), now)
      ensures forall f :: f in swept <==> f in Taken(old(fileBuffer), now)
      ensures Distinct(swept)
      ensures runs == old(runs) + Requests(cfg, swept, old(processed), now)
      ensures processed == Stamped(swept, old(processed), now)
    {
      swept := Sweep(now);
      ProcessAll(swept, now);
    }

    /** The loop of a tick over the swept paths. */
    method ProcessAll(swept: seq<string>, now: int)
      requires Distinct(swept)
      modifies this`processed, this`runs
      ensures runs == old(runs) + Requests(cfg, swept, old(processed), now)
      ensures processed == Stamped(swept, old(processed), now)
    {
      var i := 0;
      while i < |swept|
        invariant 0 <= i <= |swept|
        invariant processed == Stamped(swept[..i], old(processed), now)
        invariant runs == old(runs) + Requests(cfg, swept[..i], old(processed), now)
      {
        ProcessStep(cfg, swept, old(processed), now, i);
        Text.AppendAssoc(old(runs), Requests(cfg, swept[..i], old(processed), now),
                         if Recent(old(processed), swept[i], now) then [] else [Request(SingleFileConfig(cfg, swept[i]), [swept[i]])]);
        var _ := ProcessFile(swept[i], now);
        i := i + 1;
      }
      assert swept[..i] == swept;
    }
  }

  /** Stamping a list leaves the entries of paths not in it as they were. */
  lemma {:induction false} StampedKeepsOthers(paths: seq<string>, processed: map<string, int>, now: int, f: string)
    requires f !in paths
    ensures f in Stamped(paths, processed, now) <==> f in processed
    ensures f in processed ==> Stamped(paths, processed, now)[f] == processed[f]
  {
    if paths != [] {
      StampedKeepsOthers(paths[..|paths| - 1], processed, now, f);
    }
  }

  /** Before the `i`-th path of a distinct list, earlier starts have not
      touched its entry. */
  lemma StampedOthers(paths: seq<string>, processed: map<string, int>, now: int, i: nat)
    requires Distinct(paths) && i < |paths|
    ensures Recent(Stamped(paths[..i], processed, now), paths[i], now) == Recent(processed, paths[i], now)
  {
    assert paths[i] !in paths[..i];
    StampedKeepsOthers(paths[..i], processed, now, paths[i]);
  }

  /** The `i`-th path of a distinct list extends the runs and the stamps of
      the paths before it as if it were started alone. */
  lemma ProcessStep(cfg: Config, paths: seq<string>, processed: map<string, int>, now: int, i: nat)
    requires Distinct(paths) && i < |paths|
    ensures var f := paths[i];
      var before := Stamped(paths[..i], processed, now);
      && Recent(before, f, now) == Recent(processed, f, now)
      && Stamped(paths[..i + 1], processed, now) == (if Recent(before, f, now) then before else before[f := now])
      && Requests(cfg, paths[..i + 1], processed, now)
         == Requests(cfg, paths[..i], processed, now) + (if Recent(processed, f, now) then [] else [Request(SingleFileConfig(cfg, f), [f])])
  {
    StampedOthers(paths, processed, now, i);
    assert paths[..i + 1][..i] == paths[..i];
  }

  /** An event restarts the quiet window: a sweep within a second of the
      latest event keeps the path and hands nothing on for it. */
  lemma EventDefersSweep(buffer: map<string, int>, name: string, t: int, now: int)
    requires now - t <= QuietWindow
    ensures name in Pending(buffer[name := t], now)
    ensures name !in Taken(buffer[name := t], now)
  {
  }

  /** A sweep over an empty buffer hands on nothing and leaves it empty. */
  lemma EmptySweep(now: int)
    ensures Pending(map[], now) == map[] && Taken(map[], now) == {}
  {
  }

  /** Every entry is either kept or taken out; only containers are handed on. */
  lemma SweepPartitions(buffer: map<string, int>, now: int)
    ensures Pending(buffer, now).Keys <= buffer.Keys
    ensures Taken(buffer, now) <= buffer.Keys - Pending(buffer, now).Keys
    ensures forall f :: f in buffer.Keys - Pending(buffer, now).Keys && IsMkv(f) ==> f in Taken(buffer, now)
  {
  }

  /** A start stamps the path, so a second start within thirty seconds is
      dropped; entries are never removed. */
  lemma RestartIsDropped(processed: map<string, int>, file: string, t: int, later: int)
    requires t <= later < t + DedupWindow
    ensures Recent(processed[file := t], file, later)
    ensures processed.Keys <= processed[file := t].Keys
  {
  }
}
