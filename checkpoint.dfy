/** The checkpoint store: the in-memory checkpoint of one batch run, its three
    append-only outcome lists, and the single file that persists it. */
module Checkpoint {
  import opened Wrappers
  import opened Text
  import opened Paths
  import opened Settings

  datatype ProcessedFile = ProcessedFile(name: string, hash: string)
  datatype FailedFile = FailedFile(name: string, error: string, hash: string)
  datatype SkippedFile = SkippedFile(name: string, reason: string, hash: string)

  datatype ProcessedFiles = ProcessedFiles(
    successful: seq<ProcessedFile>,
    failed: seq<FailedFile>,
    skipped: seq<SkippedFile>)

  /** Times are milliseconds. */
  datatype Checkpoint = Checkpoint(
    mode: string,
    languages: seq<string>,
    directory: string,
    recursive: bool,
    startedAt: int,
    lastCheckpoint: int,
    totalFiles: int,
    processed: ProcessedFiles,
    checkpointVersion: string)

  const CheckpointFileName := ".mkvtea_checkpoint.json"
  const CurrentVersion := "1.0"
  const NoActiveCheckpoint := "no active checkpoint"
  const NoActiveCheckpointToSave := "no active checkpoint to save"

  /** What the checkpoint file holds, as far as loading it can tell. */
  datatype CheckpointFile =
    | Absent
    | Unreadable(readError: string)
    | Undecodable(parseError: string)
    | Stored(cp: Checkpoint)

  /** The outcome of `Load`: no checkpoint, a checkpoint, or an error. */
  function Decode(file: CheckpointFile): (r: Result<Option<Checkpoint>, string>)
    ensures r.Success? <==> file.Absent? || file.Stored?
    ensures file.Stored? ==> r == Success(Some(file.cp))
  {
    match file
    case Absent => Success(None)
    case Unreadable(e) => Failure("failed to read checkpoint: " + e)
    case Undecodable(e) => Failure("failed to parse checkpoint: " + e)
    case Stored(cp) => Success(Some(cp))
  }

  /** The checkpoint file of one batch directory. Saving replaces its contents
      in one step (the temporary file renamed over it). */
  class CheckpointStore {
    const path: string
    var contents: CheckpointFile
    ghost var writes: nat   // completed saves

    constructor (dir: string, contents: CheckpointFile)
      ensures path == Paths.Join(dir, CheckpointFileName)
      ensures this.contents == contents && writes == 0
    {
      path := Paths.Join(dir, CheckpointFileName);
      this.contents := contents;
      writes := 0;
    }
  }

  /** The hash behind the fingerprint (MD5, cut to 16 hex digits, in the source). */
  type Digest = string -> string

  /** `hashFilename`: the fingerprint depends on the lower-cased base name only. */
  function Fingerprint(digest: Digest, filename: string): string
  {
    digest(ToLower(Base(filename)))
  }

  /** A record matches a file by exact base name or by fingerprint. */
  predicate Matches(name: string, hash: string, digest: Digest, filename: string)
  {
    name == Base(filename) || hash == Fingerprint(digest, filename)
  }

  /** Some record in any of the three lists matches `filename`. */
  predicate Recorded(p: ProcessedFiles, digest: Digest, filename: string)
  {
    || (exists r :: r in p.successful && Matches(r.name, r.hash, digest, filename))
    || (exists r :: r in p.failed && Matches(r.name, r.hash, digest, filename))
    || (exists r :: r in p.skipped && Matches(r.name, r.hash, digest, filename))
  }

  function ProcessedCount(p: ProcessedFiles): nat
  {
    |p.successful| + |p.failed| + |p.skipped|
  }

  /** The checkpoint `Create` starts: the run's parameters and three empty lists. */
  function NewCheckpoint(cfg: Config, totalFiles: int, now: int): (cp: Checkpoint)
    ensures ProcessedCount(cp.processed) == 0
    ensures cp.totalFiles == totalFiles && cp.startedAt == cp.lastCheckpoint == now
  {
    Checkpoint(cfg.mode, RequestedLanguages(cfg), cfg.dir, cfg.recursive, now, now,
               totalFiles, ProcessedFiles([], [], []), CurrentVersion)
  }

  function WithSuccess(cp: Checkpoint, digest: Digest, filename: string): Checkpoint
  {
    var rec := ProcessedFile(Base(filename), Fingerprint(digest, filename));
    cp.(processed := cp.processed.(successful := cp.processed.successful + [rec]))
  }

  function WithFailure(cp: Checkpoint, digest: Digest, filename: string, errMsg: string): Checkpoint
  {
    var rec := FailedFile(Base(filename), errMsg, Fingerprint(digest, filename));
    cp.(processed := cp.processed.(failed := cp.processed.failed + [rec]))
  }

  function WithSkip(cp: Checkpoint, digest: Digest, filename: string, reason: string): Checkpoint
  {
    var rec := SkippedFile(Base(filename), reason, Fingerprint(digest, filename));
    cp.(processed := cp.processed.(skipped := cp.processed.skipped + [rec]))
  }

  /** Each kind of record lands in its own list: one more entry there and
      the other two lists unchanged, so each `Add` raises exactly its own
      count in `GetStats`. */
  lemma EachAddCountsOnce(cp: Checkpoint, digest: Digest, filename: string, msg: string)
    ensures var p, q := cp.processed, WithSuccess(cp, digest, filename).processed;
      |q.successful| == |p.successful| + 1 && q.failed == p.failed && q.skipped == p.skipped
    ensures var p, q := cp.processed, WithFailure(cp, digest, filename, msg).processed;
      q.successful == p.successful && |q.failed| == |p.failed| + 1 && q.skipped == p.skipped
    ensures var p, q := cp.processed, WithSkip(cp, digest, filename, msg).processed;
      q.successful == p.successful && q.failed == p.failed && |q.skipped| == |p.skipped| + 1
  {
  }

  /** Holds the checkpoint of the current run, if any, for one store. */
  class Manager {
    const store: CheckpointStore
    const digest: Digest
    var checkpoint: Option<Checkpoint>

    /** `NewManager`: no checkpoint is active until `Load` or `Create`. */
    constructor (store: CheckpointStore, digest: Digest)
      ensures this.store == store && this.digest == digest
      ensures checkpoint == None
    {
      this.store := store;
      this.digest := digest;
      checkpoint := None;
    }

    /** Reads the file; only a decoded checkpoint replaces the active one. */
    method Load() returns (r: Result<Option<Checkpoint>, string>)
      modifies this
      ensures r == Decode(store.contents)
      ensures checkpoint == (if store.contents.Stored? then Some(store.contents.cp) else old(checkpoint))
    {
      r := Decode(store.contents);
      if r.Success? && r.value.Some? {
        checkpoint := r.value;
      }
    }

    /** Starts a fresh checkpoint for the run and saves it at once. */
    method Create(cfg: Config, totalFiles: int, now: int) returns (err: Option<string>)
      modifies this, store
      ensures err == None
      ensures checkpoint == Some(NewCheckpoint(cfg, totalFiles, now))
      ensures store.contents == Stored(NewCheckpoint(cfg, totalFiles, now))
      ensures store.writes == old(store.writes) + 1
    {
      checkpoint := Some(NewCheckpoint(cfg, totalFiles, now));
      err := Save(now);
    }

    method AddSuccess(filename: string) returns (err: Option<string>)
      modifies this
      ensures old(checkpoint).None? ==> err == Some(NoActiveCheckpoint) && checkpoint == None
      ensures old(checkpoint).Some? ==>
        err == None && checkpoint == Some(WithSuccess(old(checkpoint).value, digest, filename))
    {
      if checkpoint.None? {
        return Some(NoActiveCheckpoint);
      }
      checkpoint := Some(WithSuccess(checkpoint.value, digest, filename));
      err := None;
    }

    method AddFailed(filename: string, errMsg: string) returns (err: Option<string>)
      modifies this
      ensures old(checkpoint).None? ==> err == Some(NoActiveCheckpoint) && checkpoint == None
      ensures old(checkpoint).Some? ==>
        err == None && checkpoint == Some(WithFailure(old(checkpoint).value, digest, filename, errMsg))
    {
      if checkpoint.None? {
        return Some(NoActiveCheckpoint);
      }
      checkpoint := Some(WithFailure(checkpoint.value, digest, filename, errMsg));
      err := None;
    }

    method AddSkipped(filename: string, reason: string) returns (err: Option<string>)
      modifies this
      ensures old(checkpoint).None? ==> err == Some(NoActiveCheckpoint) && checkpoint == None
      ensures old(checkpoint).Some? ==>
        err == None && checkpoint == Some(WithSkip(old(checkpoint).value, digest, filename, reason))
    {
      if checkpoint.None? {
        return Some(NoActiveCheckpoint);
      }
      checkpoint := Some(WithSkip(checkpoint.value, digest, filename, reason));
      err := None;
    }

    /** Stamps the checkpoint and replaces the file's contents with it. */
    method Save(now: int) returns (err: Option<string>)
      modifies this, store
      ensures old(checkpoint).None? ==>
        && err == Some(NoActiveCheckpointToSave) && checkpoint == None
        && store.contents == old(store.contents) && store.writes == old(store.writes)
      ensures old(checkpoint).Some? ==>
        && err == None
        && checkpoint == Some(old(checkpoint).value.(lastCheckpoint := now))
        && store.contents == Stored(checkpoint.value)
        && store.writes == old(store.writes) + 1
    {
      if checkpoint.None? {
        return Some(NoActiveCheckpointToSave);
      }
      checkpoint := Some(checkpoint.value.(lastCheckpoint := now));
      store.contents := Stored(checkpoint.value);
      store.writes := store.writes + 1;
      err := None;
    }

    /** Whether some record matches `filename` by name or fingerprint. */
    method IsProcessed(filename: string) returns (b: bool)
      ensures b == (checkpoint.Some? && Recorded(checkpoint.value.processed, digest, filename))
    {
      if checkpoint.None? {
        return false;
      }
      var hash := Fingerprint(digest, filename);
      var base := Base(filename);
      var p := checkpoint.value.processed;
      for i := 0 to |p.successful|
        invariant forall k :: 0 <= k < i ==> !Matches(p.successful[k].name, p.successful[k].hash, digest, filename)
      {
        if p.successful[i].name == base || p.successful[i].hash == hash {
          return true;
        }
      }
      for i := 0 to |p.failed|
        invariant forall k :: 0 <= k < i ==> !Matches(p.failed[k].name, p.failed[k].hash, digest, filename)
      {
        if p.failed[i].name == base || p.failed[i].hash == hash {
          return true;
        }
      }
      for i := 0 to |p.skipped|
        invariant forall k :: 0 <= k < i ==> !Matches(p.skipped[k].name, p.skipped[k].hash, digest, filename)
      {
        if p.skipped[i].name == base || p.skipped[i].hash == hash {
          return true;
        }
      }
      return false;
    }

    /** Number of records over the three lists; 0 without a checkpoint. */
    function GetProcessedCount(): (n: nat)
      reads this
      ensures checkpoint.None? ==> n == 0
      ensures checkpoint.Some? ==> n == ProcessedCount(checkpoint.value.processed)
    {
      if checkpoint.None? then 0 else ProcessedCount(checkpoint.value.processed)
    }

    /** Lengths of the successful, failed and skipped lists. */
    function GetStats(): (stats: (nat, nat, nat))
      reads this
      ensures checkpoint.None? ==> stats == (0, 0, 0)
      ensures checkpoint.Some? ==>
        var p := checkpoint.value.processed;
        stats.0 == |p.successful| && stats.1 == |p.failed| && stats.2 == |p.skipped|
      ensures stats.0 + stats.1 + stats.2 == GetProcessedCount()
    {
      if checkpoint.None? then (0, 0, 0)
      else (|checkpoint.value.processed.successful|,
            |checkpoint.value.processed.failed|,
            |checkpoint.value.processed.skipped|)
    }

    /** Deletes the file and forgets the active checkpoint. */
    method Clear()
      modifies this, store
      ensures checkpoint == None && store.contents == Absent
      ensures store.writes == old(store.writes)
    {
      store.contents := Absent;
      checkpoint := None;
    }
  }

  /** `slicesEqual`: equal lengths and every element of `b` occurs in `a`. */
  predicate SameLanguages(a: seq<string>, b: seq<string>)
  {
    |a| == |b| && forall v :: v in b ==> v in a
  }

  /** The loop of `slicesEqual`, with its `seen` map. */
  method SlicesEqual(a: seq<string>, b: seq<string>) returns (eq: bool)
    ensures eq == SameLanguages(a, b)
  {
    if |a| != |b| {
      return false;
    }
    var seen: map<string, bool> := map[];
    for i := 0 to |a|
      invariant forall v :: v in seen <==> v in a[..i]
      invariant forall v :: v in seen ==> seen[v]
    {
      seen := seen[a[i] := true];
    }
    assert a[..|a|] == a;
    for i := 0 to |b|
      invariant forall k :: 0 <= k < i ==> b[k] in a
    {
      if !(b[i] in seen && seen[b[i]]) {
        return false;
      }
    }
    return true;
  }

  /** The stored run can be resumed by a run with configuration `cfg`. */
  predicate ResumeMatches(cfg: Config, cp: Checkpoint)
  {
    cp.mode == cfg.mode && cp.recursive == cfg.recursive
    && SameLanguages(cp.languages, RequestedLanguages(cfg))
  }

  /** What `CanResume` answers for a file's contents. */
  function ResumeCheck(cfg: Config, file: CheckpointFile): Result<bool, string>
  {
    match Decode(file)
    case Failure(e) => Failure(e)
    case Success(None) => Success(false)
    case Success(Some(cp)) => Success(ResumeMatches(cfg, cp))
  }

  /** `CanResume`: loads the file of the run's directory and compares the
      stored mode, recursive flag and languages with the requested ones. */
  method CanResume(cfg: Config, store: CheckpointStore) returns (r: Result<bool, string>)
    requires store.path == Paths.Join(cfg.dir, CheckpointFileName)
    ensures r == ResumeCheck(cfg, store.contents)
    ensures r == Success(true) ==>
      store.contents.Stored? && store.contents.cp.mode == cfg.mode
      && store.contents.cp.recursive == cfg.recursive
  {
    var loaded := Decode(store.contents);
    if loaded.Failure? {
      return Failure(loaded.error);
    }
    if loaded.value.None? {
      return Success(false);
    }
    var cp := loaded.value.value;
    var languages := RequestedLanguages(cfg);
    if cp.mode != cfg.mode || cp.recursive != cfg.recursive {
      return Success(false);
    }
    var same := SlicesEqual(cp.languages, languages);
    if !same {
      return Success(false);
    }
    return Success(true);
  }

  datatype ResumeStats = ResumeStats(processed: int, remaining: int, total: int)

  /** `GetResumeStats`: records so far, what is left of the declared total
      (not clamped at zero) and the total. */
  function GetResumeStats(file: CheckpointFile): (r: Result<ResumeStats, string>)
    ensures r.Success? && file.Stored? ==>
      r.value.processed + r.value.remaining == r.value.total == file.cp.totalFiles
    ensures file.Stored? ==> r.Success? && r.value.processed == ProcessedCount(file.cp.processed)
    ensures file.Absent? ==> r == Success(ResumeStats(0, 0, 0))
    ensures file.Unreadable? ==> r == Failure("failed to read checkpoint: " + file.readError)
    ensures file.Undecodable? ==> r == Failure("failed to parse checkpoint: " + file.parseError)
  {
    match Decode(file)
    case Failure(e) => Failure(e)
    case Success(None) => Success(ResumeStats(0, 0, 0))
    case Success(Some(cp)) =>
      var processedCount := ProcessedCount(cp.processed);
      Success(ResumeStats(processedCount, cp.totalFiles - processedCount, cp.totalFiles))
  }

  /** The files of `files` no record matches, in their original order. */
  function Unprocessed(p: ProcessedFiles, digest: Digest, files: seq<string>): seq<string>
  {
    if files == [] then []
    else
      var last := files[|files| - 1];
      Unprocessed(p, digest, files[..|files| - 1]) + (if Recorded(p, digest, last) then [] else [last])
  }

  /** `FilterProcessedFiles`: the list unchanged without a checkpoint, else
      the files `IsProcessed` rejects removed. */
  method FilterProcessedFiles(manager: Manager, files: seq<string>) returns (filtered: seq<string>)
    ensures manager.checkpoint.None? ==> filtered == files
    ensures manager.checkpoint.Some? ==>
      filtered == Unprocessed(manager.checkpoint.value.processed, manager.digest, files)
  {
    if manager.checkpoint.None? {
      return files;
    }
    filtered := [];
    for i := 0 to |files|
      invariant filtered == Unprocessed(manager.checkpoint.value.processed, manager.digest, files[..i])
    {
      assert files[..i + 1][..i] == files[..i];
      var done := manager.IsProcessed(files[i]);
      if !done {
        filtered := filtered + [files[i]];
      }
    }
    assert files[..|files|] == files;
  }

  // ---- Properties of the store ----

  /** Each append puts the file on record and adds exactly one record. */
  lemma AppendRecords(cp: Checkpoint, digest: Digest, filename: string, msg: string)
    ensures Recorded(WithSuccess(cp, digest, filename).processed, digest, filename)
    ensures Recorded(WithFailure(cp, digest, filename, msg).processed, digest, filename)
    ensures Recorded(WithSkip(cp, digest, filename, msg).processed, digest, filename)
    ensures ProcessedCount(WithSuccess(cp, digest, filename).processed) == ProcessedCount(cp.processed) + 1
    ensures ProcessedCount(WithFailure(cp, digest, filename, msg).processed) == ProcessedCount(cp.processed) + 1
    ensures ProcessedCount(WithSkip(cp, digest, filename, msg).processed) == ProcessedCount(cp.processed) + 1
  {
    var base, hash := Base(filename), Fingerprint(digest, filename);
    assert ProcessedFile(base, hash) in WithSuccess(cp, digest, filename).processed.successful;
    assert FailedFile(base, msg, hash) in WithFailure(cp, digest, filename, msg).processed.failed;
    assert SkippedFile(base, msg, hash) in WithSkip(cp, digest, filename, msg).processed.skipped;
  }

  /** Appending never takes a file off the record. */
  lemma AppendKeepsRecords(cp: Checkpoint, digest: Digest, filename: string, msg: string, other: string)
    requires Recorded(cp.processed, digest, other)
    ensures Recorded(WithSuccess(cp, digest, filename).processed, digest, other)
    ensures Recorded(WithFailure(cp, digest, filename, msg).processed, digest, other)
    ensures Recorded(WithSkip(cp, digest, filename, msg).processed, digest, other)
  {
  }

  /** A file is on record after an append exactly when it was before or the
      new record matches it. */
  lemma AppendRecordsExactly(cp: Checkpoint, digest: Digest, filename: string, msg: string, other: string)
    ensures var added := Matches(Base(filename), Fingerprint(digest, filename), digest, other);
      && (Recorded(WithSuccess(cp, digest, filename).processed, digest, other) <==> Recorded(cp.processed, digest, other) || added)
      && (Recorded(WithFailure(cp, digest, filename, msg).processed, digest, other) <==> Recorded(cp.processed, digest, other) || added)
      && (Recorded(WithSkip(cp, digest, filename, msg).processed, digest, other) <==> Recorded(cp.processed, digest, other) || added)
  {
    var base, hash := Base(filename), Fingerprint(digest, filename);
    assert ProcessedFile(base, hash) in WithSuccess(cp, digest, filename).processed.successful;
    assert FailedFile(base, msg, hash) in WithFailure(cp, digest, filename, msg).processed.failed;
    assert SkippedFile(base, msg, hash) in WithSkip(cp, digest, filename, msg).processed.skipped;
  }

  /** Two spellings of a bare file name that differ only in case share a
      fingerprint, while the stored name matches only the exact spelling. */
  lemma FingerprintIgnoresCase(digest: Digest, a: string, b: string)
    requires a != "" && b != "" && '/' !in a && '/' !in b
    requires ToLower(a) == ToLower(b) && a != b
    ensures Fingerprint(digest, a) == Fingerprint(digest, b)
    ensures Base(a) != Base(b)
  {
    BaseShape(a);
    BaseShape(b);
  }

  /** The filtered list keeps exactly the files nothing on record matches. */
  lemma {:induction false} UnprocessedMembers(p: ProcessedFiles, digest: Digest, files: seq<string>, f: string)
    ensures f in Unprocessed(p, digest, files) <==> f in files && !Recorded(p, digest, f)
    ensures |Unprocessed(p, digest, files)| <= |files|
  {
    if files != [] {
      var init := files[..|files| - 1];
      UnprocessedMembers(p, digest, init, f);
      assert files == init + [files[|files| - 1]];
    }
  }

  /** `slicesEqual` ignores the order of either argument. */
  lemma SameLanguagesUnderPermutation(a: seq<string>, a': seq<string>, b: seq<string>, b': seq<string>)
    requires multiset(a) == multiset(a') && multiset(b) == multiset(b')
    ensures SameLanguages(a, b) == SameLanguages(a', b')
  {
    assert |a| == |multiset(a)| == |a'|;
    assert |b| == |multiset(b)| == |b'|;
    forall v
      ensures (v in a <==> v in a') && (v in b <==> v in b')
    {
      assert v in a <==> v in multiset(a);
      assert v in a' <==> v in multiset(a');
      assert v in b <==> v in multiset(b);
      assert v in b' <==> v in multiset(b');
    }
  }

  /** `slicesEqual` is neither multiset nor set equality, and not symmetric:
      stored ["eng", "ita"] accepts a request for ["eng", "eng"], but not the
      other way round. */
  lemma SameLanguagesIsNotSetEquality(a: seq<string>, b: seq<string>)
    requires a == ["eng", "ita"] && b == ["eng", "eng"]
    ensures SameLanguages(a, b)
    ensures !SameLanguages(b, a)
    ensures multiset(a) != multiset(b)
  {
    assert "ita" in a && "ita" !in b;
    assert a[1] !in multiset(b);
  }

  /** Order does not matter, membership does: stored {eng, ita} resumes a
      request for [ita, eng] and not one for [eng]. */
  lemma LanguageMatchExamples(stored: seq<string>)
    requires stored == ["eng", "ita"]
    ensures SameLanguages(stored, ["ita", "eng"])
    ensures !SameLanguages(stored, ["eng"])
  {
  }

  /** The remaining count is not clamped: more records than the declared total
      give a negative remainder. */
  lemma RemainingMayBeNegative(cp: Checkpoint)
    requires cp.totalFiles < ProcessedCount(cp.processed)
    ensures GetResumeStats(Stored(cp)).Success?
    ensures GetResumeStats(Stored(cp)).value.remaining < 0
  {
  }
}
