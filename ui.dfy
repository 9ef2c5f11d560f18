/** The processing screen's state (`ProcessModel`): the per-completion
    bookkeeping run under the model's lock, the run over the file list, and
    the message handler. Worker scheduling is reduced to the order in which
    completions are serialised. */
module Ui {
  import opened Wrappers
  import opened Paths
  import opened Settings
  import opened Checkpoint
  import Text
  import Rendering
  import Engine
  import Merge

  /** The reason recorded for a skipped file. */
  const NoSubtitlesReason := "no subtitles"

  /** How a completion is classified: a nil error, the "skipped" error, or any other. */
  datatype Outcome = Succeeded | Skipped | Failed(error: string)

  function Classify(err: Option<string>): (o: Outcome)
    ensures o.Succeeded? <==> err.None?
    ensures o.Skipped? <==> err == Some(Engine.SkippedError)
    ensures o.Failed? ==> err == Some(o.error)
  {
    match err
    case None => Succeeded
    case Some(e) => if e == Engine.SkippedError then Skipped else Failed(e)
  }

  /** The log line of one completion. */
  function LogLine(file: string, err: Option<string>): string
  {
    match Classify(err)
    case Succeeded => Rendering.SuccessPrefix + Base(file)
    case Skipped => Rendering.SkippedPrefix + Base(file)
    case Failed(e) => Rendering.FailedPrefix + Base(file) + " - " + e
  }

  /** The prefix the log screen recognises a completion's line by. */
  function OutcomePrefix(o: Outcome): seq<Rendering.byte>
  {
    match o
    case Succeeded => Rendering.SuccessPrefixBytes
    case Skipped => Rendering.SkippedPrefixBytes
    case Failed(_) => Rendering.FailedPrefixBytes
  }

  /** Every log line starts with the emitted prefix of its own outcome, so
      the intended rendering (`Rendering.RenderLine`) cuts it as that
      outcome's line. (As written, the renderer matches no line at all.) */
  lemma LogLineIsPrefixed(file: string, err: Option<string>)
    ensures Rendering.MatchedPrefix(Rendering.Utf8(LogLine(file, err))) == OutcomePrefix(Classify(err))
  {
    Rendering.TagEncodings();
    match Classify(err)
    case Succeeded =>
      Rendering.EncodedPrefixIsMatched(Rendering.SuccessPrefix, Base(file), Rendering.SuccessPrefixBytes);
    case Skipped =>
      Rendering.EncodedPrefixIsMatched(Rendering.SkippedPrefix, Base(file), Rendering.SkippedPrefixBytes);
    case Failed(e) =>
      Text.AppendAssoc(Rendering.FailedPrefix + Base(file), " - ", e);
      Text.AppendAssoc(Rendering.FailedPrefix, Base(file), " - " + e);
      Text.AppendAssoc(Base(file), " - ", e);
      Rendering.EncodedPrefixIsMatched(Rendering.FailedPrefix, Base(file) + " - " + e, Rendering.FailedPrefixBytes);
  }

  /** The checkpoint after recording one completion in the list its outcome
      selects. */
  function RecordOutcome(cp: Checkpoint, digest: Digest, file: string, err: Option<string>): (r: Checkpoint)
    ensures ProcessedCount(r.processed) == ProcessedCount(cp.processed) + 1
    ensures r.(processed := cp.processed) == cp
  {
    match Classify(err)
    case Succeeded => WithSuccess(cp, digest, file)
    case Skipped => WithSkip(cp, digest, file, NoSubtitlesReason)
    case Failed(e) => WithFailure(cp, digest, file, e)
  }

  /** Recording an outcome puts the file on record and keeps every earlier
      record. */
  lemma RecordOutcomeRecords(cp: Checkpoint, digest: Digest, file: string, err: Option<string>)
    ensures Recorded(RecordOutcome(cp, digest, file, err).processed, digest, file)
    ensures forall f :: Recorded(cp.processed, digest, f) ==> Recorded(RecordOutcome(cp, digest, file, err).processed, digest, f)
  {
    var reason := match Classify(err) case Failed(e) => e case _ => NoSubtitlesReason;
    AppendRecords(cp, digest, file, reason);
    forall f | Recorded(cp.processed, digest, f)
      ensures Recorded(RecordOutcome(cp, digest, file, err).processed, digest, f)
    {
      AppendKeepsRecords(cp, digest, file, reason, f);
    }
  }

  /** The folder a dry-run summary lists for an extracted file. */
  function ExtractFolder(cfg: Config, file: string): (r: string)
    ensures r == Engine.SubsDirFor(file, PrimaryLanguage(cfg))
  {
    Paths.Join(Paths.Join(Dir(file), "subs"), PrimaryLanguage(cfg))
  }

  /** The output root a merge summary shows: `outDir`, else a sibling of the
      batch directory named after it and the first language. */
  function SummaryOutputRoot(cfg: Config): (r: string)
    ensures PrimaryLanguage(cfg) == cfg.lang ==> r == Merge.MergeOutputRoot(cfg)
  {
    if cfg.outDir == "" then Paths.Join(Dir(cfg.dir), Base(cfg.dir) + "_" + PrimaryLanguage(cfg))
    else cfg.outDir
  }

  /** Positions `i` and `j` of `s` hold different values. */
  predicate DifferAt(s: seq<string>, i: nat, j: nat)
    requires i < |s| && j < |s|
  {
    s[i] != s[j]
  }

  /** No value occurs twice: distinct positions hold distinct values. */
  predicate NoDuplicates(s: seq<string>)
  {
    forall i: nat, j: nat :: i < j < |s| ==> DifferAt(s, i, j)
  }

  /** Adding a folder only when it is not listed yet keeps the list free of
      duplicates. */
  lemma AddFolderKeepsDistinct(paths: seq<string>, folder: string)
    requires NoDuplicates(paths)
    ensures NoDuplicates(if folder !in paths then paths + [folder] else paths)
  {
    if folder !in paths {
      var s := paths + [folder];
      forall i: nat, j: nat | i < j < |s|
        ensures DifferAt(s, i, j)
      {
        if j == |paths| {
          assert s[i] == paths[i];
        } else {
          assert DifferAt(paths, i, j);
        }
      }
    }
  }

  /** The folder one completion adds to the dry-run list: a success in
      extract mode names its subtitle folder, anything else names none. */
  function Contribution(cfg: Config, file: string, err: Option<string>): Option<string>
  {
    if err.None? && cfg.mode == "extract" then Some(ExtractFolder(cfg, file)) else None
  }

  /** The contributions of the completions `done`, in completion order. */
  function Contributions(cfg: Config, done: seq<string>, outcomeOf: string -> Option<string>): seq<Option<string>>
  {
    seq(|done|, k requires 0 <= k < |done| => Contribution(cfg, done[k], outcomeOf(done[k])))
  }

  /** `paths` with the folder `c` names appended, unless it names none or
      that folder is listed already. */
  function AddOnce(paths: seq<string>, c: Option<string>): seq<string>
  {
    if c.Some? && c.value !in paths then paths + [c.value] else paths
  }

  /** The dry-run folder list after one completion. */
  function TrackFolder(cfg: Config, paths: seq<string>, file: string, err: Option<string>): seq<string>
  {
    AddOnce(paths, Contribution(cfg, file, err))
  }

  /** `paths` after the first `n` contributions of `cs`. */
  function Gather(paths: seq<string>, cs: seq<Option<string>>, n: nat): seq<string>
    requires n <= |cs|
  {
    if n == 0 then paths else AddOnce(Gather(paths, cs, n - 1), cs[n - 1])
  }

  /** The dry-run folder list after the first `n` completions of `done`,
      in completion order, starting from `paths`. */
  function SummaryFolders(cfg: Config, paths: seq<string>, done: seq<string>, n: nat,
                          outcomeOf: string -> Option<string>): seq<string>
    requires n <= |done|
  {
    Gather(paths, Contributions(cfg, done, outcomeOf), n)
  }

  /** One more completion updates the dry-run summary by `TrackFolder` and
      `TrackRoot`. */
  lemma SummaryStep(cfg: Config, paths: seq<string>, root: string, done: seq<string>, n: nat,
                    outcomeOf: string -> Option<string>)
    requires n < |done|
    ensures SummaryFolders(cfg, paths, done, n + 1, outcomeOf)
            == TrackFolder(cfg, SummaryFolders(cfg, paths, done, n, outcomeOf), done[n], outcomeOf(done[n]))
    ensures SummaryRoot(cfg, root, done, n + 1, outcomeOf)
            == TrackRoot(cfg, SummaryRoot(cfg, root, done, n, outcomeOf), outcomeOf(done[n]))
  {
    assert Contributions(cfg, done, outcomeOf)[n] == Contribution(cfg, done[n], outcomeOf(done[n]));
  }

  /** A folder is gathered exactly when it was there at the start or one of
      the first `n` contributions names it. */
  lemma {:induction false} GatherMembers(paths: seq<string>, cs: seq<Option<string>>, n: nat, folder: string)
    requires n <= |cs|
    ensures folder in Gather(paths, cs, n) <==> folder in paths || exists k :: 0 <= k < n && cs[k] == Some(folder)
  {
    if n > 0 {
      GatherMembers(paths, cs, n - 1, folder);
      if exists k :: 0 <= k < n && cs[k] == Some(folder) {
        var k :| 0 <= k < n && cs[k] == Some(folder);
        if k < n - 1 {
          assert folder in Gather(paths, cs, n - 1);
        }
      }
    }
  }

  /** The contains-check keeps the gathered list free of repeats. */
  lemma {:induction false} GatherDistinct(paths: seq<string>, cs: seq<Option<string>>, n: nat)
    requires n <= |cs| && NoDuplicates(paths)
    ensures NoDuplicates(Gather(paths, cs, n))
  {
    if n > 0 {
      GatherDistinct(paths, cs, n - 1);
      if cs[n - 1].Some? {
        AddFolderKeepsDistinct(Gather(paths, cs, n - 1), cs[n - 1].value);
      }
    }
  }

  /** Some completion of `done` succeeded in extract mode with its
      subtitles in `folder`. */
  predicate ExtractedInto(cfg: Config, done: seq<string>, outcomeOf: string -> Option<string>, folder: string)
  {
    cfg.mode == "extract" && exists k :: 0 <= k < |done| && outcomeOf(done[k]).None? && ExtractFolder(cfg, done[k]) == folder
  }

  /** A contribution names `folder` exactly when a successful extraction
      wrote into it. */
  lemma ContributionsNameExtracted(cfg: Config, done: seq<string>, outcomeOf: string -> Option<string>, folder: string)
    ensures (exists k :: 0 <= k < |done| && Contributions(cfg, done, outcomeOf)[k] == Some(folder))
            <==> ExtractedInto(cfg, done, outcomeOf, folder)
  {
    var cs := Contributions(cfg, done, outcomeOf);
    if ExtractedInto(cfg, done, outcomeOf, folder) {
      var k :| 0 <= k < |done| && outcomeOf(done[k]).None? && ExtractFolder(cfg, done[k]) == folder;
      assert cs[k] == Some(folder);
    }
  }

  /** A folder is listed exactly when it was listed before or some
      successful extraction of the run wrote into it. */
  lemma SummaryFoldersMembers(cfg: Config, paths: seq<string>, done: seq<string>,
                              outcomeOf: string -> Option<string>, folder: string)
    ensures folder in SummaryFolders(cfg, paths, done, |done|, outcomeOf)
            <==> folder in paths || ExtractedInto(cfg, done, outcomeOf, folder)
  {
    GatherMembers(paths, Contributions(cfg, done, outcomeOf), |done|, folder);
    ContributionsNameExtracted(cfg, done, outcomeOf, folder);
  }

  /** The dry-run output root after one completion: a success in merge mode
      sets it. */
  function TrackRoot(cfg: Config, root: string, err: Option<string>): string
  {
    if err.None? && cfg.mode == "merge" then SummaryOutputRoot(cfg) else root
  }

  /** The dry-run output root after the first `n` completions of `done`,
      starting from `root`. */
  function SummaryRoot(cfg: Config, root: string, done: seq<string>, n: nat, outcomeOf: string -> Option<string>): string
    requires n <= |done|
  {
    if n == 0 then root
    else TrackRoot(cfg, SummaryRoot(cfg, root, done, n - 1, outcomeOf), outcomeOf(done[n - 1]))
  }

  /** Some completion of `done` succeeded. */
  predicate SomeSuccess(done: seq<string>, outcomeOf: string -> Option<string>)
  {
    exists f :: f in done && outcomeOf(f).None?
  }

  /** A success among the first `n + 1` completions is one among the first
      `n` or completion `n`. */
  lemma SomeSuccessSplit(done: seq<string>, n: nat, outcomeOf: string -> Option<string>)
    requires n < |done|
    ensures SomeSuccess(done[..n + 1], outcomeOf) <==> SomeSuccess(done[..n], outcomeOf) || outcomeOf(done[n]).None?
  {
    assert done[..n + 1] == done[..n] + [done[n]];
  }

  /** The root shown is the merge output root once any merge succeeded, and
      the starting value otherwise. */
  lemma {:induction false} SummaryRootShown(cfg: Config, root: string, done: seq<string>, n: nat,
                                            outcomeOf: string -> Option<string>)
    requires n <= |done|
    ensures SummaryRoot(cfg, root, done, n, outcomeOf)
            == if cfg.mode == "merge" && SomeSuccess(done[..n], outcomeOf) then SummaryOutputRoot(cfg) else root
  {
    if n > 0 {
      SummaryRootShown(cfg, root, done, n - 1, outcomeOf);
      SomeSuccessSplit(done, n - 1, outcomeOf);
    }
  }

  /** Counts of the three outcomes. */
  datatype Counts = Counts(success: nat, skipped: nat, errors: nat)

  /** One more completion of the given outcome. */
  function Add(c: Counts, o: Outcome): (r: Counts)
    ensures r.success + r.skipped + r.errors == c.success + c.skipped + c.errors + 1
  {
    match o
    case Succeeded => c.(success := c.success + 1)
    case Skipped => c.(skipped := c.skipped + 1)
    case Failed(_) => c.(errors := c.errors + 1)
  }

  /** The counts over a sequence of completions. */
  function Tally(done: seq<string>, outcomeOf: string -> Option<string>): (c: Counts)
    ensures c.success + c.skipped + c.errors == |done|
  {
    if done == [] then Counts(0, 0, 0)
    else
      Add(Tally(done[..|done| - 1], outcomeOf), Classify(outcomeOf(done[|done| - 1])))
  }

  /** The log lines of a sequence of completions: line i is the i-th
      completion's. */
  function LogLines(done: seq<string>, outcomeOf: string -> Option<string>): (r: seq<string>)
    ensures |r| == |done|
  {
    seq(|done|, i requires 0 <= i < |done| => LogLine(done[i], outcomeOf(done[i])))
  }

  /** The intended rendering recognises line i of the log by the outcome of
      the i-th completion. */
  lemma LogLinesArePrefixed(done: seq<string>, outcomeOf: string -> Option<string>)
    ensures forall i :: 0 <= i < |done| ==>
      Rendering.MatchedPrefix(Rendering.Utf8(LogLines(done, outcomeOf)[i])) == OutcomePrefix(Classify(outcomeOf(done[i])))
  {
    forall i | 0 <= i < |done|
      ensures Rendering.MatchedPrefix(Rendering.Utf8(LogLines(done, outcomeOf)[i])) == OutcomePrefix(Classify(outcomeOf(done[i])))
    {
      LogLineIsPrefixed(done[i], outcomeOf(done[i]));
    }
  }

  /** The checkpoint after recording a sequence of completions in order. */
  function Replay(cp: Checkpoint, digest: Digest, done: seq<string>, outcomeOf: string -> Option<string>): Checkpoint
  {
    if done == [] then cp
    else
      var last := done[|done| - 1];
      RecordOutcome(Replay(cp, digest, done[..|done| - 1], outcomeOf), digest, last, outcomeOf(last))
  }

  /** Recording outcomes leaves the save time as it was: stamping the
      checkpoint before or after a run gives the same checkpoint. */
  lemma {:induction false} ReplayStamp(cp: Checkpoint, digest: Digest, done: seq<string>,
                                       outcomeOf: string -> Option<string>, t: int)
    ensures Replay(cp.(lastCheckpoint := t), digest, done, outcomeOf) == Replay(cp, digest, done, outcomeOf).(lastCheckpoint := t)
  {
    if done != [] {
      ReplayStamp(cp, digest, done[..|done| - 1], outcomeOf, t);
    }
  }

  /** The time of the last save of a run created at `created` once `saved`
      completions are on disk: the creation, or the last saved completion. */
  function LastSaveTime(created: int, clock: nat -> int, saved: nat): int
  {
    if saved == 0 then created else clock(saved - 1)
  }

  /** Whether a run saves its checkpoint, every `interval` completions. */
  datatype Saving = Periodic(interval: int) | Off

  function SavingOf(checkpointInterval: int): (s: Saving)
    ensures s.Periodic? <==> checkpointInterval > 0
    ensures s.Periodic? ==> s.interval == checkpointInterval
  {
    if checkpointInterval > 0 then Periodic(checkpointInterval) else Off
  }

  /** `contains`: a linear search of the slice. */
  method Contains(slice: seq<string>, item: string) returns (found: bool)
    ensures found <==> item in slice
  {
    for i := 0 to |slice|
      invariant item !in slice[..i]
    {
      if slice[i] == item {
        return true;
      }
    }
    assert slice[..|slice|] == slice;
    return false;
  }

  /** Messages the screen reacts to. */
  datatype Msg =
    | KeyMsg(key: string)
    | WindowSizeMsg(width: int, height: int)
    | SpinnerTickMsg
    | ProcessingDoneMsg
    | AutoCloseMsg

  /** Commands handed back to the event loop; times in milliseconds. */
  datatype Cmd = NoCmd | Quit | SpinnerStep | AutoCloseAfter(delay: int)

  /** The auto-close tick fires 5 s after the run ends. */
  const AutoCloseDelay := 5000
  /** The countdown shown on screen runs to 10 s after the run ends. */
  const AutoCloseShown := 10000

  class ProcessModel {
    const cfg: Config
    const files: seq<string>
    const checkpointMgr: Manager

    var totalFiles: int
    var processedIdx: int
    var successCount: int
    var skippedCount: int
    var errorCount: int
    var logs: seq<string>
    var width: int
    var height: int
    var viewportWidth: int
    var viewportHeight: int
    var extractedPaths: seq<string>
    var outputDir: string
    var finished: bool
    var quitting: bool
    var autoCloseTime: int   // 0 stands for the zero time
    var checkpointCounter: int

    /** The bookkeeping invariant: the counters agree (`Counted`) and no
        folder is listed twice in the dry-run summary. */
    ghost predicate Valid()
      reads this
    {
      Counted() && NoDuplicates(extractedPaths)
    }

    /** One counter per completion, one log line per completion, and the
        flush counter below the interval. */
    ghost predicate Counted()
      reads this
    {
      && successCount >= 0 && skippedCount >= 0 && errorCount >= 0
      && successCount + skippedCount + errorCount == processedIdx == |logs|
      && (cfg.checkpointInterval > 0 ==> 0 <= checkpointCounter < cfg.checkpointInterval)
      && (cfg.checkpointInterval <= 0 ==> checkpointCounter == 0)
    }

    /** `NewProcessModel`: an 80x15 viewport in an 80x24 window, every counter
        zero, no logs, and a manager with no active checkpoint. */
    constructor (cfg: Config, files: seq<string>, store: CheckpointStore, digest: Digest)
      requires store.path == Paths.Join(cfg.dir, CheckpointFileName)
      ensures Valid()
      ensures this.cfg == cfg && this.files == files && totalFiles == |files|
      ensures processedIdx == 0 && successCount == 0 && skippedCount == 0 && errorCount == 0
      ensures logs == []
      ensures width == 80 && height == 24 && viewportWidth == 80 && viewportHeight == 15
      ensures extractedPaths == [] && outputDir == ""
      ensures !finished && !quitting && autoCloseTime == 0 && checkpointCounter == 0
      ensures fresh(checkpointMgr) && checkpointMgr.store == store && checkpointMgr.digest == digest
      ensures checkpointMgr.checkpoint == None
    {
      this.cfg := cfg;
      this.files := files;
      checkpointMgr := new Manager(store, digest);
      totalFiles := |files|;
      processedIdx := 0;
      successCount := 0;
      skippedCount := 0;
      errorCount := 0;
      logs := [];
      width := 80;
      height := 24;
      viewportWidth := 80;
      viewportHeight := 15;
      extractedPaths := [];
      outputDir := "";
      finished := false;
      quitting := false;
      autoCloseTime := 0;
      checkpointCounter := 0;
    }

    /** The counter half of `processFile`: exactly one counter grows. */
    method CountOutcome(err: Option<string>)
      requires successCount >= 0 && skippedCount >= 0 && errorCount >= 0
      modifies this`successCount, this`skippedCount, this`errorCount
      ensures successCount >= 0 && skippedCount >= 0 && errorCount >= 0
      ensures Counts(successCount, skippedCount, errorCount)
              == Add(Counts(old(successCount), old(skippedCount), old(errorCount)), Classify(err))
    {
      if err.Some? {
        if err.value == Engine.SkippedError {
          skippedCount := skippedCount + 1;
        } else {
          errorCount := errorCount + 1;
        }
      } else {
        successCount := successCount + 1;
      }
    }

    /** The checkpoint half of `processFile`: the outcome goes to the list it
        selects (a skip with the reason "no subtitles"). */
    method RecordCheckpoint(file: string, err: Option<string>)
      modifies checkpointMgr
      ensures old(checkpointMgr.checkpoint).None? ==> checkpointMgr.checkpoint == None
      ensures old(checkpointMgr.checkpoint).Some? ==>
        checkpointMgr.checkpoint == Some(RecordOutcome(old(checkpointMgr.checkpoint).value, checkpointMgr.digest, file, err))
    {
      var ignored: Option<string>;
      if err.Some? {
        if err.value == Engine.SkippedError {
          ignored := checkpointMgr.AddSkipped(file, NoSubtitlesReason);
        } else {
          ignored := checkpointMgr.AddFailed(file, err.value);
        }
      } else {
        ignored := checkpointMgr.AddSuccess(file);
      }
    }

    /** The periodic flush: count the completion, and on reaching the
        interval save the checkpoint and start counting again. */
    method AdvanceFlushCounter(now: int)
      requires cfg.checkpointInterval > 0 && 0 <= checkpointCounter < cfg.checkpointInterval
      modifies this`checkpointCounter, checkpointMgr, checkpointMgr.store
      ensures 0 <= checkpointCounter < cfg.checkpointInterval
      ensures old(checkpointCounter) + 1 < cfg.checkpointInterval ==>
        && checkpointCounter == old(checkpointCounter) + 1
        && checkpointMgr.checkpoint == old(checkpointMgr.checkpoint)
        && checkpointMgr.store.contents == old(checkpointMgr.store.contents)
        && checkpointMgr.store.writes == old(checkpointMgr.store.writes)
      ensures old(checkpointCounter) + 1 == cfg.checkpointInterval ==>
        && checkpointCounter == 0
        && (old(checkpointMgr.checkpoint).None? ==>
              checkpointMgr.checkpoint == None
              && checkpointMgr.store.contents == old(checkpointMgr.store.contents)
              && checkpointMgr.store.writes == old(checkpointMgr.store.writes))
        && (old(checkpointMgr.checkpoint).Some? ==>
              && checkpointMgr.checkpoint == Some(old(checkpointMgr.checkpoint).value.(lastCheckpoint := now))
              && checkpointMgr.store.contents == Stored(checkpointMgr.checkpoint.value)
              && checkpointMgr.store.writes == old(checkpointMgr.store.writes) + 1)
    {
      checkpointCounter := checkpointCounter + 1;
      if checkpointCounter >= cfg.checkpointInterval {
        var ignored := checkpointMgr.Save(now);
        checkpointCounter := 0;
      }
    }

    /** The dry-run summary half of a success: the extraction folder is
        listed once, a merge sets the output root. */
    method TrackOutput(file: string)
      modifies this`extractedPaths, this`outputDir
      ensures NoDuplicates(old(extractedPaths)) ==> NoDuplicates(extractedPaths)
      ensures extractedPaths ==
        if cfg.mode == "extract" && ExtractFolder(cfg, file) !in old(extractedPaths)
        then old(extractedPaths) + [ExtractFolder(cfg, file)] else old(extractedPaths)
      ensures outputDir == if cfg.mode == "merge" then SummaryOutputRoot(cfg) else old(outputDir)
    {
      if cfg.mode == "extract" {
        var subsDir := ExtractFolder(cfg, file);
        var known := Contains(extractedPaths, subsDir);
        if NoDuplicates(extractedPaths) {
          AddFolderKeepsDistinct(extractedPaths, subsDir);
        }
        if !known {
          extractedPaths := extractedPaths + [subsDir];
        }
      } else if cfg.mode == "merge" {
        outputDir := SummaryOutputRoot(cfg);
      }
    }

    /** The log half of `processFile`: one more line, one more completion. */
    method AppendLog(file: string, err: Option<string>)
      modifies this`logs, this`processedIdx
      ensures logs == old(logs) + [LogLine(file, err)]
      ensures processedIdx == old(processedIdx) + 1
    {
      logs := logs + [LogLine(file, err)];
      processedIdx := processedIdx + 1;
    }

    /** `processFile` after the operation returned `err`: classify, record,
        log, count, flush every `checkpointInterval` completions. */
    method ProcessFile(file: string, err: Option<string>, now: int)
      requires Counted()
      modifies this`successCount, this`skippedCount, this`errorCount, this`logs, this`processedIdx
      modifies this`extractedPaths, this`outputDir, this`checkpointCounter
      modifies checkpointMgr, checkpointMgr.store
      ensures Counted()
      ensures NoDuplicates(old(extractedPaths)) ==> NoDuplicates(extractedPaths)
      ensures processedIdx == old(processedIdx) + 1
      ensures logs == old(logs) + [LogLine(file, err)]
      ensures Counts(successCount, skippedCount, errorCount)
              == Add(Counts(old(successCount), old(skippedCount), old(errorCount)), Classify(err))
      // the checkpoint
      ensures cfg.checkpointInterval <= 0 ==>
        && checkpointCounter == old(checkpointCounter)
        && checkpointMgr.checkpoint == old(checkpointMgr.checkpoint)
        && checkpointMgr.store.contents == old(checkpointMgr.store.contents)
        && checkpointMgr.store.writes == old(checkpointMgr.store.writes)
      ensures cfg.checkpointInterval > 0 && old(checkpointMgr.checkpoint).Some? ==>
        var rec := RecordOutcome(old(checkpointMgr.checkpoint).value, checkpointMgr.digest, file, err);
        if old(checkpointCounter) + 1 < cfg.checkpointInterval then
          && checkpointCounter == old(checkpointCounter) + 1
          && checkpointMgr.checkpoint == Some(rec)
          && checkpointMgr.store.contents == old(checkpointMgr.store.contents)
          && checkpointMgr.store.writes == old(checkpointMgr.store.writes)
        else
          && checkpointCounter == 0
          && checkpointMgr.checkpoint == Some(rec.(lastCheckpoint := now))
          && checkpointMgr.store.contents == Stored(rec.(lastCheckpoint := now))
          && checkpointMgr.store.writes == old(checkpointMgr.store.writes) + 1
      // with checkpoints on but none active, only the counter moves
      ensures cfg.checkpointInterval > 0 && old(checkpointMgr.checkpoint).None? ==>
        && checkpointCounter == (if old(checkpointCounter) + 1 < cfg.checkpointInterval then old(checkpointCounter) + 1 else 0)
        && checkpointMgr.checkpoint == None
        && checkpointMgr.store.contents == old(checkpointMgr.store.contents)
        && checkpointMgr.store.writes == old(checkpointMgr.store.writes)
      // the dry-run summary
      ensures extractedPaths == TrackFolder(cfg, old(extractedPaths), file, err)
      ensures outputDir == TrackRoot(cfg, old(outputDir), err)
    {
      RecordStep(file, err);
      FinishStep(file, err, now);
    }

    /** The first half of `processFile`: the counters and, with checkpoints
        on, the outcome in the active checkpoint. */
    method RecordStep(file: string, err: Option<string>)
      requires successCount >= 0 && skippedCount >= 0 && errorCount >= 0
      modifies this`successCount, this`skippedCount, this`errorCount, checkpointMgr
      ensures successCount >= 0 && skippedCount >= 0 && errorCount >= 0
      ensures Counts(successCount, skippedCount, errorCount)
              == Add(Counts(old(successCount), old(skippedCount), old(errorCount)), Classify(err))
      ensures cfg.checkpointInterval <= 0 || old(checkpointMgr.checkpoint).None? ==>
        checkpointMgr.checkpoint == old(checkpointMgr.checkpoint)
      ensures cfg.checkpointInterval > 0 && old(checkpointMgr.checkpoint).Some? ==>
        checkpointMgr.checkpoint == Some(RecordOutcome(old(checkpointMgr.checkpoint).value, checkpointMgr.digest, file, err))
    {
      CountOutcome(err);
      if cfg.checkpointInterval > 0 {
        RecordCheckpoint(file, err);
      }
    }

    /** The second half of `processFile`: the dry-run summary, the log line,
        and the periodic flush. */
    method FinishStep(file: string, err: Option<string>, now: int)
      requires cfg.checkpointInterval > 0 ==> 0 <= checkpointCounter < cfg.checkpointInterval
      modifies this`logs, this`processedIdx, this`extractedPaths, this`outputDir, this`checkpointCounter
      modifies checkpointMgr, checkpointMgr.store
      ensures cfg.checkpointInterval > 0 ==> 0 <= checkpointCounter < cfg.checkpointInterval
      ensures NoDuplicates(old(extractedPaths)) ==> NoDuplicates(extractedPaths)
      ensures processedIdx == old(processedIdx) + 1
      ensures logs == old(logs) + [LogLine(file, err)]
      ensures cfg.checkpointInterval <= 0 ==>
        && checkpointCounter == old(checkpointCounter)
        && checkpointMgr.checkpoint == old(checkpointMgr.checkpoint)
        && checkpointMgr.store.contents == old(checkpointMgr.store.contents)
        && checkpointMgr.store.writes == old(checkpointMgr.store.writes)
      ensures cfg.checkpointInterval > 0 && old(checkpointMgr.checkpoint).Some? ==>
        if old(checkpointCounter) + 1 < cfg.checkpointInterval then
          && checkpointCounter == old(checkpointCounter) + 1
          && checkpointMgr.checkpoint == old(checkpointMgr.checkpoint)
          && checkpointMgr.store.contents == old(checkpointMgr.store.contents)
          && checkpointMgr.store.writes == old(checkpointMgr.store.writes)
        else
          && checkpointCounter == 0
          && checkpointMgr.checkpoint == Some(old(checkpointMgr.checkpoint).value.(lastCheckpoint := now))
          && checkpointMgr.store.contents == Stored(old(checkpointMgr.checkpoint).value.(lastCheckpoint := now))
          && checkpointMgr.store.writes == old(checkpointMgr.store.writes) + 1
      ensures cfg.checkpointInterval > 0 && old(checkpointMgr.checkpoint).None? ==>
        && checkpointCounter == (if old(checkpointCounter) + 1 < cfg.checkpointInterval then old(checkpointCounter) + 1 else 0)
        && checkpointMgr.checkpoint == None
        && checkpointMgr.store.contents == old(checkpointMgr.store.contents)
        && checkpointMgr.store.writes == old(checkpointMgr.store.writes)
      ensures extractedPaths == TrackFolder(cfg, old(extractedPaths), file, err)
      ensures outputDir == TrackRoot(cfg, old(outputDir), err)
    {
      if err.None? {
        TrackOutput(file);
      }

      AppendLog(file, err);

      if cfg.checkpointInterval > 0 {
        AdvanceFlushCounter(now);
      }
    }

    /** What holds once the completions `done` are processed, in a run that
        started from checkpoint `start` and has flushed `flushes` times,
        saving the completions `saved`, the last time at `lastSave`. */
    ghost predicate RunInvariant(done: seq<string>, outcomeOf: string -> Option<string>,
                                 start: Checkpoint, writes0: nat, flushes: nat, saved: seq<string>, lastSave: int,
                                 cp0: Option<Checkpoint>, contents0: CheckpointFile)
      reads this, checkpointMgr, checkpointMgr.store
    {
      RunCounted(done, outcomeOf) && RunSaved(done, outcomeOf, start, writes0, flushes, saved, lastSave, cp0, contents0)
    }

    /** The checkpoint and its store after the completions `done`. */
    ghost predicate RunSaved(done: seq<string>, outcomeOf: string -> Option<string>,
                             start: Checkpoint, writes0: nat, flushes: nat, saved: seq<string>, lastSave: int,
                             cp0: Option<Checkpoint>, contents0: CheckpointFile)
      reads this, checkpointMgr, checkpointMgr.store
    {
      match SavingOf(cfg.checkpointInterval)
      case Periodic(interval) =>
        && checkpointMgr.checkpoint == Some(Replay(start.(lastCheckpoint := lastSave), checkpointMgr.digest, done, outcomeOf))
        && |done| == |saved| + checkpointCounter
        && |saved| == flushes * interval
        && checkpointMgr.store.contents == Stored(Replay(start.(lastCheckpoint := lastSave), checkpointMgr.digest, saved, outcomeOf))
        && checkpointMgr.store.writes == writes0 + flushes
      case Off =>
        && checkpointMgr.checkpoint == cp0
        && checkpointMgr.store.contents == contents0
    }

    /** What holds after the first `i` completions of `completion` in a run
        created at `created`: `RunInvariant`, the saved completions are a
        prefix stamped by the clock, and the dry-run summary grew from
        `paths0` and `root0`. */
    ghost predicate Progress(completion: seq<string>, i: nat, outcomeOf: string -> Option<string>,
                             created: int, clock: nat -> int, start: Checkpoint, writes0: nat,
                             flushes: nat, saved: seq<string>, lastSave: int,
                             cp0: Option<Checkpoint>, contents0: CheckpointFile,
                             paths0: seq<string>, root0: string)
      requires i <= |completion|
      reads this, checkpointMgr, checkpointMgr.store
    {
      && RunInvariant(completion[..i], outcomeOf, start, writes0, flushes, saved, lastSave, cp0, contents0)
      && |saved| <= i && saved == completion[..|saved|]
      && lastSave == LastSaveTime(created, clock, |saved|)
      && extractedPaths == SummaryFolders(cfg, paths0, completion, i, outcomeOf)
      && outputDir == SummaryRoot(cfg, root0, completion, i, outcomeOf)
    }

    /** The counters and the log after the completions `done`. */
    ghost predicate RunCounted(done: seq<string>, outcomeOf: string -> Option<string>)
      reads this
    {
      && Counted()
      && processedIdx == |done| && totalFiles == |files|
      && logs == LogLines(done, outcomeOf)
      && Counts(successCount, skippedCount, errorCount) == Tally(done, outcomeOf)
    }

    /** Completion `i` of the order `completion`, handled at `clock(i)`,
        keeps `Progress`: when the counter wraps, the completions so far are
        the saved ones, stamped with that time. */
    method CompleteNext(completion: seq<string>, i: nat, outcomeOf: string -> Option<string>,
                        created: int, clock: nat -> int, ghost start: Checkpoint, ghost writes0: nat,
                        ghost flushes: nat, ghost saved: seq<string>, ghost lastSave: int,
                        ghost cp0: Option<Checkpoint>, ghost contents0: CheckpointFile,
                        ghost paths0: seq<string>, ghost root0: string)
      returns (ghost flushes': nat, ghost saved': seq<string>, ghost lastSave': int)
      requires i < |completion|
      requires Progress(completion, i, outcomeOf, created, clock, start, writes0, flushes, saved, lastSave, cp0, contents0, paths0, root0)
      modifies this`successCount, this`skippedCount, this`errorCount, this`logs, this`processedIdx
      modifies this`extractedPaths, this`outputDir, this`checkpointCounter
      modifies checkpointMgr, checkpointMgr.store
      ensures Progress(completion, i + 1, outcomeOf, created, clock, start, writes0, flushes', saved', lastSave', cp0, contents0, paths0, root0)
    {
      var file := completion[i];
      var now := clock(i);
      ghost var done := completion[..i];
      assert completion[..i + 1] == done + [file];
      SummaryStep(cfg, paths0, root0, completion, i, outcomeOf);
      if cfg.checkpointInterval > 0 {
        flushes', saved', lastSave' := CompleteRecorded(file, outcomeOf, now, done, start, writes0, flushes, saved, lastSave, cp0, contents0);
      } else {
        flushes', saved', lastSave' := CompleteUnrecorded(file, outcomeOf, now, done, start, writes0, flushes, saved, lastSave, cp0, contents0);
      }
    }

    /** `CompleteNext` with checkpoints enabled. */
    method CompleteRecorded(file: string, outcomeOf: string -> Option<string>, now: int,
                        ghost done: seq<string>, ghost start: Checkpoint, ghost writes0: nat,
                        ghost flushes: nat, ghost saved: seq<string>, ghost lastSave: int,
                        ghost cp0: Option<Checkpoint>, ghost contents0: CheckpointFile)
      returns (ghost flushes': nat, ghost saved': seq<string>, ghost lastSave': int)
      requires RunInvariant(done, outcomeOf, start, writes0, flushes, saved, lastSave, cp0, contents0)
      requires cfg.checkpointInterval > 0
      modifies this`successCount, this`skippedCount, this`errorCount, this`logs, this`processedIdx
      modifies this`extractedPaths, this`outputDir, this`checkpointCounter
      modifies checkpointMgr, checkpointMgr.store
      ensures RunInvariant(done + [file], outcomeOf, start, writes0, flushes', saved', lastSave', cp0, contents0)
      ensures (saved' == saved && lastSave' == lastSave) || (saved' == done + [file] && lastSave' == now)
      ensures extractedPaths == TrackFolder(cfg, old(extractedPaths), file, outcomeOf(file))
      ensures outputDir == TrackRoot(cfg, old(outputDir), outcomeOf(file))
    {
      if checkpointCounter + 1 < cfg.checkpointInterval {
        flushes', saved', lastSave' := CompleteBuffered(file, outcomeOf, now, done, start, writes0, flushes, saved, lastSave, cp0, contents0);
      } else {
        flushes', saved', lastSave' := CompleteFlushed(file, outcomeOf, now, done, start, writes0, flushes, saved, lastSave, cp0, contents0);
      }
    }

    /** A completion that leaves the checkpoint in memory only. */
    method CompleteBuffered(file: string, outcomeOf: string -> Option<string>, now: int,
                        ghost done: seq<string>, ghost start: Checkpoint, ghost writes0: nat,
                        ghost flushes: nat, ghost saved: seq<string>, ghost lastSave: int,
                        ghost cp0: Option<Checkpoint>, ghost contents0: CheckpointFile)
      returns (ghost flushes': nat, ghost saved': seq<string>, ghost lastSave': int)
      requires RunInvariant(done, outcomeOf, start, writes0, flushes, saved, lastSave, cp0, contents0)
      requires cfg.checkpointInterval > 0 && checkpointCounter + 1 < cfg.checkpointInterval
      modifies this`successCount, this`skippedCount, this`errorCount, this`logs, this`processedIdx
      modifies this`extractedPaths, this`outputDir, this`checkpointCounter
      modifies checkpointMgr, checkpointMgr.store
      ensures RunInvariant(done + [file], outcomeOf, start, writes0, flushes', saved', lastSave', cp0, contents0)
      ensures (saved' == saved && lastSave' == lastSave) || (saved' == done + [file] && lastSave' == now)
      ensures extractedPaths == TrackFolder(cfg, old(extractedPaths), file, outcomeOf(file))
      ensures outputDir == TrackRoot(cfg, old(outputDir), outcomeOf(file))
    {
      ghost var before := Replay(start.(lastCheckpoint := lastSave), checkpointMgr.digest, done, outcomeOf);
      RunExtends(done, file);
      ProcessFile(file, outcomeOf(file), now);
      ghost var after := RecordOutcome(before, checkpointMgr.digest, file, outcomeOf(file));
      assert Replay(start.(lastCheckpoint := lastSave), checkpointMgr.digest, done + [file], outcomeOf) == after;
      assert checkpointMgr.checkpoint == Some(after);
      flushes', saved', lastSave' := flushes, saved, lastSave;
    }

    /** A completion that saves the checkpoint. */
    method CompleteFlushed(file: string, outcomeOf: string -> Option<string>, now: int,
                        ghost done: seq<string>, ghost start: Checkpoint, ghost writes0: nat,
                        ghost flushes: nat, ghost saved: seq<string>, ghost lastSave: int,
                        ghost cp0: Option<Checkpoint>, ghost contents0: CheckpointFile)
      returns (ghost flushes': nat, ghost saved': seq<string>, ghost lastSave': int)
      requires RunInvariant(done, outcomeOf, start, writes0, flushes, saved, lastSave, cp0, contents0)
      requires cfg.checkpointInterval > 0 && checkpointCounter + 1 >= cfg.checkpointInterval
      modifies this`successCount, this`skippedCount, this`errorCount, this`logs, this`processedIdx
      modifies this`extractedPaths, this`outputDir, this`checkpointCounter
      modifies checkpointMgr, checkpointMgr.store
      ensures RunInvariant(done + [file], outcomeOf, start, writes0, flushes', saved', lastSave', cp0, contents0)
      ensures (saved' == saved && lastSave' == lastSave) || (saved' == done + [file] && lastSave' == now)
      ensures extractedPaths == TrackFolder(cfg, old(extractedPaths), file, outcomeOf(file))
      ensures outputDir == TrackRoot(cfg, old(outputDir), outcomeOf(file))
    {
      ghost var before := Replay(start.(lastCheckpoint := lastSave), checkpointMgr.digest, done, outcomeOf);
      RunExtends(done, file);
      ProcessFile(file, outcomeOf(file), now);
      ghost var after := RecordOutcome(before, checkpointMgr.digest, file, outcomeOf(file));
      ReplayFlushed(start, lastSave, now, checkpointMgr.digest, done, file, outcomeOf);
      assert checkpointMgr.checkpoint == Some(after.(lastCheckpoint := now));
      assert checkpointMgr.store.contents == Stored(after.(lastCheckpoint := now));
      flushes', saved', lastSave' := flushes + 1, done + [file], now;
      MulStep(flushes, cfg.checkpointInterval);
    }

    /** `CompleteNext` with checkpoints disabled. */
    method CompleteUnrecorded(file: string, outcomeOf: string -> Option<string>, now: int,
                        ghost done: seq<string>, ghost start: Checkpoint, ghost writes0: nat,
                        ghost flushes: nat, ghost saved: seq<string>, ghost lastSave: int,
                        ghost cp0: Option<Checkpoint>, ghost contents0: CheckpointFile)
      returns (ghost flushes': nat, ghost saved': seq<string>, ghost lastSave': int)
      requires RunInvariant(done, outcomeOf, start, writes0, flushes, saved, lastSave, cp0, contents0)
      requires cfg.checkpointInterval <= 0
      modifies this`successCount, this`skippedCount, this`errorCount, this`logs, this`processedIdx
      modifies this`extractedPaths, this`outputDir, this`checkpointCounter
      modifies checkpointMgr, checkpointMgr.store
      ensures RunInvariant(done + [file], outcomeOf, start, writes0, flushes', saved', lastSave', cp0, contents0)
      ensures (saved' == saved && lastSave' == lastSave) || (saved' == done + [file] && lastSave' == now)
      ensures extractedPaths == TrackFolder(cfg, old(extractedPaths), file, outcomeOf(file))
      ensures outputDir == TrackRoot(cfg, old(outputDir), outcomeOf(file))
    {
      RunExtends(done, file);
      ProcessFile(file, outcomeOf(file), now);
      flushes', saved', lastSave' := flushes, saved, lastSave;
    }

    /** The completions of a run, one after another, the i-th at `clock(i)`;
        the saved completions are a prefix of them and the last save was made
        at the creation time or at the time of the last saved completion. */
    method CompleteAll(completion: seq<string>, outcomeOf: string -> Option<string>, created: int, clock: nat -> int,
                       ghost start: Checkpoint, ghost writes0: nat,
                       ghost cp0: Option<Checkpoint>, ghost contents0: CheckpointFile)
      returns (ghost flushes: nat, ghost saved: seq<string>, ghost lastSave: int)
      requires RunInvariant([], outcomeOf, start, writes0, 0, [], created, cp0, contents0)
      modifies this`successCount, this`skippedCount, this`errorCount, this`logs, this`processedIdx
      modifies this`extractedPaths, this`outputDir, this`checkpointCounter
      modifies checkpointMgr, checkpointMgr.store
      ensures RunInvariant(completion, outcomeOf, start, writes0, flushes, saved, lastSave, cp0, contents0)
      ensures saved <= completion
      ensures lastSave == LastSaveTime(created, clock, |saved|)
      ensures extractedPaths == SummaryFolders(cfg, old(extractedPaths), completion, |completion|, outcomeOf)
      ensures outputDir == SummaryRoot(cfg, old(outputDir), completion, |completion|, outcomeOf)
    {
      flushes, saved, lastSave := 0, [], created;
      ghost var paths0, root0 := extractedPaths, outputDir;
      assert completion[..0] == [];
      for i := 0 to |completion|
        invariant Progress(completion, i, outcomeOf, created, clock, start, writes0, flushes, saved, lastSave, cp0, contents0, paths0, root0)
      {
        flushes, saved, lastSave := CompleteNext(completion, i, outcomeOf, created, clock, start, writes0,
                                                 flushes, saved, lastSave, cp0, contents0, paths0, root0);
      }
      assert completion[..|completion|] == completion;
    }

    /** `startProcessing`: create the checkpoint at `now` when enabled, then
        one completion per file, in the order the workers finish
        (`completion`, a permutation of the files), with `outcomeOf` the
        operation's result and `clock(i)` the time the i-th completion is
        handled (the time a periodic save stamps). */
    method StartProcessing(completion: seq<string>, outcomeOf: string -> Option<string>, now: int, clock: nat -> int)
      requires Valid()
      requires processedIdx == 0 && checkpointCounter == 0 && totalFiles == |files|
      requires multiset(completion) == multiset(files)
      modifies this`successCount, this`skippedCount, this`errorCount, this`logs, this`processedIdx
      modifies this`extractedPaths, this`outputDir, this`checkpointCounter
      modifies checkpointMgr, checkpointMgr.store
      ensures Valid()
      ensures processedIdx == totalFiles
      ensures logs == LogLines(completion, outcomeOf)
      ensures Counts(successCount, skippedCount, errorCount) == Tally(files, outcomeOf)
      ensures cfg.checkpointInterval > 0 ==>
        var start := NewCheckpoint(cfg, |files|, now);
        var interval := cfg.checkpointInterval;
        var saved := Flushed(|completion|, interval);
        var stamp := LastSaveTime(now, clock, saved);
        && checkpointMgr.checkpoint == Some(Replay(start, checkpointMgr.digest, completion, outcomeOf).(lastCheckpoint := stamp))
        && checkpointMgr.store.contents
           == Stored(Replay(start, checkpointMgr.digest, completion[..saved], outcomeOf).(lastCheckpoint := stamp))
        && checkpointMgr.store.writes == old(checkpointMgr.store.writes) + 1 + |files| / interval
        && checkpointCounter == |files| % interval
      ensures cfg.checkpointInterval <= 0 ==>
        && checkpointMgr.checkpoint == old(checkpointMgr.checkpoint)
        && checkpointMgr.store.contents == old(checkpointMgr.store.contents)
      // the dry-run summary: each folder once, in completion order, and the
      // merge root once any merge succeeded
      ensures extractedPaths == SummaryFolders(cfg, old(extractedPaths), completion, |completion|, outcomeOf)
      ensures forall folder :: folder in extractedPaths <==> folder in old(extractedPaths) || ExtractedInto(cfg, completion, outcomeOf, folder)
      ensures outputDir == if cfg.mode == "merge" && SomeSuccess(completion, outcomeOf) then SummaryOutputRoot(cfg) else old(outputDir)
    {
      var interval := cfg.checkpointInterval;
      var start := NewCheckpoint(cfg, |files|, now);
      if interval > 0 {
        var ignored := checkpointMgr.Create(cfg, totalFiles, now);
      }
      ghost var writes0 := checkpointMgr.store.writes;
      ghost var cp0, contents0 := checkpointMgr.checkpoint, checkpointMgr.store.contents;
      assert start.(lastCheckpoint := now) == start;
      assert |completion| == |files| by {
        assert |multiset(completion)| == |multiset(files)|;
      }
      ghost var flushes, saved, lastSave := CompleteAll(completion, outcomeOf, now, clock, start, writes0, cp0, contents0);
      assert saved == completion[..|saved|];
      if interval > 0 {
        FlushedPrefix(completion, saved, interval, flushes, checkpointCounter);
        ReplayStamp(start, checkpointMgr.digest, completion, outcomeOf, lastSave);
        ReplayStamp(start, checkpointMgr.digest, saved, outcomeOf, lastSave);
      }
      TallyPermutation(completion, files, outcomeOf);
      assert completion[..|completion|] == completion;
      GatherDistinct(old(extractedPaths), Contributions(cfg, completion, outcomeOf), |completion|);
      forall folder
        ensures folder in extractedPaths <==> folder in old(extractedPaths) || ExtractedInto(cfg, completion, outcomeOf, folder)
      {
        SummaryFoldersMembers(cfg, old(extractedPaths), completion, outcomeOf, folder);
      }
      SummaryRootShown(cfg, old(outputDir), completion, |completion|, outcomeOf);
    }

    /** `Update`: quit keys and the auto-close tick set `quitting`, a resize
        sets the window and viewport sizes, the end of processing sets
        `finished` and schedules the auto-close. */
    method Update(msg: Msg, now: int) returns (cmd: Cmd)
      modifies this
      ensures msg.KeyMsg? && (msg.key == "ctrl+c" || msg.key == "q") ==> quitting && cmd == Quit
      ensures msg.KeyMsg? && !(msg.key == "ctrl+c" || msg.key == "q") ==> quitting == old(quitting) && cmd == NoCmd
      ensures msg.AutoCloseMsg? ==> quitting && cmd == Quit
      ensures !msg.KeyMsg? && !msg.AutoCloseMsg? ==> quitting == old(quitting)
      ensures msg.WindowSizeMsg? ==>
        && width == msg.width && height == msg.height
        && viewportWidth == msg.width - 4
        && viewportHeight == (if msg.height - 13 < 3 then 3 else msg.height - 13)
        && cmd == NoCmd
      ensures !msg.WindowSizeMsg? ==>
        width == old(width) && height == old(height)
        && viewportWidth == old(viewportWidth) && viewportHeight == old(viewportHeight)
      ensures msg.ProcessingDoneMsg? ==>
        finished && autoCloseTime == now + AutoCloseShown && cmd == AutoCloseAfter(AutoCloseDelay)
      ensures !msg.ProcessingDoneMsg? ==> finished == old(finished) && autoCloseTime == old(autoCloseTime)
      ensures msg.SpinnerTickMsg? ==> cmd == SpinnerStep
      // the bookkeeping is untouched
      ensures processedIdx == old(processedIdx) && successCount == old(successCount)
      ensures skippedCount == old(skippedCount) && errorCount == old(errorCount)
      ensures logs == old(logs) && checkpointCounter == old(checkpointCounter)
      ensures extractedPaths == old(extractedPaths) && outputDir == old(outputDir)
      ensures totalFiles == old(totalFiles)
    {
      cmd := NoCmd;
      match msg
      case KeyMsg(key) =>
        if key == "ctrl+c" || key == "q" {
          quitting := true;
          cmd := Quit;
        }
      case WindowSizeMsg(w, h) =>
        width := w;
        height := h;
        var vh := h - 13;
        if vh < 3 {
          vh := 3;
        }
        viewportWidth := w - 4;
        viewportHeight := vh;
      case SpinnerTickMsg =>
        cmd := SpinnerStep;
      case ProcessingDoneMsg =>
        finished := true;
        autoCloseTime := now + AutoCloseShown;
        cmd := AutoCloseAfter(AutoCloseDelay);
      case AutoCloseMsg =>
        quitting := true;
        cmd := Quit;
    }
  }

  // ---- Properties of a run ----

  /** Recording completions leaves the run's parameters and flush time alone. */
  lemma {:induction false} ReplayKeepsRun(cp: Checkpoint, digest: Digest, done: seq<string>, outcomeOf: string -> Option<string>)
    ensures Replay(cp, digest, done, outcomeOf).(processed := cp.processed) == cp
  {
    if done != [] {
      ReplayKeepsRun(cp, digest, done[..|done| - 1], outcomeOf);
    }
  }

  /** After a run every completed file is on record, and there is exactly one
      record per completion. */
  lemma {:induction false} ReplayRecordsAll(cp: Checkpoint, digest: Digest, done: seq<string>, outcomeOf: string -> Option<string>)
    ensures ProcessedCount(Replay(cp, digest, done, outcomeOf).processed) == ProcessedCount(cp.processed) + |done|
    ensures forall f :: f in done ==> Recorded(Replay(cp, digest, done, outcomeOf).processed, digest, f)
  {
    if done != [] {
      var init := done[..|done| - 1];
      ReplayRecordsAll(cp, digest, init, outcomeOf);
      RecordOutcomeRecords(Replay(cp, digest, init, outcomeOf), digest, done[|done| - 1], outcomeOf(done[|done| - 1]));
      assert done == init + [done[|done| - 1]];
    }
  }

  /** Some file of `done` leaves a record that matches `f`. */
  predicate MatchedByAny(done: seq<string>, digest: Digest, f: string)
  {
    exists g :: g in done && Matches(Base(g), Fingerprint(digest, g), digest, f)
  }

  /** Recording one outcome adds exactly the records that match the file. */
  lemma RecordOutcomeRecordsExactly(cp: Checkpoint, digest: Digest, file: string, err: Option<string>, f: string)
    ensures Recorded(RecordOutcome(cp, digest, file, err).processed, digest, f)
        <==> Recorded(cp.processed, digest, f) || Matches(Base(file), Fingerprint(digest, file), digest, f)
  {
    var reason := match Classify(err) case Failed(e) => e case _ => NoSubtitlesReason;
    AppendRecordsExactly(cp, digest, file, reason, f);
  }

  /** A run puts a file on record only through a completion whose record
      matches it: afterwards `f` is on record exactly when it was at the
      start or some completed file's record matches it. */
  lemma {:induction false} ReplayRecordsExactly(cp: Checkpoint, digest: Digest, done: seq<string>,
                                                outcomeOf: string -> Option<string>, f: string)
    ensures Recorded(Replay(cp, digest, done, outcomeOf).processed, digest, f)
        <==> Recorded(cp.processed, digest, f) || MatchedByAny(done, digest, f)
  {
    if done != [] {
      var init, last := done[..|done| - 1], done[|done| - 1];
      assert done == init + [last];
      assert Replay(cp, digest, done, outcomeOf) == RecordOutcome(Replay(cp, digest, init, outcomeOf), digest, last, outcomeOf(last));
      ReplayRecordsExactly(cp, digest, init, outcomeOf, f);
      RecordOutcomeRecordsExactly(Replay(cp, digest, init, outcomeOf), digest, last, outcomeOf(last), f);
      MatchedByAnyStep(init, last, digest, f);
    }
  }

  lemma MatchedByAnyStep(init: seq<string>, last: string, digest: Digest, f: string)
    ensures MatchedByAny(init + [last], digest, f)
        <==> MatchedByAny(init, digest, f) || Matches(Base(last), Fingerprint(digest, last), digest, f)
  {
    var done := init + [last];
    if MatchedByAny(done, digest, f) {
      var g :| g in done && Matches(Base(g), Fingerprint(digest, g), digest, f);
      if g != last {
        assert g in init;
      }
    }
    if MatchedByAny(init, digest, f) {
      var g :| g in init && Matches(Base(g), Fingerprint(digest, g), digest, f);
      assert g in done;
    }
    assert last in done;
  }

  lemma {:induction false} MulAtLeast(k: int, d: int)
    requires k >= 1 && d > 0
    ensures k * d >= d
    decreases k
  {
    if k > 1 {
      MulAtLeast(k - 1, d);
      assert k * d == (k - 1) * d + d;
    }
  }

  /** A flush after the completions `done` and `file` stamps the replayed
      checkpoint with the flush time. */
  lemma ReplayFlushed(start: Checkpoint, lastSave: int, now: int, digest: Digest, done: seq<string>, file: string,
                      outcomeOf: string -> Option<string>)
    ensures Replay(start.(lastCheckpoint := now), digest, done + [file], outcomeOf)
            == RecordOutcome(Replay(start.(lastCheckpoint := lastSave), digest, done, outcomeOf), digest, file, outcomeOf(file))
               .(lastCheckpoint := now)
  {
    RunExtends(done, file);
    ReplayStamp(start.(lastCheckpoint := lastSave), digest, done + [file], outcomeOf, now);
    assert start.(lastCheckpoint := lastSave).(lastCheckpoint := now) == start.(lastCheckpoint := now);
  }

  /** The three run functions on one more completion. */
  lemma RunExtends(done: seq<string>, file: string)
    ensures (done + [file])[..|done|] == done && (done + [file])[|done|] == file
  {
  }

  lemma MulStep(k: int, d: int)
    ensures (k + 1) * d == k * d + d
  {
  }

  /** How many of `n` completions a flush every `interval` completions has
      saved: the largest multiple of `interval` not above `n`. */
  function Flushed(n: nat, interval: int): (k: nat)
    requires interval > 0
    ensures k <= n && n - k < interval && k % interval == 0
  {
    DivUnique(n / interval * interval, interval, n / interval, 0);
    n - n % interval
  }

  /** At the end of a run the saved completions are the longest prefix
      whose length is a multiple of the interval. */
  lemma FlushedPrefix(completion: seq<string>, saved: seq<string>, interval: int, flushes: nat, counter: int)
    requires interval > 0 && 0 <= counter < interval
    requires |saved| == flushes * interval && |completion| == |saved| + counter
    requires saved == completion[..|saved|]
    ensures saved == completion[..Flushed(|completion|, interval)]
    ensures flushes == |completion| / interval && counter == |completion| % interval
  {
    DivUnique(|completion|, interval, flushes, counter);
  }

  /** A run ends without a last save: of ten completions with a save every
      three, the stored checkpoint holds nine records. */
  lemma LastCompletionsUnsaved(start: Checkpoint, digest: Digest, completion: seq<string>, outcomeOf: string -> Option<string>)
    requires ProcessedCount(start.processed) == 0 && |completion| == 10
    ensures ProcessedCount(Replay(start, digest, completion[..Flushed(|completion|, 3)], outcomeOf).processed) == 9
  {
    ReplayRecordsAll(start, digest, completion[..Flushed(|completion|, 3)], outcomeOf);
  }

  /** Quotient and remainder are unique. */
  lemma DivUnique(n: int, d: int, q: int, r: int)
    requires d > 0 && n == q * d + r && 0 <= r < d
    ensures n / d == q && n % d == r
  {
    var q', r' := n / d, n % d;
    assert n == q' * d + r' && 0 <= r' < d;
    assert (q - q') * d == q * d - q' * d;
    if q > q' {
      MulAtLeast(q - q', d);
    } else if q < q' {
      MulAtLeast(q' - q, d);
    }
  }

  /** Removing one occurrence of a completion from the tally. */
  lemma {:induction false} TallyRemove(s: seq<string>, j: nat, outcomeOf: string -> Option<string>)
    requires j < |s|
    ensures Tally(s, outcomeOf) == Add(Tally(s[..j] + s[j + 1..], outcomeOf), Classify(outcomeOf(s[j])))
  {
    var last := |s| - 1;
    var rest := s[..j] + s[j + 1..];
    if j == last {
      assert rest == s[..last];
    } else {
      var init := s[..last];
      TallyRemove(init, j, outcomeOf);
      var initRest := init[..j] + init[j + 1..];
      RemoveBeforeLast(s, j);
      var t := Tally(initRest, outcomeOf);
      var oj, ol := Classify(outcomeOf(s[j])), Classify(outcomeOf(s[last]));
      assert init[j] == s[j];
      assert Tally(s, outcomeOf) == Add(Tally(init, outcomeOf), ol);
      assert Tally(rest, outcomeOf) == Add(Tally(rest[..|rest| - 1], outcomeOf), ol);
      AddCommutes(t, oj, ol);
    }
  }

  /** Removing position `j` before the last one commutes with dropping the
      last element. */
  lemma RemoveBeforeLast(s: seq<string>, j: nat)
    requires j < |s| - 1
    ensures var rest := s[..j] + s[j + 1..];
            && rest[..|rest| - 1] == s[..|s| - 1][..j] + s[..|s| - 1][j + 1..]
            && rest[|rest| - 1] == s[|s| - 1]
  {
    var rest := s[..j] + s[j + 1..];
    assert rest[..|rest| - 1] == s[..|s| - 1][..j] + s[..|s| - 1][j + 1..];
  }

  /** Two completions count the same in either order. */
  lemma AddCommutes(c: Counts, a: Outcome, b: Outcome)
    ensures Add(Add(c, a), b) == Add(Add(c, b), a)
  {
  }

  /** Taking the last element off `s` and one occurrence of it off `t` keeps
      the multisets equal. */
  lemma RemoveMatching(s: seq<string>, t: seq<string>, j: nat)
    requires s != [] && multiset(s) == multiset(t)
    requires j < |t| && t[j] == s[|s| - 1]
    ensures multiset(s[..|s| - 1]) == multiset(t[..j] + t[j + 1..])
  {
    var last, t' := s[|s| - 1], t[..j] + t[j + 1..];
    assert t == t[..j] + [t[j]] + t[j + 1..];
    assert s == s[..|s| - 1] + [last];
    assert multiset(t) == multiset(t') + multiset{last};
    forall x
      ensures multiset(s[..|s| - 1])[x] == multiset(t')[x]
    {
      assert multiset(s)[x] == multiset(s[..|s| - 1])[x] + multiset{last}[x];
      assert multiset(t)[x] == multiset(t')[x] + multiset{last}[x];
    }
  }

  /** The counters do not depend on the order in which the workers finish. */
  lemma {:induction false} TallyPermutation(s: seq<string>, t: seq<string>, outcomeOf: string -> Option<string>)
    requires multiset(s) == multiset(t)
    ensures Tally(s, outcomeOf) == Tally(t, outcomeOf)
    decreases |s|
  {
    if s != [] {
      var last := s[|s| - 1];
      assert last in multiset(t);
      var j :| 0 <= j < |t| && t[j] == last;
      RemoveMatching(s, t, j);
      TallyPermutation(s[..|s| - 1], t[..j] + t[j + 1..], outcomeOf);
      TallyRemove(t, j, outcomeOf);
    } else {
      assert |t| == |multiset(t)| == 0;
    }
  }

}
