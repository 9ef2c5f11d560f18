/** `RunProcessTUI`'s decision before the processing screen starts: whether
    anything runs, whether a stored run is resumed or discarded, and which
    files the screen is given. The screen itself, the prompt and the printed
    summary are not part of this model; the answer to the prompt is a
    parameter. */
module Processor {
  import opened Wrappers
  import opened Settings
  import opened Checkpoint
  import Text
  import Paths
  import Ui

  /** The answer to "Resume processing? (y/n)" counts as yes when it is "y"
      once lower-cased and trimmed. */
  predicate IsYes(response: string)
  {
    Text.TrimSpace(Text.ToLower(response)) == "y"
  }

  /** What `RunProcessTUI` goes on to do. */
  datatype Launch =
    | NoFiles               // an empty list: nothing runs
    | AllProcessed          // a resumed run with nothing left: nothing runs
    | Start(files: seq<string>)  // the processing screen runs over `files`

  /** A stored run the user may resume: checkpoints are on and `CanResume`
      answers true (an error counts as false). */
  predicate Resumable(cfg: Config, contents: CheckpointFile)
  {
    cfg.checkpointInterval > 0 && ResumeCheck(cfg, contents) == Success(true)
  }

  /** The decision of `RunProcessTUI` for the stored file `contents`. */
  function Decide(cfg: Config, files: seq<string>, contents: CheckpointFile, digest: Digest, response: string): (r: Launch)
    ensures files == [] <==> r == NoFiles
    ensures !Resumable(cfg, contents) && files != [] ==> r == Start(files)
    ensures Resumable(cfg, contents) && !IsYes(response) && files != [] ==> r == Start(files)
  {
    if files == [] then NoFiles
    else if Resumable(cfg, contents) && IsYes(response) then
      var rest := Unprocessed(contents.cp.processed, digest, files);
      if rest == [] then AllProcessed else Start(rest)
    else Start(files)
  }

  /** The stored run is discarded exactly when it could be resumed and the
      answer is not yes. */
  predicate Discards(cfg: Config, files: seq<string>, contents: CheckpointFile, response: string)
  {
    files != [] && Resumable(cfg, contents) && !IsYes(response)
  }

  /** `RunProcessTUI` up to the start of the processing screen. */
  method RunProcessTUI(cfg: Config, files: seq<string>, store: CheckpointStore, digest: Digest, response: string)
    returns (r: Launch)
    requires store.path == Paths.Join(cfg.dir, CheckpointFileName)
    modifies store
    ensures r == Decide(cfg, files, old(store.contents), digest, response)
    ensures store.contents == (if Discards(cfg, files, old(store.contents), response) then Absent else old(store.contents))
    ensures store.writes == old(store.writes)
  {
    if |files| == 0 {
      return NoFiles;
    }
    if cfg.checkpointInterval > 0 {
      var canResume := CanResume(cfg, store);
      if canResume == Success(true) {
        r := ResumeOrDiscard(cfg, files, store, digest, response);
        return;
      }
    }
    return Start(files);
  }

  /** The prompt's two answers: resume with the files not on record, or
      delete the stored run and start over. */
  method ResumeOrDiscard(cfg: Config, files: seq<string>, store: CheckpointStore, digest: Digest, response: string)
    returns (r: Launch)
    requires files != [] && Resumable(cfg, store.contents)
    requires store.path == Paths.Join(cfg.dir, CheckpointFileName)
    modifies store
    ensures r == Decide(cfg, files, old(store.contents), digest, response)
    ensures store.contents == (if IsYes(response) then old(store.contents) else Absent)
    ensures store.writes == old(store.writes)
  {
    var manager := new Manager(store, digest);
    if IsYes(response) {
      var _ := manager.Load();
      var todo := FilterProcessedFiles(manager, files);
      if |todo| == 0 {
        return AllProcessed;
      }
      return Start(todo);
    }
    manager.Clear();
    return Start(files);
  }

  /** A resumed run works on exactly the listed files that nothing on record
      matches, in their listed order; every run works on listed files only. */
  lemma DecideRunsListedFiles(cfg: Config, files: seq<string>, contents: CheckpointFile, digest: Digest, response: string)
    ensures var r := Decide(cfg, files, contents, digest, response);
      r.Start? ==> r.files != [] && forall f :: f in r.files ==> f in files
    ensures var r := Decide(cfg, files, contents, digest, response);
      r.Start? && Resumable(cfg, contents) && IsYes(response) ==>
        forall f :: f in r.files <==> f in files && !Recorded(contents.cp.processed, digest, f)
    ensures var r := Decide(cfg, files, contents, digest, response);
      (r == AllProcessed <==> files != [] && Resumable(cfg, contents) && IsYes(response)
                              && forall f :: f in files ==> Recorded(contents.cp.processed, digest, f))
  {
    if files != [] && Resumable(cfg, contents) && IsYes(response) {
      var p := contents.cp.processed;
      forall f
        ensures f in Unprocessed(p, digest, files) <==> f in files && !Recorded(p, digest, f)
      {
        UnprocessedMembers(p, digest, files, f);
      }
      if Unprocessed(p, digest, files) != [] {
        var g := Unprocessed(p, digest, files)[0];
        assert g in Unprocessed(p, digest, files);
      }
    }
  }

  /** Resuming does not carry the earlier session's records over: the
      processing screen creates a fresh checkpoint (`Ui.ProcessModel.StartProcessing`)
      whose total is the number of remaining files, so a file finished in the
      earlier session is off the record at the first save and after any
      completions of the remaining files, unless one of them has a record
      that matches it. */
  lemma ResumeForgetsFinished(cfg: Config, files: seq<string>, contents: CheckpointFile, digest: Digest,
                              response: string, f: string, done: seq<string>,
                              outcomeOf: string -> Option<string>, now: int)
    requires Resumable(cfg, contents) && IsYes(response)
    requires Decide(cfg, files, contents, digest, response).Start?
    requires Recorded(contents.cp.processed, digest, f)
    requires forall g :: g in done ==> g in Decide(cfg, files, contents, digest, response).files
    requires !Ui.MatchedByAny(Decide(cfg, files, contents, digest, response).files, digest, f)
    ensures var rest := Decide(cfg, files, contents, digest, response).files;
      var cp := Ui.Replay(NewCheckpoint(cfg, |rest|, now), digest, done, outcomeOf);
      cp.totalFiles == |rest| && !Recorded(cp.processed, digest, f)
  {
    var rest := Decide(cfg, files, contents, digest, response).files;
    var start := NewCheckpoint(cfg, |rest|, now);
    Ui.ReplayKeepsRun(start, digest, done, outcomeOf);
    Ui.ReplayRecordsExactly(start, digest, done, outcomeOf, f);
  }

  /** The answer matters only when a stored run can be resumed. */
  lemma AnswerIgnoredWithoutResume(cfg: Config, files: seq<string>, contents: CheckpointFile, digest: Digest, a: string, b: string)
    requires !Resumable(cfg, contents)
    ensures Decide(cfg, files, contents, digest, a) == Decide(cfg, files, contents, digest, b)
    ensures !Discards(cfg, files, contents, a)
  {
  }

  /** Leading white space is dropped up to the first other character. */
  lemma TrimLeftSpaces(l: string, t: string)
    requires forall i :: 0 <= i < |l| ==> Text.IsSpace(l[i])
    requires t != [] && !Text.IsSpace(t[0])
    ensures Text.TrimLeft(l + t) == t
  {
    var s := l + t;
    var r := Text.TrimLeft(s);
    assert r == s[|l|..];
  }

  /** Trailing white space is dropped back to the last other character. */
  lemma TrimRightSpaces(t: string, r: string)
    requires forall i :: 0 <= i < |r| ==> Text.IsSpace(r[i])
    requires t != [] && !Text.IsSpace(t[|t| - 1])
    ensures Text.TrimRight(t + r) == t
  {
    var s := t + r;
    var x := Text.TrimRight(s);
    assert x == s[..|t|];
  }

  /** A "y" or "Y" with only white space around it counts as yes. */
  lemma PaddedYIsYes(l: string, c: char, r: string)
    requires c == 'y' || c == 'Y'
    requires forall i :: 0 <= i < |l| ==> Text.IsSpace(l[i])
    requires forall i :: 0 <= i < |r| ==> Text.IsSpace(r[i])
    ensures IsYes(l + [c] + r)
  {
    var s := l + [c] + r;
    assert Text.ToLower(s) == l + ("y" + r) by {
      forall i | 0 <= i < |s|
        ensures Text.ToLower(s)[i] == (l + ("y" + r))[i]
      {
      }
    }
    TrimLeftSpaces(l, "y" + r);
    TrimRightSpaces("y", r);
  }

  /** A spelled-out "yes" does not count as yes. */
  lemma SpelledOutIsNotYes(response: string)
    requires response == "yes\n"
    ensures !IsYes(response)
  {
    assert Text.ToLower(response) == "yes\n";
    TrimLeftSpaces("", "yes\n");
    TrimRightSpaces("yes", "\n");
  }
}
