/** The per-file operations: extracting the subtitle tracks of a container
    into `subs/<lang>` next to it, and merging an external subtitle back into
    a copy under the output root. The machine they run on (`mkvmerge -J`,
    directory creation, directory listings, font globbing, relative paths and
    the tool runs) is a `Host` whose answers are fixed functions of their
    arguments and whose `log` records every directory creation and every tool
    run attempted. */
module Engine {
  import opened Wrappers
  import opened Paths
  import Text
  import opened Settings
  import Parser

  // ---------------------------------------------------------------- metadata

  datatype Props = Props(lang: string, trackName: string, forced: bool)

  /** A track entry of `mkvmerge -J`. */
  datatype Track = Track(id: int, kind: string, codec: string, props: Props)

  datatype Attachment = Attachment(id: int, fileName: string, contentType: string)

  datatype Info = Info(tracks: seq<Track>, attachments: seq<Attachment>)

  // -------------------------------------------------------------------- host

  datatype Command = Command(tool: string, args: seq<string>)

  datatype Event = MadeDir(path: string) | Ran(cmd: Command)

  /** What reading a directory gives: its entry names, a missing directory,
      or another failure. */
  datatype Listing = Entries(names: seq<string>) | Missing | Unreadable(reason: string)

  class Host {
    /** Every directory creation and tool run attempted, in order. */
    var log: seq<Event>
    /** `GetInfo`: the metadata of a container, or the error text. */
    const inspect: string -> Result<Info, string>
    /** The error `os.MkdirAll` reports for a path, if any. */
    const mkdirError: string -> Option<string>
    const listing: string -> Listing
    /** `filepath.Glob` of a pattern. */
    const glob: string -> Result<seq<string>, string>
    /** `filepath.Rel(base, target)`, "" where it fails. */
    const relative: (string, string) -> string
    /** The error a tool run reports, if any. */
    const runError: Command -> Option<string>

    constructor(inspect: string -> Result<Info, string>, mkdirError: string -> Option<string>,
                listing: string -> Listing, glob: string -> Result<seq<string>, string>,
                relative: (string, string) -> string, runError: Command -> Option<string>)
      ensures log == []
      ensures this.inspect == inspect && this.mkdirError == mkdirError && this.listing == listing
      ensures this.glob == glob && this.relative == relative && this.runError == runError
    {
      log := [];
      this.inspect := inspect;
      this.mkdirError := mkdirError;
      this.listing := listing;
      this.glob := glob;
      this.relative := relative;
      this.runError := runError;
    }

    method MkdirAll(path: string) returns (err: Option<string>)
      modifies this`log
      ensures log == old(log) + [MadeDir(path)]
      ensures err == mkdirError(path)
    {
      log := log + [MadeDir(path)];
      err := mkdirError(path);
    }

    method Run(cmd: Command) returns (err: Option<string>)
      modifies this`log
      ensures log == old(log) + [Ran(cmd)]
      ensures err == runError(cmd)
    {
      log := log + [Ran(cmd)];
      err := runError(cmd);
    }
  }

  /** The error text of an operation that failed with `e`, if it failed. */
  function Wrap(context: string, e: Option<string>): (r: Option<string>)
    ensures r.None? <==> e.None?
    ensures e.Some? ==> Text.HasPrefix(r.value, context) && Text.HasSuffix(r.value, e.value)
  {
    if e.None? then None else Some(context + e.value)
  }

  /** `execute`: nothing runs in a dry run; otherwise the tool runs and its
      failure is reported as "<tool> command failed: <error>". */
  method Execute(host: Host, cfg: Config, tool: string, args: seq<string>) returns (err: Option<string>)
    modifies host`log
    ensures cfg.dryRun ==> err == None && host.log == old(host.log)
    ensures !cfg.dryRun ==> host.log == old(host.log) + [Ran(Command(tool, args))]
    ensures !cfg.dryRun ==> err == Wrap(tool + " command failed: ", host.runError(Command(tool, args)))
  {
    if cfg.dryRun {
      return None;
    }
    var e := host.Run(Command(tool, args));
    err := Wrap(tool + " command failed: ", e);
  }

  /** The error text both operations return when there is nothing to do. */
  const SkippedError := "skipped"

  // -------------------------------------------------------------- extraction

  /** A track is extracted for `lang` when it is a subtitle track in that
      language or in the undetermined language. */
  predicate Selected(t: Track, lang: string)
  {
    t.kind == "subtitles" && (t.props.lang == lang || t.props.lang == "und")
  }

  /** ".ass" for SubStation Alpha codecs, else ".srt". */
  function SubtitleExt(codec: string): (r: string)
    ensures r == ".ass" || r == ".srt"
  {
    var c := Text.ToLower(codec);
    if Text.Contains(c, "ass") || Text.Contains(c, "substationalpha") then ".ass" else ".srt"
  }

  /** "_forced" for forced or sign tracks, else "_<index>" for every track
      but the first. */
  function TrackSuffix(t: Track, i: nat): (r: string)
    ensures r == "_forced" || r == "" || (i > 0 && r == "_" + Text.NatToString(i))
  {
    if Text.Contains(Text.ToLower(t.props.trackName), "sign") || t.props.forced then "_forced"
    else if i > 0 then "_" + Text.NatToString(i)
    else ""
  }

  predicate IsForcedTrack(t: Track)
  {
    Text.Contains(Text.ToLower(t.props.trackName), "sign") || t.props.forced
  }

  /** The file name track `i` is extracted to. */
  function OutputName(epNum: string, lang: string, t: Track, i: nat): (r: string)
    ensures Text.HasPrefix(r, epNum + "_" + lang)
  {
    var r := epNum + "_" + lang + TrackSuffix(t, i) + SubtitleExt(t.codec);
    assert r[..|epNum + "_" + lang|] == epNum + "_" + lang;
    r
  }

  /** `<dir of the container>/subs/<lang>`. */
  function SubsDirFor(path: string, lang: string): (r: string)
    ensures r != []
  {
    Join(Join(Dir(path), "subs"), lang)
  }

  /** The subtitle folder of a language is `<lang>` inside a "subs" folder
      that lies beside the container (in "/" for a container at the root). */
  lemma SubsDirBesideContainer(path: string, lang: string)
    ensures lang != "" && lang != "." && '/' !in lang ==>
      var r := SubsDirFor(path, lang);
      && Base(r) == lang && Base(Dir(r)) == "subs" && Dir(Dir(r)) == Dir(path)
  {
    if lang != "" && lang != "." && '/' !in lang {
      var x := Join(Dir(path), "subs");
      assert "subs"[3] == 's';
      assert '/' !in "subs";
      JoinSplits(Dir(path), "subs");
      CleanTrailingIdempotent(path[..LastSlash(path) + 1]);
      assert x[|x| - 1] == 's';
      assert CleanTrailing(x) == x;
      JoinSplits(x, lang);
    }
  }

  function ExtractCommand(path: string, subsDir: string, epNum: string, lang: string, t: Track, i: nat): Command
  {
    Command("mkvextract", [path, "tracks", Text.IntToString(t.id) + ":" + Join(subsDir, OutputName(epNum, lang, t, i))])
  }

  /** What part of an operation leaves behind: the events it caused and the
      error it stopped at, if any. */
  datatype Trace = Trace(events: seq<Event>, err: Option<string>)

  /** `t` followed by `next`, unless `t` already failed. */
  function Then(t: Trace, next: Trace): (r: Trace)
    ensures t.err.Some? ==> r == t
    ensures t.err.None? ==> r.events == t.events + next.events && r.err == next.err
  {
    if t.err.Some? then t else Trace(t.events + next.events, next.err)
  }

  /** Running one extraction command: nothing in a dry run. */
  function ExtractTrace(host: Host, dryRun: bool, cmd: Command): Trace
  {
    if dryRun then Trace([], None)
    else Trace([Ran(cmd)], Wrap("subtitle extraction failed: ", Wrap(cmd.tool + " command failed: ", host.runError(cmd))))
  }

  /** One language: create its folder (not in a dry run), then extract the
      selected tracks among the first `n`, in track order, up to the first
      failure. */
  function LanguageTrace(host: Host, path: string, dryRun: bool, epNum: string, lang: string, tracks: seq<Track>, n: nat): Trace
    requires n <= |tracks|
  {
    var dir := SubsDirFor(path, lang);
    if n == 0 then
      (if dryRun then Trace([], None) else Trace([MadeDir(dir)], Wrap("failed to create subtitle directory: ", host.mkdirError(dir))))
    else
      var before := LanguageTrace(host, path, dryRun, epNum, lang, tracks, n - 1);
      if Selected(tracks[n - 1], lang) then
        Then(before, ExtractTrace(host, dryRun, ExtractCommand(path, dir, epNum, lang, tracks[n - 1], n - 1)))
      else before
  }

  lemma LanguageTraceNext(host: Host, path: string, dryRun: bool, epNum: string, lang: string, tracks: seq<Track>, i: nat)
    requires i < |tracks|
    ensures LanguageTrace(host, path, dryRun, epNum, lang, tracks, i + 1)
         == if Selected(tracks[i], lang)
            then Then(LanguageTrace(host, path, dryRun, epNum, lang, tracks, i),
                      ExtractTrace(host, dryRun, ExtractCommand(path, SubsDirFor(path, lang), epNum, lang, tracks[i], i)))
            else LanguageTrace(host, path, dryRun, epNum, lang, tracks, i)
  {
  }

  /** Track `i` of one language of `RunExtract`: extracted when selected. */
  method ExtractNext(host: Host, path: string, cfg: Config, epNum: string, lang: string, tracks: seq<Track>, i: nat,
                     ghost log0: seq<Event>)
    returns (err: Option<string>)
    requires i < |tracks|
    requires var t := LanguageTrace(host, path, cfg.dryRun, epNum, lang, tracks, i);
      t.err == None && host.log == log0 + t.events
    modifies host`log
    ensures var t := LanguageTrace(host, path, cfg.dryRun, epNum, lang, tracks, i + 1);
      host.log == log0 + t.events && err == t.err
  {
    LanguageTraceNext(host, path, cfg.dryRun, epNum, lang, tracks, i);
    var t := tracks[i];
    if Selected(t, lang) {
      var cmd := ExtractCommand(path, SubsDirFor(path, lang), epNum, lang, t, i);
      var e := Execute(host, cfg, cmd.tool, cmd.args);
      Text.AppendAssoc(log0, LanguageTrace(host, path, cfg.dryRun, epNum, lang, tracks, i).events, ExtractTrace(host, cfg.dryRun, cmd).events);
      err := Wrap("subtitle extraction failed: ", e);
    } else {
      err := None;
    }
  }

  /** The first `k` languages in order, up to the first failure. */
  function ExtractRun(host: Host, path: string, dryRun: bool, epNum: string, tracks: seq<Track>, langs: seq<string>, k: nat): Trace
    requires k <= |langs|
  {
    if k == 0 then Trace([], None)
    else Then(ExtractRun(host, path, dryRun, epNum, tracks, langs, k - 1),
              LanguageTrace(host, path, dryRun, epNum, langs[k - 1], tracks, |tracks|))
  }

  /** A failure of a language ends it. */
  lemma {:induction false} LanguageTraceStops(host: Host, path: string, dryRun: bool, epNum: string, lang: string, tracks: seq<Track>, n: nat, m: nat)
    requires n <= m <= |tracks|
    requires LanguageTrace(host, path, dryRun, epNum, lang, tracks, n).err.Some?
    ensures LanguageTrace(host, path, dryRun, epNum, lang, tracks, m) == LanguageTrace(host, path, dryRun, epNum, lang, tracks, n)
    decreases m - n
  {
    if n < m {
      LanguageTraceStops(host, path, dryRun, epNum, lang, tracks, n, m - 1);
    }
  }

  /** A failure of a language ends the run. */
  lemma {:induction false} ExtractRunStops(host: Host, path: string, dryRun: bool, epNum: string, tracks: seq<Track>, langs: seq<string>, k: nat, m: nat)
    requires k <= m <= |langs|
    requires ExtractRun(host, path, dryRun, epNum, tracks, langs, k).err.Some?
    ensures ExtractRun(host, path, dryRun, epNum, tracks, langs, m) == ExtractRun(host, path, dryRun, epNum, tracks, langs, k)
    decreases m - k
  {
    if k < m {
      ExtractRunStops(host, path, dryRun, epNum, tracks, langs, k, m - 1);
    }
  }

  /** A track is selected for some requested language. */
  predicate SomeSelected(tracks: seq<Track>, langs: seq<string>)
  {
    exists l, j :: 0 <= l < |langs| && 0 <= j < |tracks| && Selected(tracks[j], langs[l])
  }

  /** One language of `RunExtract`: its folder, then its tracks. */
  method ExtractLanguage(host: Host, path: string, cfg: Config, epNum: string, lang: string, tracks: seq<Track>)
    returns (err: Option<string>, found: bool)
    modifies host`log
    ensures var t := LanguageTrace(host, path, cfg.dryRun, epNum, lang, tracks, |tracks|);
      host.log == old(host.log) + t.events && err == t.err
    ensures err == None ==> (found <==> exists j :: 0 <= j < |tracks| && Selected(tracks[j], lang))
  {
    var subsDir := SubsDirFor(path, lang);
    if !cfg.dryRun {
      var e := host.MkdirAll(subsDir);
      if e.Some? {
        LanguageTraceStops(host, path, cfg.dryRun, epNum, lang, tracks, 0, |tracks|);
        return Wrap("failed to create subtitle directory: ", e), false;
      }
    }
    err, found := ExtractTracks(host, path, cfg, epNum, lang, tracks, old(host.log));
  }

  /** Some track before `n` is selected for `lang`. */
  predicate SelectedBefore(tracks: seq<Track>, lang: string, n: nat)
    requires n <= |tracks|
  {
    exists j :: 0 <= j < n && Selected(tracks[j], lang)
  }

  lemma SelectedBeforeStep(tracks: seq<Track>, lang: string, i: nat)
    requires i < |tracks|
    ensures SelectedBefore(tracks, lang, i + 1) <==> SelectedBefore(tracks, lang, i) || Selected(tracks[i], lang)
  {
  }

  /** The track loop of one language, once its folder exists. */
  method ExtractTracks(host: Host, path: string, cfg: Config, epNum: string, lang: string, tracks: seq<Track>,
                       ghost log0: seq<Event>)
    returns (err: Option<string>, found: bool)
    requires var t := LanguageTrace(host, path, cfg.dryRun, epNum, lang, tracks, 0);
      t.err == None && host.log == log0 + t.events
    modifies host`log
    ensures var t := LanguageTrace(host, path, cfg.dryRun, epNum, lang, tracks, |tracks|);
      host.log == log0 + t.events && err == t.err
    ensures err == None ==> (found <==> SelectedBefore(tracks, lang, |tracks|))
  {
    found := false;
    var i := 0;
    while i < |tracks|
      invariant 0 <= i <= |tracks|
      invariant var t := LanguageTrace(host, path, cfg.dryRun, epNum, lang, tracks, i);
        t.err == None && host.log == log0 + t.events
      invariant found <==> SelectedBefore(tracks, lang, i)
    {
      var e := ExtractNext(host, path, cfg, epNum, lang, tracks, i, log0);
      if e.Some? {
        LanguageTraceStops(host, path, cfg.dryRun, epNum, lang, tracks, i + 1, |tracks|);
        return e, true;
      }
      SelectedBeforeStep(tracks, lang, i);
      found := found || Selected(tracks[i], lang);
      i := i + 1;
    }
    err := None;
  }

  /** The languages of `RunExtract` in order, up to the first failure;
      `found` tells whether a track was selected for any of them. */
  method ExtractLanguages(host: Host, path: string, cfg: Config, epNum: string, tracks: seq<Track>, languages: seq<string>)
    returns (err: Option<string>, found: bool)
    modifies host`log
    ensures var t := ExtractRun(host, path, cfg.dryRun, epNum, tracks, languages, |languages|);
      host.log == old(host.log) + t.events && err == t.err
    ensures err == None ==> (found <==> SomeSelected(tracks, languages))
  {
    found := false;
    var li := 0;
    while li < |languages|
      invariant 0 <= li <= |languages|
      invariant var t := ExtractRun(host, path, cfg.dryRun, epNum, tracks, languages, li);
        t.err == None && host.log == old(host.log) + t.events
      invariant found <==> SomeSelected(tracks, languages[..li])
    {
      var e, foundHere := ExtractLanguage(host, path, cfg, epNum, languages[li], tracks);
      Text.AppendAssoc(old(host.log), ExtractRun(host, path, cfg.dryRun, epNum, tracks, languages, li).events,
                  LanguageTrace(host, path, cfg.dryRun, epNum, languages[li], tracks, |tracks|).events);
      if e.Some? {
        ExtractRunStops(host, path, cfg.dryRun, epNum, tracks, languages, li + 1, |languages|);
        return e, true;
      }
      SomeSelectedStep(tracks, languages, li);
      found := found || foundHere;
      li := li + 1;
    }
    assert languages[..li] == languages;
    err := None;
  }

  /** `RunExtract`: every track selected for a requested language is
      extracted, language by language, up to the first failure; "skipped"
      when no track is selected for any language. */
  method RunExtract(host: Host, path: string, cfg: Config) returns (err: Option<string>)
    modifies host`log
    ensures host.inspect(path).Failure? ==> err == Some(host.inspect(path).error) && host.log == old(host.log)
    ensures host.inspect(path).Success? ==>
      var tracks := host.inspect(path).value.tracks;
      var langs := RequestedLanguages(cfg);
      var t := ExtractRun(host, path, cfg.dryRun, Parser.GetEpisodeNumber(Base(path)), tracks, langs, |langs|);
      && host.log == old(host.log) + t.events
      && err == (if t.err.Some? then t.err else if SomeSelected(tracks, langs) then None else Some(SkippedError))
  {
    var info := host.inspect(path);
    if info.Failure? {
      return Some(info.error);
    }
    var epNum := Parser.GetEpisodeNumber(Base(path));
    var e, overallFound := ExtractLanguages(host, path, cfg, epNum, info.value.tracks, RequestedLanguages(cfg));
    if e.Some? {
      return e;
    }
    if !overallFound {
      return Some(SkippedError);
    }
    return None;
  }

  lemma SomeSelectedStep(tracks: seq<Track>, langs: seq<string>, li: nat)
    requires li < |langs|
    ensures SomeSelected(tracks, langs[..li + 1])
        <==> SomeSelected(tracks, langs[..li]) || exists j :: 0 <= j < |tracks| && Selected(tracks[j], langs[li])
  {
    var a, b := langs[..li], langs[..li + 1];
    assert forall l :: 0 <= l < li ==> b[l] == a[l];
    assert b[li] == langs[li];
  }

  /** In a dry run a language creates no folder and runs nothing. */
  lemma {:induction false} DryLanguageRunsNothing(host: Host, path: string, epNum: string, lang: string, tracks: seq<Track>, n: nat)
    requires n <= |tracks|
    ensures LanguageTrace(host, path, true, epNum, lang, tracks, n) == Trace([], None)
  {
    if n > 0 {
      DryLanguageRunsNothing(host, path, epNum, lang, tracks, n - 1);
    }
  }

  /** In a dry run the extraction creates no folder, runs nothing and does
      not fail. */
  lemma {:induction false} DryExtractRunsNothing(host: Host, path: string, epNum: string, tracks: seq<Track>, langs: seq<string>, k: nat)
    requires k <= |langs|
    ensures ExtractRun(host, path, true, epNum, tracks, langs, k) == Trace([], None)
  {
    if k > 0 {
      DryExtractRunsNothing(host, path, epNum, tracks, langs, k - 1);
      DryLanguageRunsNothing(host, path, epNum, langs[k - 1], tracks, |tracks|);
    }
  }

  /** Two tracks that are neither forced nor signs never share a file name. */
  lemma ExtractNamesDistinct(epNum: string, lang: string, s: Track, t: Track, i: nat, j: nat)
    requires i != j && !IsForcedTrack(s) && !IsForcedTrack(t)
    ensures OutputName(epNum, lang, s, i) != OutputName(epNum, lang, t, j)
  {
    var p := epNum + "_" + lang;
    var a, b := OutputName(epNum, lang, s, i), OutputName(epNum, lang, t, j);
    var sa, sb := TrackSuffix(s, i), TrackSuffix(t, j);
    if a == b {
      assert a[..|a| - 4] == p + sa;
      assert b[..|b| - 4] == p + sb;
      assert sa == (p + sa)[|p|..] == (p + sb)[|p|..] == sb;
      if i > 0 && j > 0 {
        assert Text.NatToString(i) == sa[1..] == sb[1..] == Text.NatToString(j);
        Text.NatToStringInjective(i, j);
      }
    }
  }

  /** Forced and sign tracks with the same kind of codec are all extracted to
      the same file name, so the last of them is the one left on disk. */
  lemma ForcedTracksShareName(epNum: string, lang: string, s: Track, t: Track, i: nat, j: nat)
    requires IsForcedTrack(s) && IsForcedTrack(t) && SubtitleExt(s.codec) == SubtitleExt(t.codec)
    ensures OutputName(epNum, lang, s, i) == OutputName(epNum, lang, t, j)
  {
  }
}
