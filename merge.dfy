/** `RunMerge` and `runMkvMergeStandard`: an external subtitle chosen from
    the subtitle folder is merged, as the default track, into a copy of the
    container under the output root, with the kept audio tracks and the fonts
    found next to the subtitle. */
module Merge {
  import opened Wrappers
  import opened Paths
  import Text
  import opened Settings
  import Parser
  import opened Engine

  /** A subtitle-folder entry belongs to an episode and a language when its
      name starts with the episode number, holds the language and is not an
      XML file. */
  predicate IsSubtitleFor(name: string, epNum: string, lang: string)
  {
    Text.HasPrefix(name, epNum) && Text.Contains(name, lang) && !Text.HasSuffix(name, ".xml")
  }

  /** The index of the first entry from `i` on that belongs to the episode
      and language, if there is one. */
  function FirstSubtitleFrom(names: seq<string>, epNum: string, lang: string, i: nat): (r: Option<nat>)
    requires i <= |names|
    ensures r.Some? ==> i <= r.value < |names| && IsSubtitleFor(names[r.value], epNum, lang)
    ensures r.Some? ==> forall k :: i <= k < r.value ==> !IsSubtitleFor(names[k], epNum, lang)
    ensures r.None? ==> forall k :: i <= k < |names| ==> !IsSubtitleFor(names[k], epNum, lang)
    decreases |names| - i
  {
    if i == |names| then None
    else if IsSubtitleFor(names[i], epNum, lang) then Some(i)
    else FirstSubtitleFrom(names, epNum, lang, i + 1)
  }

  /** The folder external subtitles come from: `subsDir`, else
      `<dir of the container>/subs/<lang>`. */
  function SubtitleSource(path: string, cfg: Config): (r: string)
    ensures cfg.subsDir != "" ==> r == cfg.subsDir
    ensures cfg.subsDir == "" ==> r == SubsDirFor(path, cfg.lang)
  {
    if cfg.subsDir != "" then cfg.subsDir else SubsDirFor(path, cfg.lang)
  }

  /** The subtitle `RunMerge` merges: the first fitting entry of the folder,
      joined to it; a folder that cannot be read is an error, and a missing
      folder or no fitting entry means "skipped". */
  function ChooseSubtitle(listing: Listing, src: string, epNum: string, lang: string): (r: Result<string, string>)
    ensures listing.Unreadable? ==> r == Failure("cannot read subtitle directory: " + listing.reason)
    ensures listing.Missing? ==> r == Failure(SkippedError)
    ensures listing.Entries? ==> match FirstSubtitleFrom(listing.names, epNum, lang, 0)
      case None => r == Failure(SkippedError)
      case Some(k) => r == Success(Join(src, listing.names[k]))
  {
    match listing
    case Unreadable(reason) => Failure("cannot read subtitle directory: " + reason)
    case Missing => Failure(SkippedError)
    case Entries(names) =>
      match FirstSubtitleFrom(names, epNum, lang, 0)
      case None => Failure(SkippedError)
      case Some(k) => Success(Join(src, names[k]))
  }

  /** The scan of the folder entries, stopping at the first that fits. */
  method FindSubtitle(names: seq<string>, src: string, epNum: string, lang: string)
    returns (hasExternalSub: bool, subFile: string)
    ensures hasExternalSub <==> FirstSubtitleFrom(names, epNum, lang, 0).Some?
    ensures hasExternalSub ==> subFile == Join(src, names[FirstSubtitleFrom(names, epNum, lang, 0).value])
  {
    hasExternalSub, subFile := false, "";
    var i := 0;
    while i < |names|
      invariant 0 <= i <= |names|
      invariant FirstSubtitleFrom(names, epNum, lang, 0) == FirstSubtitleFrom(names, epNum, lang, i)
    {
      if IsSubtitleFor(names[i], epNum, lang) {
        subFile := Join(src, names[i]);
        hasExternalSub := true;
        break;
      }
      i := i + 1;
    }
  }

  /** The root merged copies go to: `outDir`, else `<folder>_<lang>` joined
      onto the input folder's `Dir`. That is beside the folder when its path
      ends in a name, and inside it when the path is "." or ends in '/'. */
  function MergeOutputRoot(cfg: Config): string
  {
    if cfg.outDir != "" then cfg.outDir else Join(Dir(cfg.dir), Base(cfg.dir) + "_" + cfg.lang)
  }

  /** Without `outDir`, the root's last element is the input folder's with
      "_<lang>" appended, and the root lies in the input folder's `Dir` (in
      the root directory "/" it is "/<leaf>"). */
  lemma MergeRootIsSibling(cfg: Config)
    requires cfg.outDir == ""
    ensures var leaf := Base(cfg.dir) + "_" + cfg.lang;
      MergeOutputRoot(cfg) ==
        (if Dir(cfg.dir) == "." then leaf
         else if Dir(cfg.dir) == "/" then "/" + leaf
         else Dir(cfg.dir) + "/" + leaf)
    ensures Text.HasSuffix(MergeOutputRoot(cfg), "_" + cfg.lang)
    ensures Base(cfg.dir) != "/" && '/' !in cfg.lang ==>
      Base(MergeOutputRoot(cfg)) == Base(cfg.dir) + "_" + cfg.lang && Dir(MergeOutputRoot(cfg)) == Dir(cfg.dir)
  {
    var dir := Dir(cfg.dir);
    MergeRootForm(cfg);
    LeafEndsWithLanguage(if dir == "." then "" else if dir == "/" then "/" else dir + "/", Base(cfg.dir), cfg.lang);
    if Base(cfg.dir) != "/" && '/' !in cfg.lang {
      MergeRootSplits(cfg);
    }
  }

  /** The root is the folder's `Dir`, a separator unless that is "." or "/",
      and the leaf. */
  lemma MergeRootForm(cfg: Config)
    requires cfg.outDir == ""
    ensures var dir, leaf := Dir(cfg.dir), Base(cfg.dir) + "_" + cfg.lang;
      MergeOutputRoot(cfg) == (if dir == "." then "" else if dir == "/" then "/" else dir + "/") + leaf
  {
    var leaf := Base(cfg.dir) + "_" + cfg.lang;
    BaseShape(cfg.dir);
    assert |leaf| >= 2;
    CleanTrailingShape(cfg.dir[..LastSlash(cfg.dir) + 1]);
  }

  /** For a leaf without slashes, `Base` and `Dir` take the root apart again. */
  lemma MergeRootSplits(cfg: Config)
    requires cfg.outDir == "" && Base(cfg.dir) != "/" && '/' !in cfg.lang
    ensures Base(MergeOutputRoot(cfg)) == Base(cfg.dir) + "_" + cfg.lang
    ensures Dir(MergeOutputRoot(cfg)) == Dir(cfg.dir)
  {
    var leaf := Base(cfg.dir) + "_" + cfg.lang;
    assert leaf != "" && leaf != "." && '/' !in leaf by {
      BaseShape(cfg.dir);
      LeafHasNoSlash(Base(cfg.dir), cfg.lang);
      assert |leaf| >= 2;
    }
    JoinOntoDir(cfg.dir, leaf);
  }

  /** For the current directory "." the root is "._<lang>", inside it:
      `Base(".")` and `Dir(".")` are both ".". */
  lemma MergeRootInCurrentFolder(cfg: Config)
    requires cfg.outDir == "" && cfg.dir == "."
    ensures MergeOutputRoot(cfg) == "._" + cfg.lang
  {
    BaseShape(cfg.dir);
    DirOfName(cfg.dir);
  }

  /** For a folder path ending in '/', `Dir` is the folder itself, so the root
      lands inside it: "anime/" gives "anime/anime_<lang>". */
  lemma MergeRootInsideFolder(cfg: Config)
    requires cfg.outDir == ""
    requires |cfg.dir| > 0 && cfg.dir[|cfg.dir| - 1] == '/' && StripTrailingSlashes(cfg.dir) != ""
    requires '/' !in cfg.lang
    ensures Dir(MergeOutputRoot(cfg)) == StripTrailingSlashes(cfg.dir)
    ensures Base(MergeOutputRoot(cfg)) == Base(cfg.dir) + "_" + cfg.lang
  {
    var leaf := Base(cfg.dir) + "_" + cfg.lang;
    DirOfFolderPath(cfg.dir);
    BaseShape(cfg.dir);
    LeafHasNoSlash(Base(cfg.dir), cfg.lang);
    assert leaf != "." by {
      assert |leaf| >= 2;
    }
    JoinSplits(Dir(cfg.dir), leaf);
    CleanTrailingIdempotent(cfg.dir);
  }

  lemma LeafEndsWithLanguage(pre: string, base: string, lang: string)
    ensures Text.HasSuffix(pre + (base + "_" + lang), "_" + lang)
  {
    var r := pre + (base + "_" + lang);
    assert r == (pre + base) + ("_" + lang);
    assert r[|r| - |"_" + lang|..] == "_" + lang;
  }

  lemma LeafHasNoSlash(base: string, lang: string)
    requires '/' !in base && '/' !in lang
    ensures '/' !in base + "_" + lang
  {
    var leaf := base + "_" + lang;
    forall k | 0 <= k < |leaf|
      ensures leaf[k] != '/'
    {
      if k < |base| {
        assert leaf[k] == base[k];
      } else if k > |base| {
        assert leaf[k] == lang[k - |base| - 1];
      }
    }
  }

  /** The directory a merged copy goes to: the output root followed by the
      container's folder relative to the input folder. */
  function MergeOutputDir(host: Host, cfg: Config, path: string): string
  {
    Join(MergeOutputRoot(cfg), Dir(host.relative(cfg.dir, path)))
  }

  /** An audio track in the language to keep. */
  predicate IsKeptAudio(t: Track, keep: string)
  {
    t.kind == "audio" && t.props.lang == keep
  }

  /** The ids of the kept audio tracks, in track order. */
  function AudioIds(tracks: seq<Track>, keep: string): (r: seq<string>)
    ensures |r| <= |tracks|
  {
    if tracks == [] then []
    else
      var last := tracks[|tracks| - 1];
      AudioIds(tracks[..|tracks| - 1], keep) + (if IsKeptAudio(last, keep) then [Text.IntToString(last.id)] else [])
  }

  /** The id list of two runs of tracks is the lists of each, in order. */
  lemma {:induction false} AudioIdsAppend(a: seq<Track>, b: seq<Track>, keep: string)
    ensures AudioIds(a + b, keep) == AudioIds(a, keep) + AudioIds(b, keep)
    decreases |b|
  {
    if b == [] {
      assert a + b == a;
    } else {
      var init := b[..|b| - 1];
      assert (a + b)[..|a + b| - 1] == a + init;
      AudioIdsAppend(a, init, keep);
      var last := if IsKeptAudio(b[|b| - 1], keep) then [Text.IntToString(b[|b| - 1].id)] else [];
      Text.AppendAssoc(AudioIds(a, keep), AudioIds(init, keep), last);
    }
  }

  /** Some kept audio track carries the id `x`. */
  predicate CarriesId(tracks: seq<Track>, keep: string, x: string)
  {
    exists j :: 0 <= j < |tracks| && IsKeptAudio(tracks[j], keep) && x == Text.IntToString(tracks[j].id)
  }

  lemma CarriesIdStep(tracks: seq<Track>, keep: string, x: string)
    requires tracks != []
    ensures var last := tracks[|tracks| - 1];
      (CarriesId(tracks, keep, x)
       <==> CarriesId(tracks[..|tracks| - 1], keep, x) || (IsKeptAudio(last, keep) && x == Text.IntToString(last.id)))
  {
    var init := tracks[..|tracks| - 1];
    assert forall j :: 0 <= j < |init| ==> init[j] == tracks[j];
  }

  /** An id is listed exactly when a kept audio track carries it. */
  lemma {:induction false} AudioIdsListKept(tracks: seq<Track>, keep: string, x: string)
    ensures x in AudioIds(tracks, keep) <==> CarriesId(tracks, keep, x)
  {
    if tracks != [] {
      AudioIdsListKept(tracks[..|tracks| - 1], keep, x);
      CarriesIdStep(tracks, keep, x);
    }
  }

  /** The loop over the tracks gathering the kept audio ids. */
  method CollectAudioIds(tracks: seq<Track>, keep: string) returns (ids: seq<string>)
    ensures ids == AudioIds(tracks, keep)
  {
    ids := [];
    var i := 0;
    while i < |tracks|
      invariant 0 <= i <= |tracks|
      invariant ids == AudioIds(tracks[..i], keep)
    {
      assert tracks[..i + 1][..i] == tracks[..i];
      if IsKeptAudio(tracks[i], keep) {
        ids := ids + [Text.IntToString(tracks[i].id)];
      }
      i := i + 1;
    }
    assert tracks[..i] == tracks;
  }

  /** "--audio-tracks <ids>" when an audio language is kept and some track
      has it, else nothing. */
  function AudioArgs(tracks: seq<Track>, keep: string): (r: seq<string>)
    ensures r == [] <==> keep == "" || AudioIds(tracks, keep) == []
    ensures r != [] ==> |r| == 2 && r[0] == "--audio-tracks"
  {
    var ids := AudioIds(tracks, keep);
    if keep != "" && |ids| > 0 then ["--audio-tracks", Text.Join(ids, ',')] else []
  }

  /** Printed ids hold no comma, so the comma-joined list splits back into
      the ids. */
  lemma AudioTrackListSplits(tracks: seq<Track>, keep: string)
    requires AudioArgs(tracks, keep) != []
    ensures Text.Split(AudioArgs(tracks, keep)[1], ',') == AudioIds(tracks, keep)
  {
    var ids := AudioIds(tracks, keep);
    forall k | 0 <= k < |ids|
      ensures ',' !in ids[k]
    {
      AudioIdsListKept(tracks, keep, ids[k]);
      var j :| 0 <= j < |tracks| && IsKeptAudio(tracks[j], keep) && ids[k] == Text.IntToString(tracks[j].id);
      assert ids[k] == Text.IntToString(tracks[j].id);
    }
    Text.SplitJoin(ids, ',');
  }

  /** "--attach-file <font>" for every font, in order. */
  function FontArgs(fonts: seq<string>): (r: seq<string>)
    ensures |r| == 2 * |fonts|
  {
    if fonts == [] then []
    else FontArgs(fonts[..|fonts| - 1]) + ["--attach-file", fonts[|fonts| - 1]]
  }

  /** Every font is attached by its own "--attach-file" pair. */
  lemma {:induction false} FontArgsPairs(fonts: seq<string>)
    ensures forall k :: 0 <= k < |fonts| ==> FontArgs(fonts)[2 * k] == "--attach-file" && FontArgs(fonts)[2 * k + 1] == fonts[k]
  {
    if fonts != [] {
      var init := fonts[..|fonts| - 1];
      FontArgsPairs(init);
      forall k | 0 <= k < |fonts|
        ensures FontArgs(fonts)[2 * k] == "--attach-file" && FontArgs(fonts)[2 * k + 1] == fonts[k]
      {
        if k < |init| {
          assert fonts[k] == init[k];
        }
      }
    }
  }

  /** The loop appending the font arguments. */
  method AppendFontArgs(args: seq<string>, fonts: seq<string>) returns (r: seq<string>)
    ensures r == args + FontArgs(fonts)
  {
    r := args;
    var i := 0;
    while i < |fonts|
      invariant 0 <= i <= |fonts|
      invariant r == args + FontArgs(fonts[..i])
    {
      assert fonts[..i + 1][..i] == fonts[..i];
      Text.AppendAssoc(args, FontArgs(fonts[..i]), ["--attach-file", fonts[i]]);
      r := r + ["--attach-file", fonts[i]];
      i := i + 1;
    }
    assert fonts[..i] == fonts;
  }

  /** The pattern of the font files next to the subtitles. */
  function FontPattern(src: string): string
  {
    Join(src, "*.[ot]t[f]")
  }

  /** "0:yes" when the subtitle file name, ignoring case, mentions "forced"
      or "sign", else "0:no". */
  function ForcedFlag(subFile: string): (r: string)
    ensures r == "0:yes" || r == "0:no"
  {
    var lower := Text.ToLower(subFile);
    if Text.Contains(lower, "forced") || Text.Contains(lower, "sign") then "0:yes" else "0:no"
  }

  /** The `mkvmerge` arguments: output, kept audio, the container without
      its subtitles, the fonts, then the subtitle as the default track. */
  function MergeArgs(outFile: string, audio: seq<string>, path: string, fonts: seq<string>, lang: string, subFile: string): seq<string>
  {
    ["-o", outFile] + audio + ["--no-subtitles", path] + FontArgs(fonts)
      + ["--language", "0:" + lang, "--track-name", "0:" + Text.ToUpper(lang),
         "--default-track", "0:yes", "--forced-display-flag", ForcedFlag(subFile), subFile]
  }

  /** Where each argument sits: the output after "-o", the container after
      "--no-subtitles", the subtitle last and marked default. */
  lemma MergeArgsLayout(outFile: string, audio: seq<string>, path: string, fonts: seq<string>, lang: string, subFile: string)
    ensures var r := MergeArgs(outFile, audio, path, fonts, lang, subFile);
      var n := 4 + |audio| + 2 * |fonts|;
      && |r| == n + 9
      && r[0] == "-o" && r[1] == outFile
      && r[2 .. 2 + |audio|] == audio
      && r[2 + |audio|] == "--no-subtitles" && r[3 + |audio|] == path
      && r[4 + |audio| .. n] == FontArgs(fonts)
      && r[n] == "--language" && r[n + 1] == "0:" + lang
      && r[n + 5] == "0:yes" && r[n + 7] == ForcedFlag(subFile)
      && r[n + 8] == subFile
  {
    var a := ["-o", outFile] + audio;
    var b := a + ["--no-subtitles", path];
    var c := b + FontArgs(fonts);
    assert c[..|a|] == a && c[..|b|] == b;
  }

  /** Running one command: nothing in a dry run, else the command and its
      failure as `execute` reports it. */
  function ExecTrace(host: Host, dryRun: bool, cmd: Command): (r: Trace)
    ensures dryRun ==> r == Trace([], None)
  {
    if dryRun then Trace([], None)
    else Trace([Ran(cmd)], Wrap(cmd.tool + " command failed: ", host.runError(cmd)))
  }

  /** `runMkvMergeStandard`: read the metadata, create the output folder
      (not in a dry run), then the rest in `MergeToolTrace`; each step's
      failure ends it with its own message. */
  function MergeTrace(host: Host, cfg: Config, path: string, subFile: string, src: string): Trace
  {
    match host.inspect(path)
    case Failure(e) => Trace([], Some("failed to read MKV metadata: " + e))
    case Success(info) =>
      var outDir := MergeOutputDir(host, cfg, path);
      var made := if cfg.dryRun then Trace([], None)
                  else Trace([MadeDir(outDir)], Wrap("failed to create output directory: ", host.mkdirError(outDir)));
      Then(made, MergeToolTrace(host, cfg, path, subFile, src, info.tracks, outDir))
  }

  /** Look for fonts next to the subtitles, then run `mkvmerge`. */
  function MergeToolTrace(host: Host, cfg: Config, path: string, subFile: string, src: string, tracks: seq<Track>, outDir: string): Trace
  {
    match host.glob(FontPattern(src))
    case Failure(e) => Trace([], Some("failed to search for fonts: " + e))
    case Success(fonts) =>
      ExecTrace(host, cfg.dryRun, Command("mkvmerge",
        MergeArgs(Join(outDir, Base(path)), AudioArgs(tracks, cfg.keepAudio), path, fonts, cfg.lang, subFile)))
  }

  /** The argument building of `runMkvMergeStandard`, step by step. */
  method BuildMergeArgs(outFile: string, tracks: seq<Track>, keep: string, path: string, fonts: seq<string>, lang: string, subFile: string)
    returns (args: seq<string>)
    ensures args == MergeArgs(outFile, AudioArgs(tracks, keep), path, fonts, lang, subFile)
  {
    args := ["-o", outFile];
    if keep != "" {
      var audioIds := CollectAudioIds(tracks, keep);
      if |audioIds| > 0 {
        args := args + ["--audio-tracks", Text.Join(audioIds, ',')];
      }
    }
    assert args == ["-o", outFile] + AudioArgs(tracks, keep);
    args := args + ["--no-subtitles", path];
    args := AppendFontArgs(args, fonts);
    var forcedFlag := "0:no";
    if Text.Contains(Text.ToLower(subFile), "forced") || Text.Contains(Text.ToLower(subFile), "sign") {
      forcedFlag := "0:yes";
    }
    args := args + ["--language", "0:" + lang, "--track-name", "0:" + Text.ToUpper(lang),
                    "--default-track", "0:yes", "--forced-display-flag", forcedFlag, subFile];
  }

  /** `runMkvMergeStandard`. */
  method MergeStandard(host: Host, path: string, subFile: string, src: string, cfg: Config) returns (err: Option<string>)
    modifies host`log
    ensures var t := MergeTrace(host, cfg, path, subFile, src);
      host.log == old(host.log) + t.events && err == t.err
  {
    var info := host.inspect(path);
    if info.Failure? {
      return Some("failed to read MKV metadata: " + info.error);
    }
    var outRoot := cfg.outDir;
    if outRoot == "" {
      outRoot := Join(Dir(cfg.dir), Base(cfg.dir) + "_" + cfg.lang);
    }
    var relPath := host.relative(cfg.dir, path);
    var finalOutDir := Join(outRoot, Dir(relPath));
    assert finalOutDir == MergeOutputDir(host, cfg, path);
    if !cfg.dryRun {
      var e := host.MkdirAll(finalOutDir);
      if e.Some? {
        return Wrap("failed to create output directory: ", e);
      }
    }
    ghost var log1 := host.log;
    err := RunMergeTool(host, cfg, path, subFile, src, info.value.tracks, finalOutDir);
    Text.AppendAssoc(old(host.log), log1[|old(host.log)|..], MergeToolTrace(host, cfg, path, subFile, src, info.value.tracks, finalOutDir).events);
  }

  /** The font search and the `mkvmerge` run of `runMkvMergeStandard`. */
  method RunMergeTool(host: Host, cfg: Config, path: string, subFile: string, src: string, tracks: seq<Track>, outDir: string)
    returns (err: Option<string>)
    modifies host`log
    ensures var t := MergeToolTrace(host, cfg, path, subFile, src, tracks, outDir);
      host.log == old(host.log) + t.events && err == t.err
  {
    var fonts := host.glob(FontPattern(src));
    if fonts.Failure? {
      return Some("failed to search for fonts: " + fonts.error);
    }
    var args := BuildMergeArgs(Join(outDir, Base(path)), tracks, cfg.keepAudio, path, fonts.value, cfg.lang, subFile);
    err := Execute(host, cfg, "mkvmerge", args);
  }

  /** `RunMerge`: the subtitle chosen from the source folder is merged; a
      folder that cannot be read, or no fitting subtitle, ends the operation
      before anything runs. */
  method RunMerge(host: Host, path: string, cfg: Config) returns (err: Option<string>)
    modifies host`log
    ensures var src := SubtitleSource(path, cfg);
      var choice := ChooseSubtitle(host.listing(src), src, Parser.GetEpisodeNumber(Base(path)), cfg.lang);
      && (choice.Failure? ==> err == Some(choice.error) && host.log == old(host.log))
      && (choice.Success? ==>
            var t := MergeTrace(host, cfg, path, choice.value, src);
            host.log == old(host.log) + t.events && err == t.err)
  {
    var epNum := Parser.GetEpisodeNumber(Base(path));
    var subsSource := cfg.subsDir;
    if subsSource == "" {
      subsSource := SubsDirFor(path, cfg.lang);
    }
    var listing := host.listing(subsSource);
    if listing.Unreadable? {
      return Some("cannot read subtitle directory: " + listing.reason);
    }
    var entries := if listing.Entries? then listing.names else [];
    var hasExternalSub, subFile := FindSubtitle(entries, subsSource, epNum, cfg.lang);
    if !hasExternalSub {
      return Some(SkippedError);
    }
    err := MergeStandard(host, path, subFile, subsSource, cfg);
  }

  /** A subtitle extracted for a language is one `RunMerge` accepts for the
      same episode and language. */
  lemma ExtractedNameIsMergeCandidate(epNum: string, lang: string, t: Track, i: nat)
    ensures IsSubtitleFor(OutputName(epNum, lang, t, i), epNum, lang)
  {
    NamedForEpisode(epNum, lang, TrackSuffix(t, i), SubtitleExt(t.codec));
  }

  /** `<ep>_<lang><suffix><ext>` with a subtitle extension belongs to the
      episode and the language. */
  lemma NamedForEpisode(epNum: string, lang: string, suffix: string, ext: string)
    requires ext == ".ass" || ext == ".srt"
    ensures IsSubtitleFor(epNum + "_" + lang + suffix + ext, epNum, lang)
  {
    var name := epNum + "_" + lang + suffix + ext;
    assert name[..|epNum|] == epNum;
    assert Text.OccursAt(name, lang, |epNum| + 1) by {
      assert name[|epNum| + 1..|epNum| + 1 + |lang|] == lang;
    }
    assert name[|name| - 4..] == ext;
  }

  /** A forced or sign subtitle written by the extraction is merged with the
      forced display flag set. */
  lemma ExtractedForcedIsFlagged(src: string, epNum: string, lang: string, t: Track, i: nat)
    requires IsForcedTrack(t)
    ensures ForcedFlag(Join(src, OutputName(epNum, lang, t, i))) == "0:yes"
  {
    var name := OutputName(epNum, lang, t, i);
    var ext := SubtitleExt(t.codec);
    var pre := if src == "" || src == "." then "" else if src[|src| - 1] == '/' then src else src + "/";
    assert name == epNum + "_" + lang + "_forced" + ext;
    assert Join(src, name) == pre + name;
    MentionsForced(pre, epNum + "_" + lang, ext);
  }

  /** A name holding "_forced" mentions "forced" once lower-cased. */
  lemma MentionsForced(pre: string, mid: string, ext: string)
    ensures Text.Contains(Text.ToLower(pre + (mid + "_forced" + ext)), "forced")
  {
    var file := pre + (mid + "_forced" + ext);
    var lower := Text.ToLower(file);
    var p := |pre| + |mid| + 1;
    forall k | 0 <= k < 6
      ensures lower[p + k] == "forced"[k]
    {
      assert file[p + k] == "forced"[k];
    }
    assert lower[p..p + 6] == "forced";
    assert Text.OccursAt(lower, "forced", p);
  }

  /** In a dry run the merge creates no folder and runs nothing. */
  lemma DryMergeRunsNothing(host: Host, cfg: Config, path: string, subFile: string, src: string)
    requires cfg.dryRun
    ensures MergeTrace(host, cfg, path, subFile, src).events == []
  {
  }
}
