# mkvtea core, modelled in Dafny

mkvtea is a command-line tool for folders of Matroska (`.mkv`) anime episodes.
It runs in one of two modes:

- **extract** copies each container's subtitle tracks in the requested
  languages into `subs/<lang>` next to the container, using `mkvextract`;
- **merge** finds the external subtitle of an episode in a subtitle folder and
  muxes it into a copy under an output root, using `mkvmerge`. The copy can
  keep one audio language and attach the fonts of the subtitle folder.

The files are found by scanning a directory, with or without recursion. Each
output file is named after the episode number found in the container's name.
A processing screen works through the files, one log line per file, with a
count of successes, skips and failures. A checkpoint file
(`.mkvtea_checkpoint.json`) records what is finished, every N files, so that
an interrupted run can be resumed. A watch mode starts a single-file run for
each container that appears in a watched folder once it has been quiet for a
second.

The model has one module per component of the program:

| module | file | models |
|---|---|---|
| `Settings` | settings.dfy | the run configuration (`config.Config`) and the language fallback |
| `Checkpoint` | checkpoint.dfy | the checkpoint record, its store and `Manager` |
| `Parser` | parser.dfy | the episode-number pattern as a leftmost-first search |
| `Engine` | engine.dfy | `RunExtract` and the tool runner |
| `Merge` | merge.dfy | `RunMerge` and `runMkvMergeStandard` |
| `Scanner` | scanner.dfy | `ScanFiles` over a tree of directory entries |
| `Commands` | root.dfy | the worker count and `processFiles` |
| `Processor` | processor.dfy | `RunProcessTUI`'s resume decision |
| `Ui` | ui.dfy | the processing screen's model and its per-file bookkeeping |
| `Rendering` | rendering.dfy | `renderLogs` on UTF-8 bytes |
| `Watcher` | watcher.dfy | `FileWatcher`'s buffer, sweep and de-duplication |

`Text`, `Paths` and `Wrappers` hold what the core uses from Go's `strings`
and `path/filepath` packages, plus `Option`/`Result`.

Objects the program updates in place are classes:

- the checkpoint manager and its store;
- the host the tools run on;
- the processing model;
- the file watcher.

The program's own loops are methods. Each is proved against a function that
states its result, and the properties are proved about those functions.

Two things are parameters of the model:

- **The outside world.** A `Host` answers metadata queries, directory
  listings, globs and relative paths by fixed functions. Its `log` records
  every directory created and every tool run.
- **Concurrency.** The workers of a run are stood for by the order in which
  files complete.

## Model

| member | source | states |
|---|---|---|
| Settings.RequestedLanguages | internal/mkv/engine.go:67-70 | the languages an extraction works on: `Languages`, else `[Lang]`, and none only when both are empty |
| Settings.PrimaryLanguage | internal/ui/processing.go:86-101 | the language the summary's output folders are named after: the first of `Languages`, else `Lang` |
| Checkpoint.Decode | internal/checkpoint/checkpoint.go:74-90 | loading succeeds exactly for a missing or stored file; a stored file yields its checkpoint |
| Checkpoint.NewCheckpoint | internal/checkpoint/checkpoint.go:93-109 | a new checkpoint has no records, the given total, and starts and is last saved at the creation time |
| Checkpoint.CheckpointStore.constructor | internal/checkpoint/checkpoint.go:63-71 | the checkpoint file is `.mkvtea_checkpoint.json` inside the run's directory |
| Checkpoint.Manager.constructor | internal/checkpoint/checkpoint.go:63-71 | a new manager has no active checkpoint |
| Checkpoint.Manager.Load | internal/checkpoint/checkpoint.go:74-90 | returns the decoded file and makes a stored checkpoint the active one; a missing file leaves it as it was |
| Checkpoint.Manager.Create | internal/checkpoint/checkpoint.go:93-112 | a fresh checkpoint for the run (mode, languages, directory, recursion, total, empty lists) becomes active and is written once |
| Checkpoint.Manager.AddSuccess | internal/checkpoint/checkpoint.go:115-127 | without an active checkpoint: the error "no active checkpoint" and no change; otherwise the file's base name and fingerprint are appended to the successful list only |
| Checkpoint.Manager.AddFailed | internal/checkpoint/checkpoint.go:130-143 | as `AddSuccess`, on the failed list, with the error text |
| Checkpoint.Manager.AddSkipped | internal/checkpoint/checkpoint.go:146-159 | as `AddSuccess`, on the skipped list, with the reason |
| Checkpoint.Manager.Save | internal/checkpoint/checkpoint.go:162-185 | without an active checkpoint an error and the file untouched; otherwise the last-saved time is set and the file replaced by the checkpoint in one write |
| Checkpoint.Manager.IsProcessed | internal/checkpoint/checkpoint.go:188-218 | true exactly when a checkpoint is active and some record of any list matches the file by base name or by fingerprint |
| Checkpoint.Manager.GetProcessedCount | internal/checkpoint/checkpoint.go:221-229 | 0 without a checkpoint, else the total length of the three lists |
| Checkpoint.Manager.GetStats | internal/checkpoint/checkpoint.go:232-240 | zeros without a checkpoint; otherwise the lengths of the successful, failed and skipped lists, in that order, adding up to the processed count |
| Checkpoint.Manager.Clear | internal/checkpoint/checkpoint.go:243-249 | the file is gone and no checkpoint is active, with no write |
| Checkpoint.SlicesEqual | internal/checkpoint/checkpoint.go:334-351 | the loop answers the language comparison: equal lengths and every requested language among the stored ones |
| Checkpoint.CanResume | internal/checkpoint/checkpoint.go:259-290 | on the checkpoint file of the run's directory: true only for a stored checkpoint of the same mode and recursion whose languages compare equal; a missing file is false, a broken one an error |
| Checkpoint.GetResumeStats | internal/checkpoint/checkpoint.go:293-316 | for a stored run: processed is the number of records and processed plus remaining is the stored total; a missing file gives zeros; an unreadable or unparsable file gives the load error |
| Checkpoint.FilterProcessedFiles | internal/checkpoint/checkpoint.go:319-331 | without a checkpoint every file is kept; otherwise the files no record matches, in their order |
| Checkpoint.AppendRecords | internal/checkpoint/checkpoint.go:115-159 | each of the three additions puts the file on record and adds one to the processed count |
| Checkpoint.AppendKeepsRecords | internal/checkpoint/checkpoint.go:115-159 | an addition keeps every file already on record |
| Checkpoint.Fingerprint | internal/checkpoint/checkpoint.go:252-256 | the digest of the lower-cased base name; its case blindness is `FingerprintIgnoresCase` |
| Checkpoint.EachAddCountsOnce | internal/checkpoint/checkpoint.go:115-159 | each addition lengthens only its own list, so each `Add` raises exactly its own count of `GetStats` |
| Checkpoint.AppendRecordsExactly | internal/checkpoint/checkpoint.go:115-159 | after an addition a file is on record exactly when it was before or the new record matches it |
| Checkpoint.FingerprintIgnoresCase | internal/checkpoint/checkpoint.go:252-256 | two names that differ only in case share a fingerprint although their base names differ |
| Checkpoint.UnprocessedMembers | internal/checkpoint/checkpoint.go:319-331 | a file survives the filter exactly when it is listed and not on record; the result is never longer |
| Checkpoint.Unprocessed | internal/checkpoint/checkpoint.go:319-331 | the listed files no record matches, in order; its members are `UnprocessedMembers` |
| Checkpoint.SameLanguagesUnderPermutation | internal/checkpoint/checkpoint.go:334-351 | reordering either language list does not change the comparison |
| Checkpoint.SameLanguagesIsNotSetEquality | internal/checkpoint/checkpoint.go:334-351 | `["eng","ita"]` stored and `["eng","eng"]` requested compare equal, the other way round they do not |
| Checkpoint.LanguageMatchExamples | internal/checkpoint/checkpoint.go:284-287 | `["eng","ita"]` matches `["ita","eng"]` and not `["eng"]` |
| Checkpoint.SameLanguages | internal/checkpoint/checkpoint.go:334-351 | equal lengths and every requested language among the stored ones; its loop is `SlicesEqual` |
| Checkpoint.ResumeCheck | internal/checkpoint/checkpoint.go:259-290 | the answer of `CanResume` for a file's contents; its contract is `CanResume`'s |
| Checkpoint.RemainingMayBeNegative | internal/checkpoint/checkpoint.go:305-315 | more records than the stored total give a negative remaining count |
| Engine.Host.MkdirAll | internal/mkv/engine.go:74-79 | the creation is logged and its error is the host's answer for that path |
| Engine.Host.Run | internal/mkv/engine.go:49-53 | the run is logged and its error is the host's answer for that command |
| Engine.Wrap | internal/mkv/engine.go:50-52 | a wrapped error exists exactly when there is an error, starts with the context and ends with the cause |
| Engine.Execute | internal/mkv/engine.go:44-54 | a dry run runs nothing and succeeds; otherwise one run of the tool, its failure reported as "<tool> command failed: ..." |
| Engine.Selected | internal/mkv/engine.go:82 | a subtitle track in the language or in "und"; used by `ExtractTracks` and `ExtractLanguages` |
| Engine.SubtitleExt | internal/mkv/engine.go:85-89 | the extension is ".ass" or ".srt" |
| Engine.TrackSuffix | internal/mkv/engine.go:91-96 | the suffix is "_forced", nothing, or "_<i>" for a later track |
| Engine.OutputName | internal/mkv/engine.go:98-99 | every extracted name starts with `<episode>_<lang>` |
| Engine.SubsDirFor | internal/mkv/engine.go:74 | the subtitle folder of a language is never the empty path |
| Engine.SubsDirBesideContainer | internal/mkv/engine.go:74 | for a plain language code the folder is `<lang>` inside a "subs" folder that lies in the container's folder, also for a container at the root |
| Engine.LanguageTraceStops | internal/mkv/engine.go:100-102 | after a failed extraction no later track of the language is attempted |
| Engine.LanguageTrace | internal/mkv/engine.go:74-104 | the folder creation and the extractions of one language up to the first failure; stated by `ExtractTracks`, `LanguageTraceStops` |
| Engine.ExtractRunStops | internal/mkv/engine.go:73-104 | after a failure no later language is attempted |
| Engine.ExtractRun | internal/mkv/engine.go:73-105 | the languages' traces in order up to the first failure; stated by `ExtractLanguages`, `ExtractRunStops` |
| Engine.ExtractNext | internal/mkv/engine.go:82-103 | one track: an extraction when selected (logged unless dry), nothing otherwise |
| Engine.ExtractTracks | internal/mkv/engine.go:81-104 | the track loop produces the language's trace, and a track was found exactly when one is selected |
| Engine.ExtractLanguage | internal/mkv/engine.go:73-104 | the subtitle folder is created unless dry, then the track loop; a folder failure stops the language |
| Engine.ExtractLanguages | internal/mkv/engine.go:65-104 | languages in order up to the first failure; found exactly when some track is selected for some language |
| Engine.RunExtract | internal/mkv/engine.go:57-111 | a metadata failure is returned with nothing done; otherwise the log is the extraction trace, the error its first failure, else "skipped" when no track was selected |
| Engine.DryLanguageRunsNothing | internal/mkv/engine.go:74-102 | a dry run of a language creates no folder and runs no tool |
| Engine.DryExtractRunsNothing | internal/mkv/engine.go:65-104 | a dry extraction does nothing to the file system and never fails |
| Engine.ExtractNamesDistinct | internal/mkv/engine.go:91-99 | unforced tracks at different positions get different file names |
| Engine.ForcedTracksShareName | internal/mkv/engine.go:91-99 | two forced tracks with the same extension get the same file name |
| Merge.FirstSubtitleFrom | internal/mkv/engine.go:131-137 | the first entry from `i` on whose name holds the episode number and the language, or none |
| Merge.SubtitleSource | internal/mkv/engine.go:117-121 | the subtitle folder is `SubsDir` when set, else the extraction folder of `Lang` |
| Merge.ChooseSubtitle | internal/mkv/engine.go:126-142 | an unreadable folder is an error, a missing one or no fitting entry is "skipped", otherwise the first fitting entry |
| Merge.FindSubtitle | internal/mkv/engine.go:131-137 | the listing loop finds a subtitle exactly when one fits, and returns the first one joined to the folder |
| Merge.MergeRootIsSibling | internal/mkv/engine.go:153-156 | without `OutDir` the output root is `<Dir(folder)>/<Base(folder)>_<lang>` (`/<leaf>` when `Dir` is "/", the bare leaf when it is "."); for a folder other than "/" and a slash-free language the root's `Base` is `<Base(folder)>_<lang>` and its `Dir` is the folder's `Dir` |
| Merge.MergeRootForm | internal/mkv/engine.go:153-156 | without `OutDir` the root is the folder's `Dir`, a '/' unless that is "." or "/", then `<Base(folder)>_<lang>` |
| Merge.MergeRootSplits | internal/mkv/engine.go:153-156 | for a folder other than "/" and a slash-free language, `Base` of the root is `<Base(folder)>_<lang>` and `Dir` of the root is the folder's `Dir` |
| Merge.MergeRootInCurrentFolder | internal/mkv/engine.go:153-156 | for the folder "." the root is "._<lang>", inside the current directory and not beside it |
| Merge.MergeRootInsideFolder | internal/mkv/engine.go:153-156 | for a folder path ending in '/' (not only slashes) and a slash-free language, the root's `Dir` is that folder without its trailing slashes, so the root is inside the folder; its `Base` is `<Base(folder)>_<lang>` |
| Paths.DirOfFolderPath | internal/mkv/engine.go:153-156 | `Dir` of a path ending in '/' (not only slashes) is the path without its trailing slashes, and its `Base` is not "/" |
| Paths.JoinOntoDir | internal/mkv/engine.go:153-156 | a slash-free name joined onto `Dir(path)` has that name as its `Base` and `Dir(path)` as its `Dir` |
| Merge.MergeOutputRoot | internal/mkv/engine.go:153-156 | `OutDir`, else `<Base(folder)>_<lang>` joined onto the folder's `Dir`: beside a folder whose path ends in a name, inside "." or a path ending in '/'; stated by `MergeRootIsSibling`, `MergeRootInCurrentFolder` and `MergeRootInsideFolder` |
| Merge.AudioIdsAppend | internal/mkv/engine.go:172-177 | the kept audio ids of two track lists are the ids of each, in order |
| Merge.AudioIds | internal/mkv/engine.go:172-177 | the kept audio ids in track order; stated by `AudioIdsAppend`, `AudioIdsListKept` |
| Merge.AudioIdsListKept | internal/mkv/engine.go:172-177 | an id is listed exactly when an audio track in the kept language carries it |
| Merge.CollectAudioIds | internal/mkv/engine.go:171-177 | the track loop collects exactly the kept audio ids, in track order |
| Merge.AudioArgs | internal/mkv/engine.go:171-181 | the audio option is present exactly when a language is kept and has tracks, then as "--audio-tracks" and one value |
| Merge.AudioTrackListSplits | internal/mkv/engine.go:179 | the comma-joined id list splits back into the ids |
| Merge.FontArgs | internal/mkv/engine.go:191-193 | two arguments per font |
| Merge.FontArgsPairs | internal/mkv/engine.go:191-193 | each font appears as "--attach-file" followed by its path, in order |
| Merge.AppendFontArgs | internal/mkv/engine.go:191-193 | the font loop appends exactly those pairs |
| Merge.ForcedFlag | internal/mkv/engine.go:196-199 | the forced flag is "0:yes" or "0:no" |
| Merge.MergeArgsLayout | internal/mkv/engine.go:168-208 | the command line: output, audio options, input, "--no-subtitles", fonts, then language, flag and subtitle file |
| Merge.MergeArgs | internal/mkv/engine.go:168-208 | the `mkvmerge` command line; stated by `MergeArgsLayout` |
| Merge.ExecTrace | internal/mkv/engine.go:44-54 | a dry run contributes nothing |
| Merge.BuildMergeArgs | internal/mkv/engine.go:168-208 | the argument building yields that command line |
| Merge.MergeStandard | internal/mkv/engine.go:147-211 | metadata, output folder and tool run in order, up to the first failure, with their log |
| Merge.MergeTrace | internal/mkv/engine.go:147-211 | the standard merge's steps up to the first failure; stated by `MergeStandard`, `DryMergeRunsNothing` |
| Merge.RunMergeTool | internal/mkv/engine.go:187-210 | a font search failure stops before the run; otherwise one `mkvmerge` run |
| Merge.RunMerge | internal/mkv/engine.go:114-145 | when no subtitle is chosen the error is returned and nothing is logged; otherwise the standard merge's trace |
| Merge.ExtractedNameIsMergeCandidate | internal/mkv/engine.go:132 | every name extraction writes passes merge's subtitle filter for that episode and language |
| Merge.NamedForEpisode | internal/mkv/engine.go:132 | any name `<episode>_<lang><suffix>` with a ".ass" or ".srt" extension passes that filter |
| Merge.ExtractedForcedIsFlagged | internal/mkv/engine.go:196-199 | a forced track extracted earlier is merged as forced |
| Merge.DryMergeRunsNothing | internal/mkv/engine.go:162-166 | a dry merge creates no folder and runs no tool |
| Parser.MatchAt | internal/mkv/parser.go:8 | a match at a position ends in a capture of two digits |
| Parser.Search | internal/mkv/parser.go:9 | a search result is a capture of two digits |
| Parser.GetEpisodeNumber | internal/mkv/parser.go:7-14 | "XX", or two digits that occur in the name |
| Parser.SearchIsLeftmost | internal/mkv/parser.go:9 | the search fails exactly when no position matches, and otherwise returns the leftmost match |
| Parser.NoDigitPairMeansNoEpisode | internal/mkv/parser.go:8-13 | a name without two adjacent digits gives "XX" |
| Parser.StandardSeasonEpisode | internal/mkv/parser_test.go:12-15 | "Anime Title S01E02.mkv" gives "02" |
| Parser.BracketedSeasonEpisode | internal/mkv/parser_test.go:17-20 | "[SubGroup] Anime Title - S01E02.mkv" gives "02" |
| Parser.UnderscoreEpisode | internal/mkv/parser_test.go:22-25 | "episode_01.mkv" gives "01" |
| Parser.SpacedEpisode | internal/mkv/parser_test.go:27-30 | "anime ep 05 title.mkv" gives "05" |
| Parser.LeadingDigits | internal/mkv/parser_test.go:32-35 | "03_anime.mkv" gives "03" |
| Parser.VersionedEpisode | internal/mkv/parser.go:8 | "Show 07v2.mkv" gives "07": a `v` after the digits closes the match |
| Parser.NoDigitsExamples | internal/mkv/parser_test.go:42-50 | "opening.mkv" and "anime_5.mkv" give "XX" |
| Parser.BracketedResolution | internal/mkv/parser_test.go:52-55 | "[GroupName] Series - 10 [1080p].mkv" gives "10" |
| Parser.EpisodeAtStart | internal/mkv/parser_test.go:57-60 | "01 - Title of Episode.mkv" gives "01" |
| Scanner.DirectMkv | cmd/scanner.go:21-29 | never more paths than entries |
| Scanner.ScanEntries | cmd/scanner.go:21-29 | the entry loop returns the container entries joined to the directory, in listing order |
| Scanner.WalkDir | cmd/scanner.go:13-19 | the walk from an entry appends the containers found at and below it, in walk order |
| Scanner.WalkChildren | cmd/scanner.go:13-19 | the walk over a directory's entries appends their containers in entry order |
| Scanner.ScanFiles | cmd/scanner.go:10-33 | the result is the walk or the directory's own containers; an unreadable directory gives nothing (membership in `ScanMembers`) |
| Scanner.Scan | cmd/scanner.go:10-33 | the walk or the directory's own containers; stated by `ScanMembers` |
| Scanner.WalkNode | cmd/scanner.go:13-19 | the containers at and below an entry in walk order; stated by `WalkNodeMembers` |
| Scanner.WalkEntries | cmd/scanner.go:13-19 | the containers below a directory's entries in entry order; stated by `WalkEntriesMembers` |
| Scanner.WalkNodeMembers | cmd/scanner.go:13-19 | with recursion a path is returned exactly when the walk reaches a container file under that path: nothing else is returned and nothing is missed |
| Scanner.WalkEntriesMembers | cmd/scanner.go:13-19 | the same for the entries of one directory |
| Scanner.ScanMembers | cmd/scanner.go:10-33 | in either mode a path is returned exactly when it is a container the walk reaches (with recursion) or a container entry of the directory (without); never for an unreadable directory |
| Scanner.DirectMkvMembers | cmd/scanner.go:21-29 | without recursion a path is returned exactly when it joins the directory to a file entry with the container extension |
| Scanner.NestedContainerFound | cmd/scanner.go:13-19 | with recursion a container below a subdirectory is found |
| Scanner.DirectContainerFound | cmd/scanner.go:13-19 | with recursion a container directly in the directory is found |
| Scanner.EmptyOrMissingDirectory | cmd/scanner_test.go:103-125 | an empty or a missing directory gives nothing in either mode |
| Scanner.MkvInAnyCase | cmd/scanner_test.go:127-151 | ".mkv" in any letter case counts as a container |
| Scanner.ExtOfName | cmd/scanner.go:26 | a name ending in "." and a suffix without dot or slash has that suffix as extension |
| Paths.Base | cmd/scanner.go:15 | the last element; stated by `BaseShape` |
| Paths.BaseShape | internal/mkv/engine.go:63 | the last element is never empty, has no slash unless it is "/", and a slash-free name is its own |
| Paths.Dir | internal/mkv/engine.go:74 | never empty; stated by `DirOfName`, `JoinSplits` |
| Paths.DirOfName | internal/watcher/watcher.go:180-181 | a name without a slash lies in "." |
| Paths.Join | cmd/scanner.go:27 | empty and "." elements vanish, and exactly one separator joins the rest, none after the root's |
| Paths.JoinSplits | cmd/scanner.go:27 | `Base` of a joined name is the name and `Dir` is the cleaned directory |
| Paths.Ext | cmd/scanner.go:26 | empty, or a dot-led suffix without a slash |
| Paths.IsMkv | cmd/scanner.go:15 | the extension is ".mkv" in any case; stated by `MkvInAnyCase` |
| Text.Split | cmd/root.go:101-107 | at least one piece; the pieces are stated by `SplitCount`, `JoinSplit`, `SplitJoin` |
| Text.TrimSpace | internal/ui/processor.go:32 | no white space at either end (what is dropped is white space: `TrimLeft`, `TrimRight`) |
| Text.EqualFold | cmd/scanner.go:15 | equal once lower-cased, ASCII letters only |
| Commands.OptimalWorkers | cmd/root.go:75-85 | half the processors, clamped to 2..8 |
| Commands.CalculateOptimalWorkers | cmd/root.go:75-85 | the two clamps give that count, between 2 and 8 |
| Commands.WorkersMonotone | cmd/root.go:75-85 | more processors never give fewer workers |
| Commands.WorkersAtTheEnds | cmd/root.go:75-85 | below 6 processors 2 workers, from 18 on 8 |
| Commands.ParsedLanguages | cmd/root.go:101-107 | one language per comma-separated piece, each trimmed, one more than the commas |
| Commands.ParseLanguages | cmd/root.go:101-107 | the trim loop yields exactly those languages |
| Commands.Prepare | cmd/root.go:95-107 | the worker count is filled in only when 0, the languages replaced only when the flag is set, nothing else changes |
| Commands.ProcessFiles | cmd/root.go:88-121 | nothing starts exactly when the scan finds nothing; otherwise the screen gets the scan and the prepared configuration |
| Commands.ParsedJoin | cmd/root.go:101-107 | comma-free codes joined with commas parse back to the codes, trimmed |
| Commands.SingleLanguage | cmd/root.go:101-107 | a flag without a comma gives one language |
| Processor.Decide | internal/ui/processor.go:15-51 | no files: nothing runs; without a resumable run or a "y" answer every file runs |
| Processor.RunProcessTUI | internal/ui/processor.go:15-53 | on the checkpoint file of the run's directory: the launch is the decision, and the stored run is deleted exactly when it was resumable and the answer is not yes |
| Processor.ResumeOrDiscard | internal/ui/processor.go:32-49 | yes resumes with the filtered files and keeps the file; anything else deletes it and runs every file |
| Processor.DecideRunsListedFiles | internal/ui/processor.go:32-43 | a resumed run works on exactly the listed files not on record; "all processed" exactly when every listed file is on record |
| Processor.AnswerIgnoredWithoutResume | internal/ui/processor.go:22-31 | when no run can be resumed the answer changes nothing |
| Processor.IsYes | internal/ui/processor.go:32 | the answer lower-cased and trimmed is "y"; stated by `PaddedYIsYes`, `SpelledOutIsNotYes` |
| Processor.ResumeForgetsFinished | internal/ui/processor.go:32-43 | a resumed run starts a checkpoint whose total is the remaining files only, in which a file finished earlier is off the record at every save, unless a remaining file's record matches it |
| Processor.PaddedYIsYes | internal/ui/processor.go:32 | "y" or "Y" with white space around it counts as yes |
| Processor.SpelledOutIsNotYes | internal/ui/processor.go:32 | "yes" does not count as yes |
| Ui.RecordOutcome | internal/ui/processing.go:61-84 | recording one finished file adds one record and changes nothing else of the checkpoint |
| Ui.RecordOutcomeRecords | internal/ui/processing.go:61-84 | the file is then on record, and so is every file before |
| Ui.Classify | internal/ui/processing.go:64-79 | no error is a success, exactly the error "skipped" a skip, any other error a failure carrying it |
| Ui.LogLine | internal/ui/processing.go:61-79 | the status mark and the base name, with the error for a failure; stated by `LogLineIsPrefixed` |
| Ui.LogLineIsPrefixed | internal/ui/processing.go:61-79 | the UTF-8 bytes of every log line start with the emitted prefix of its own outcome (success, skip or failure), and the intended rendering matches that prefix and no other |
| Ui.ExtractFolder | internal/ui/processing.go:86-91 | the folder the extraction writes the first language to |
| Ui.SummaryOutputRoot | internal/ui/processing.go:95-104 | the output root merging uses, whenever the first language is `Lang` |
| Ui.Replay | internal/ui/processing.go:61-84 | the checkpoint after recording completions in order; stated by `ReplayRecordsAll`, `ReplayRecordsExactly`, `ReplayKeepsRun` |
| Ui.AddFolderKeepsDistinct | internal/ui/processing.go:85-94 | adding an output folder only when absent keeps the folder list free of repeats |
| Ui.GatherMembers | internal/ui/processing.go:85-94 | a folder is on the list exactly when it was there at the start or one of the completions so far contributed it |
| Ui.GatherDistinct | internal/ui/processing.go:85-94 | a list that starts without repeats never lists a folder twice |
| Ui.ContributionsNameExtracted | internal/ui/processing.go:85-94 | a completion contributes a folder exactly when it succeeded in extract mode and its subtitles went into that folder |
| Ui.SummaryFoldersMembers | internal/ui/processing.go:85-94 | after a run a folder is listed exactly when it was listed before or some successful extraction wrote into it |
| Ui.SummaryRootShown | internal/ui/processing.go:95-104 | after a run the output root shown is the merge output root once any merge succeeded, and the starting value otherwise |
| Ui.Add | internal/ui/processing.go:64-80 | one outcome adds one to exactly the total of the counts |
| Ui.Tally | internal/ui/processing.go:64-80 | the counts of a run add up to the number of files |
| Ui.LogLines | internal/ui/processing.go:108 | one log line per finished file |
| Ui.LogLinesArePrefixed | internal/ui/processing.go:61-108 | line i of the log starts with the emitted prefix of the i-th finished file's outcome, and the intended rendering matches that prefix |
| Ui.Contains | internal/ui/model.go:100-107 | the loop finds an item exactly when it is in the list |
| Ui.ProcessModel.constructor | internal/ui/model.go:57-87 | a new screen over the checkpoint file of the run's directory: nothing processed, empty logs, 80x24 with a 80x15 viewport, no checkpoint |
| Ui.ProcessModel.CountOutcome | internal/ui/processing.go:64-80 | the counter of the outcome's class goes up by one |
| Ui.ProcessModel.RecordCheckpoint | internal/ui/processing.go:64-84 | the active checkpoint gets the file's record; without one nothing changes |
| Ui.ProcessModel.AdvanceFlushCounter | internal/ui/processing.go:111-118 | every interval-th file saves the checkpoint and resets the counter; otherwise the counter goes up |
| Ui.ProcessModel.TrackOutput | internal/ui/processing.go:85-105 | an extraction adds the file's subtitle folder unless it is listed already, so a list without repeats stays without repeats; a merge sets the output root |
| Ui.ProcessModel.AppendLog | internal/ui/processing.go:108-109 | one log line appended and the index advanced |
| Ui.ProcessModel.RecordStep | internal/ui/processing.go:61-84 | the outcome is counted and, when checkpoints are on, recorded |
| Ui.ProcessModel.FinishStep | internal/ui/processing.go:85-118 | the output is tracked, the line logged, and the checkpoint saved at the interval |
| Ui.ProcessModel.ProcessFile | internal/ui/processing.go:40-123 | one finished file: its counts, log line, checkpoint record, output tracking and interval save; with checkpoints on but none active, only the interval counter moves (it still wraps to 0) and the checkpoint and its file stay as they were |
| Ui.ProcessModel.CompleteNext | internal/ui/processing.go:28-33 | one more completion, handled at its own time, keeps the run's progress: the run's invariant, the saved completions a prefix whose last save time is the creation's or the last saved completion's, and the folder list and output root those of the completions so far |
| Ui.ProcessModel.CompleteRecorded | internal/ui/processing.go:111-118 | with checkpoints on, one completion keeps the invariant, the save stamped with the completion's time |
| Ui.ProcessModel.CompleteBuffered | internal/ui/processing.go:111-118 | a completion before the interval is reached is recorded but not written; the last save time is unchanged |
| Ui.ProcessModel.CompleteFlushed | internal/ui/processing.go:111-118 | the completion that reaches the interval writes every record so far, stamped with its own time |
| Ui.ProcessModel.CompleteUnrecorded | internal/ui/processing.go:111-118 | with checkpoints off the checkpoint is never touched |
| Ui.ProcessModel.CompleteAll | internal/ui/processing.go:28-33 | the completions one after another, the i-th at its own time: the run's invariant holds for all of them, the saved ones are a prefix, the last save was at the creation or at the last saved completion's time, and the folder list and output root are those of every completion in order |
| Ui.ProcessModel.StartProcessing | internal/ui/processing.go:20-123 | after a run in any completion order, each completion at its own time: every file processed, logs in completion order, counts independent of order, a fresh checkpoint created at the start that holds every record while the file holds the last full interval's, both stamped with the time of the last save; the dry-run folder list gains, in completion order and each once, exactly the subtitle folders of the successful extractions (no folder is ever listed twice), and the output root becomes the merge output root exactly when some merge succeeded |
| Ui.ProcessModel.Update | internal/ui/model.go:115-151 | "q" or ctrl+c and the auto-close message quit; a resize sets the sizes; "done" finishes and schedules the auto-close; the counts never change |
| Ui.ReplayKeepsRun | internal/ui/processing.go:61-84 | recording completions changes only the record lists |
| Ui.ReplayRecordsAll | internal/ui/processing.go:61-84 | after a run every finished file is on record, one record each |
| Ui.RecordOutcomeRecordsExactly | internal/ui/processing.go:61-84 | after one finished file a file is on record exactly when it was before or the new record matches it |
| Ui.ReplayStamp | internal/ui/processing.go:61-84 | recording finished files never touches the save time |
| Ui.SavingOf | internal/ui/processing.go:111-118 | periodic saving is on exactly when the interval is positive, and saves every interval-th completion |
| Ui.ReplayRecordsExactly | internal/ui/processing.go:61-84 | after a run a file is on record exactly when it was at the start or a completed file's record matches it |
| Ui.Flushed | internal/ui/processing.go:111-118 | the completions saved: a multiple of the interval, less than one interval behind |
| Ui.FlushedPrefix | internal/ui/processing.go:111-118 | the saved completions are the longest whole-interval prefix; the counter is the rest |
| Ui.LastCompletionsUnsaved | internal/ui/processing.go:111-118 | ten files with interval 3 leave 9 records in the file |
| Ui.TallyPermutation | internal/ui/processing.go:28-33 | the counts do not depend on the completion order |
| Rendering.TagLengths | internal/ui/rendering.go:24-36 | the status tags take 12, 16 and 11 bytes; the prefixes, with their trailing space, 13, 17 and 12 |
| Rendering.TagEncodings | internal/ui/rendering.go:24-36 | the UTF-8 bytes of the three marks and prefixes |
| Rendering.AvailableWidth | internal/ui/rendering.go:10-13 | the width is the viewport's when over 20, else 80 |
| Rendering.MaxContentLen | internal/ui/rendering.go:39-43 | the content room, at least 10 |
| Rendering.Truncate | internal/ui/rendering.go:46-48 | content over the room is cut to fit with "..."; shorter content is kept whole |
| Rendering.RenderLineAsWrittenIsIdentity | internal/ui/rendering.go:24-48 | as written, every line is shown unchanged |
| Rendering.RenderLineAsWritten | internal/ui/rendering.go:24-48 | the line as `renderLogs` treats it, byte slices compared with the tags; stated by `RenderLineAsWrittenIsIdentity` |
| Rendering.MatchedPrefix | internal/ui/rendering.go:24-36 | the status prefix a line starts with, or none |
| Rendering.PrefixIsMatched | internal/ui/rendering.go:24-36 | a line that starts with one of the three emitted prefixes is matched by exactly that prefix |
| Rendering.EncodedPrefixIsMatched | internal/ui/rendering.go:24-36 | a string that starts with a prefix whose UTF-8 bytes are an emitted prefix encodes to a line matched by that prefix |
| Rendering.RenderLine | internal/ui/rendering.go:22-50 | a line without a status prefix is unchanged; a rendered line keeps its prefix |
| Rendering.RenderLineFits | internal/ui/rendering.go:38-50 | a prefixed line fits the width, and a line that already fits is unchanged |
| Rendering.RenderLineNoNewline | internal/ui/rendering.go:46-50 | rendering adds no line break |
| Rendering.RenderedLinesAsWritten | internal/ui/rendering.go:16-51 | one rendered line per log line |
| Rendering.RenderedLines | internal/ui/rendering.go:16-51 | one rendered line per log line |
| Rendering.RenderedLinesAt | internal/ui/rendering.go:16-51 | the k-th rendered line is the k-th log line rendered |
| Rendering.RenderLogsAsWrittenIsJoin | internal/ui/rendering.go:9-54 | as written, the viewport content is the log lines joined by line breaks |
| Rendering.LongSuccessLineIsNotTruncated | internal/ui/rendering.go:24-48 | a long success line overflows the viewport as written, and fits once corrected |
| Rendering.RenderOne | internal/ui/rendering.go:22-50 | the per-line body renders the line |
| Rendering.RenderLogs | internal/ui/rendering.go:9-54 | the content is the rendered lines joined by line breaks |
| Rendering.RenderedTextSplitsIntoLines | internal/ui/rendering.go:53 | the content splits back into the rendered lines |
| Watcher.Pending | internal/watcher/watcher.go:140-148 | a sweep keeps exactly the entries that are not stale, with their times |
| Watcher.Taken | internal/watcher/watcher.go:140-148 | a sweep hands on exactly the stale entries with the container extension |
| Watcher.SingleFileConfig | internal/watcher/watcher.go:180-181 | a single-file run works in the file's folder with the rest of the configuration inherited |
| Watcher.Requests | internal/watcher/watcher.go:153-155 | no more runs than swept paths |
| Watcher.Stamped | internal/watcher/watcher.go:167-175 | the paths stamped are those known before plus the swept ones not started recently |
| Watcher.FileWatcher.constructor | internal/watcher/watcher.go:35-48 | a new watcher has an empty buffer, no starts and no runs |
| Watcher.FileWatcher.HandleEvent | internal/watcher/watcher.go:112-116 | a create or write event sets the path's time to now; other events change nothing |
| Watcher.FileWatcher.Sweep | internal/watcher/watcher.go:133-148 | the buffer loses exactly its stale entries, and the stale containers are handed on once each |
| Watcher.FileWatcher.ProcessFile | internal/watcher/watcher.go:167-195 | a start within 30 seconds of the last is dropped; otherwise it is stamped and one single-file run is added |
| Watcher.FileWatcher.Tick | internal/watcher/watcher.go:133-158 | a tick sweeps and starts one run per swept path not started recently |
| Watcher.FileWatcher.ProcessAll | internal/watcher/watcher.go:153-155 | the loop over the swept paths adds those runs and stamps |
| Watcher.StampedKeepsOthers | internal/watcher/watcher.go:167-175 | paths outside a sweep keep their stamps |
| Watcher.ProcessStep | internal/watcher/watcher.go:153-155 | each swept path is started as if alone |
| Watcher.EventDefersSweep | internal/watcher/watcher.go:140-147 | an event within the last second keeps a path buffered and not handed on |
| Watcher.EmptySweep | internal/watcher/watcher.go:136-138 | an empty buffer gives nothing |
| Watcher.SweepPartitions | internal/watcher/watcher.go:140-148 | every entry is kept or removed; every removed container is handed on |
| Watcher.RestartIsDropped | internal/watcher/watcher.go:167-175 | a second start within 30 seconds is dropped, and stamps are never removed |

## Left out

- `ValidateDependencies` is not modelled. It checks that the `mkvmerge` and
  `mkvextract` programs are on the PATH; the model has no PATH.
- `GetInfo` (running `mkvmerge -J`) and the JSON decoding of its answer are
  the host's `inspect` function.
- Directory creation, listings, font globbing and `filepath.Rel` are functions
  of the `Host`.
- The tool runs are host answers. Their output and exit status show up only
  as the error text.
- Checkpoint: the JSON encoding is not modelled. The stored file is a value
  that is missing, holds a checkpoint, or cannot be read or parsed.
- Checkpoint: the MD5 of the lower-cased name is a `Digest` parameter.
  Nothing is assumed about it beyond being a function.
- Checkpoint: timestamps are integers supplied by the caller. A run's
  completions each bring their own time, a `clock` parameter of
  `Ui.ProcessModel.StartProcessing`.
- Checkpoint.Manager.Create: the start time, the first last-saved time and
  the first save share one time. The program reads the clock for each.
- Concurrency: the worker pool, its channels and locks are left out. A run
  is one completion order, and any permutation of the files is allowed.
- `maxProcs` is still computed but not otherwise used.
- The viewport, the spinner and the lipgloss styles are left out. The
  progress bar is left out because it uses floating point.
- The printing of the summary after a run is left out, and so is
  `GetResumeStats`'s console output. The folder list and the output root it
  prints are modelled.
- `Text.ToLower` maps ASCII letters only. Go's `strings.ToLower` also maps
  other Unicode letters.
- Checkpoint.Manager.Save and Checkpoint.Manager.Clear: writing and removing
  the checkpoint file always succeed. In the program a failed write returns
  "failed to write checkpoint" or "failed to save checkpoint" and leaves the
  old file (internal/checkpoint/checkpoint.go:174-181). A failed removal
  returns "failed to delete checkpoint" and keeps the active checkpoint
  (internal/checkpoint/checkpoint.go:244-246). The callers ignore both errors.
- Merge.ChooseSubtitle: the entry order of a listing is whatever the `Host`
  gives. `os.ReadDir` returns the entries sorted by name, so in the program
  the first fitting subtitle is the first in name order. The model does not
  require a sorted listing, and the scanner's trees do not require sorted
  children either.
- Paths.Join: assumes clean arguments and a relative second one. It adds no
  separator after a trailing one (the root "/"), but it does not collapse
  `.`, `..` or repeated slashes inside a path as `filepath.Clean` does. For
  the input folder "/" the merge output root comes out as "//_<lang>" where
  Go gives "/_<lang>".
- Paths.Dir: does not collapse `.` and `..` elements. `Dir("a/../b.mkv")`
  is "a/.." where Go gives ".".
- Text.EqualFold: folds ASCII letters only. Go's `strings.EqualFold` uses
  Unicode simple folding, so an extension written with the Kelvin sign
  (U+212A) for "k" is ".mkv" to the program and not to the model.
- Watcher: fsnotify and `Start` (watching the folder and its subdirectories)
  are left out. Events, and the ticks of the 500 ms ticker, are method calls
  with a time in milliseconds.
- Watcher.FileWatcher.Tick: every start in a tick is stamped with the tick's
  time. In the program, each start reads the clock at the moment it begins.
- Processor: reading the prompt answer from standard input is left out. The
  answer is a parameter.
- Scanner: a directory that cannot be read in the middle of a walk
  contributes the entries that were read before the error. The tree given
  holds those entries.
- Scanner.DirectMkv: states only that the result is no longer than the
  entries. Its membership is stated by `DirectMkvMembers`; the exact count of
  containers is not proved.
- The command-line wiring (cobra flags, `--watch`, version) and the console
  output are left out.
- The dry-run delay is left out: the processing screen waits 500 ms per file
  in a dry run, and time does not affect what the model computes.
- Ui.ProcessModel.Update: the spinner's frame and the viewport's scrolling
  are not modelled. The spinner tick only asks for the next tick.

## Findings

| source | as written | input that shows it | evidently intended | confidence | as-written member | corrected member |
|---|---|---|---|---|---|---|
| internal/ui/rendering.go:24-36 | `renderLogs` compares `logLine[:11]`, `logLine[:12]` and `logLine[:10]` with the tags "✅ SUCCESS:", "⏭️  SKIPPED:" and "❌ FAILED:". In UTF-8 those tags are 12, 16 and 11 bytes long, so a slice can never equal its tag. No line is ever truncated. | a success line longer than the viewport, e.g. width 80 and a 200-byte "✅ SUCCESS: ..." line, is shown whole | lines that start with a status mark are cut to the viewport width with "..." | high (not executed) | Rendering.RenderLineAsWritten, Rendering.RenderLineAsWrittenIsIdentity, Rendering.LongSuccessLineIsNotTruncated | Rendering.RenderLine, Rendering.RenderLineFits, Rendering.RenderLogs |

## Where the code and its description differ

The model follows the code in each case.

- **Watcher quiet window.** Every create or write event refreshes a
  buffered path's time. The one-second quiet window therefore counts from
  the latest event, not from when the path was first seen
  (`Watcher.EventDefersSweep`).
- **No final checkpoint save.** The checkpoint is written only every
  `CheckpointInterval` files, and nothing is saved at the end of a run. The
  last `n mod interval` completions are never stored:
  - with 10 files and an interval of 3, the file holds 9 records
    (`Ui.LastCompletionsUnsaved`);
  - a resumed run redoes the completions that were not stored.
- **Auto-close delay.** The screen closes itself 5 seconds after
  processing ends. The field `autoCloseTime` records 10 seconds.
- **Output root for the summary and for merging.** The summary names the
  merge output root after the first of `Languages`, while merging names it
  after `Lang`.
- **Forced tracks overwrite one another.** Forced subtitle tracks of one
  language and format get the same file name, so a later one overwrites an
  earlier one (`Engine.ForcedTracksShareName`).
- **Language comparison.** Comparing the stored and requested languages is
  not set equality. It checks equal length and that every requested
  language is stored, so duplicates can make it asymmetric
  (`Checkpoint.SameLanguagesIsNotSetEquality`).
- **Resuming forgets the earlier session.** After a "y" answer the
  processing screen is given only the files not on record
  (internal/ui/processor.go:32-43). It then creates a new checkpoint
  anyway (internal/ui/processing.go:23-25,
  internal/checkpoint/checkpoint.go:99-111):
  - the lists start empty;
  - the total is the number of remaining files;
  - it is saved at once.

  The records of the earlier session are therefore gone from the file. If
  the resumed run is interrupted too, the next resume redoes the files
  finished in the first session (`Processor.ResumeForgetsFinished`).
- **Merge output root inside the input folder.** Without `OutDir` the root
  is `<Base(folder)>_<lang>` joined onto `Dir(folder)`
  (internal/mkv/engine.go:153-156). That is beside the folder only when its
  path ends in a name (`Merge.MergeRootInCurrentFolder`,
  `Merge.MergeRootInsideFolder`):
  - for the folder ".", as in the usage example `mkvtea m . -r -l eng`
    (cmd/root.go:56), the root is "._eng" inside the current directory;
  - for "anime/", `Dir` is "anime" and the root is "anime/anime_eng".

  A later recursive scan of the same folder therefore also walks the merged
  copies.
- **Remaining count.** `GetResumeStats` does not clamp the remaining count
  at zero (`Checkpoint.RemainingMayBeNegative`).
