/** The run configuration shared by every component (the `config.Config` record). */
module Settings {

  datatype Config = Config(
    dir: string,
    lang: string,               // single language, or a comma-separated list before parsing
    languages: seq<string>,     // languages for extraction
    outDir: string,
    subsDir: string,            // custom directory of external subtitles (merge only)
    mode: string,               // "extract" or "merge"
    recursive: bool,
    dryRun: bool,
    keepAudio: string,
    maxProcs: int,              // number of concurrent workers
    checkpointInterval: int)    // save the checkpoint every N files; <= 0 disables it

  /** The languages a run works on: `languages`, falling back to `[lang]`, and
      to nothing when both are empty. */
  function RequestedLanguages(cfg: Config): (r: seq<string>)
    ensures cfg.languages != [] ==> r == cfg.languages
    ensures r == [] <==> cfg.languages == [] && cfg.lang == ""
    ensures cfg.languages == [] && cfg.lang != "" ==> r == [cfg.lang]
  {
    if |cfg.languages| == 0 && cfg.lang != "" then [cfg.lang] else cfg.languages
  }

  /** The language whose folder names the output: the first of `languages`,
      else `lang`. */
  function PrimaryLanguage(cfg: Config): (r: string)
    ensures cfg.languages != [] ==> r == cfg.languages[0]
    ensures cfg.languages == [] ==> r == cfg.lang
  {
    if |cfg.languages| > 0 then cfg.languages[0] else cfg.lang
  }
}
