/** The command entry point's preparation of a run (`processFiles`): the
    worker count defaults to half the processors clamped to 2..8, a
    comma-separated language flag becomes the trimmed language list, and a
    scan that finds no container starts nothing. The dependency check, the
    console output and the command-line wiring are not part of this model;
    the processor count and the file system are parameters. */
module Commands {
  import opened Wrappers
  import opened Settings
  import Text
  import Scanner

  const MinWorkers := 2
  const MaxWorkers := 8

  /** `calculateOptimalWorkers` for `numCPU` processors: half of them (Go's
      division, which truncates; `runtime.NumCPU` is never negative), at
      least 2 and at most 8. */
  function OptimalWorkers(numCPU: nat): (r: int)
    ensures MinWorkers <= r <= MaxWorkers
    ensures MinWorkers <= numCPU / 2 <= MaxWorkers ==> r == numCPU / 2
    ensures numCPU / 2 < MinWorkers ==> r == MinWorkers
    ensures numCPU / 2 > MaxWorkers ==> r == MaxWorkers
  {
    if numCPU / 2 < MinWorkers then MinWorkers
    else if numCPU / 2 > MaxWorkers then MaxWorkers
    else numCPU / 2
  }

  /** `calculateOptimalWorkers`: the two clamps applied in turn. */
  method CalculateOptimalWorkers(numCPU: nat) returns (maxProcs: int)
    ensures maxProcs == OptimalWorkers(numCPU)
    ensures MinWorkers <= maxProcs <= MaxWorkers
  {
    maxProcs := numCPU / 2;
    if maxProcs < 2 {
      maxProcs := 2;
    }
    if maxProcs > 8 {
      maxProcs := 8;
    }
  }

  /** More processors never give fewer workers. */
  lemma WorkersMonotone(a: nat, b: nat)
    requires a <= b
    ensures OptimalWorkers(a) <= OptimalWorkers(b)
  {
    assert a / 2 <= b / 2;
  }

  /** Up to five processors give the minimum, from eighteen on the maximum. */
  lemma WorkersAtTheEnds(numCPU: nat)
    ensures numCPU < 6 ==> OptimalWorkers(numCPU) == 2
    ensures numCPU >= 18 ==> OptimalWorkers(numCPU) == 8
  {
  }

  /** The language list a non-empty flag gives: the comma-separated pieces,
      each trimmed, one more than there are commas. */
  function ParsedLanguages(lang: string): (r: seq<string>)
    ensures |r| == |Text.Split(lang, ',')| == Text.Count(lang, ',') + 1
    ensures forall k :: 0 <= k < |r| ==> r[k] == Text.TrimSpace(Text.Split(lang, ',')[k])
    ensures forall k :: 0 <= k < |r| ==> r[k] == [] || (!Text.IsSpace(r[k][0]) && !Text.IsSpace(r[k][|r[k]| - 1]))
  {
    Text.SplitCount(lang, ',');
    var pieces := Text.Split(lang, ',');
    seq(|pieces|, k requires 0 <= k < |pieces| => Text.TrimSpace(pieces[k]))
  }

  /** The trim loop over the split flag, overwriting each element in place. */
  method ParseLanguages(lang: string) returns (languages: seq<string>)
    ensures languages == ParsedLanguages(lang)
  {
    languages := Text.Split(lang, ',');
    ghost var pieces := languages;
    for i := 0 to |languages|
      invariant |languages| == |pieces|
      invariant forall k :: 0 <= k < i ==> languages[k] == Text.TrimSpace(pieces[k])
      invariant forall k :: i <= k < |languages| ==> languages[k] == pieces[k]
    {
      languages := languages[i := Text.TrimSpace(languages[i])];
    }
  }

  /** The configuration `processFiles` works with: the worker count filled
      in only when it is 0, the language list replaced only when the flag
      is set, everything else as given. */
  method Prepare(cfg: Config, numCPU: nat) returns (c: Config)
    ensures c.maxProcs == (if cfg.maxProcs == 0 then OptimalWorkers(numCPU) else cfg.maxProcs)
    ensures c.languages == (if cfg.lang != "" then ParsedLanguages(cfg.lang) else cfg.languages)
    ensures c.(maxProcs := cfg.maxProcs, languages := cfg.languages) == cfg
  {
    c := cfg;
    if c.maxProcs == 0 {
      var workers := CalculateOptimalWorkers(numCPU);
      c := c.(maxProcs := workers);
    }
    if c.lang != "" {
      var languages := ParseLanguages(c.lang);
      c := c.(languages := languages);
    }
  }

  /** What `processFiles` does once the configuration is prepared. */
  datatype Outcome =
    | NothingFound                            // no container: nothing runs
    | Handed(cfg: Config, files: seq<string>) // `RunProcessTUI(cfg, files)`

  /** `processFiles` with the file system holding `root` at the directory. */
  method ProcessFiles(cfg: Config, numCPU: nat, root: Option<Scanner.Node>) returns (r: Outcome)
    ensures r == NothingFound <==> Scanner.Scan(cfg.dir, cfg.recursive, root) == []
    ensures r.Handed? ==> r.files == Scanner.Scan(cfg.dir, cfg.recursive, root)
    ensures r.Handed? ==> r.cfg.maxProcs == (if cfg.maxProcs == 0 then OptimalWorkers(numCPU) else cfg.maxProcs)
    ensures r.Handed? ==> r.cfg.languages == (if cfg.lang != "" then ParsedLanguages(cfg.lang) else cfg.languages)
    ensures r.Handed? ==> r.cfg.(maxProcs := cfg.maxProcs, languages := cfg.languages) == cfg
  {
    var c := Prepare(cfg, numCPU);
    var files := Scanner.ScanFiles(c.dir, c.recursive, root);
    if |files| == 0 {
      return NothingFound;
    }
    return Handed(c, files);
  }

  /** A list of comma-free codes written with commas comes back as the list,
      each code trimmed. */
  lemma {:induction false} ParsedJoin(codes: seq<string>)
    requires |codes| >= 1
    requires forall k :: 0 <= k < |codes| ==> ',' !in codes[k]
    ensures ParsedLanguages(Text.Join(codes, ',')) == seq(|codes|, k requires 0 <= k < |codes| => Text.TrimSpace(codes[k]))
  {
    Text.SplitJoin(codes, ',');
  }

  /** A single code without a comma becomes a one-element list. */
  lemma SingleLanguage(lang: string)
    requires lang != "" && ',' !in lang
    ensures ParsedLanguages(lang) == [Text.TrimSpace(lang)]
  {
    Text.SplitFree(lang, ',');
  }
}
