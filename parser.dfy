/** `GetEpisodeNumber`: the first match of the case-insensitive pattern
    `(?:s\d{1,2}|e|ep|\s|\.|_|^)(\d{2})(?:\s|\.|_|v|$)` under Go's
    leftmost-first semantics, written out as a matcher. */
module Parser {
  import opened Wrappers
  import opened Text

  /** What the function returns when nothing matches. */
  const NoEpisode := "XX"

  /** `\d`: an ASCII digit. */
  predicate IsDigit(c: char)
  {
    '0' <= c <= '9'
  }

  /** `\s` of the regexp syntax: tab, line feed, form feed, carriage return, space. */
  predicate IsRegexSpace(c: char)
  {
    c == '\t' || c == '\n' || c == '\U{000C}' || c == '\r' || c == ' '
  }

  /** Case-insensitive letters of the pattern; `s` also folds to U+017F. */
  predicate FoldS(c: char) { c == 's' || c == 'S' || c == '\U{017F}' }
  predicate FoldE(c: char) { c == 'e' || c == 'E' }
  predicate FoldP(c: char) { c == 'p' || c == 'P' }
  predicate FoldV(c: char) { c == 'v' || c == 'V' }

  predicate DigitAt(s: string, i: int)
  {
    0 <= i < |s| && IsDigit(s[i])
  }

  /** The group `(\d{2})` at `c` followed by `(?:\s|\.|_|v|$)`. */
  predicate CaptureAt(s: string, c: int)
  {
    && DigitAt(s, c) && DigitAt(s, c + 1)
    && (c + 2 == |s| || (c + 2 < |s| && (IsRegexSpace(s[c + 2]) || s[c + 2] == '.' || s[c + 2] == '_' || FoldV(s[c + 2]))))
  }

  /** The alternatives of the leading group tried in order at `p`, the
      repetition `\d{1,2}` greedily; the position of the captured digits of
      the first that leads to a match. */
  function MatchAt(s: string, p: nat): (r: Option<nat>)
    ensures r.Some? ==> p <= r.value && CaptureAt(s, r.value)
  {
    if p > |s| then None
    else if p < |s| && FoldS(s[p]) && DigitAt(s, p + 1) && DigitAt(s, p + 2) && CaptureAt(s, p + 3) then Some(p + 3)
    else if p < |s| && FoldS(s[p]) && DigitAt(s, p + 1) && CaptureAt(s, p + 2) then Some(p + 2)
    else if p < |s| && FoldE(s[p]) && CaptureAt(s, p + 1) then Some(p + 1)
    else if p + 1 < |s| && FoldE(s[p]) && FoldP(s[p + 1]) && CaptureAt(s, p + 2) then Some(p + 2)
    else if p < |s| && (IsRegexSpace(s[p]) || s[p] == '.' || s[p] == '_') && CaptureAt(s, p + 1) then Some(p + 1)
    else if p == 0 && CaptureAt(s, 0) then Some(0)
    else None
  }

  /** The leftmost start from `p` on at which the pattern matches. */
  function Search(s: string, p: nat): (r: Option<nat>)
    ensures r.Some? ==> CaptureAt(s, r.value)
    decreases |s| + 1 - p
  {
    if p > |s| then None
    else if MatchAt(s, p).Some? then MatchAt(s, p)
    else Search(s, p + 1)
  }

  /** `GetEpisodeNumber`: the captured two digits, or "XX". */
  function GetEpisodeNumber(filename: string): (r: string)
    ensures r == NoEpisode || (|r| == 2 && IsDigit(r[0]) && IsDigit(r[1]) && Contains(filename, r))
  {
    match Search(filename, 0)
    case None => NoEpisode
    case Some(c) =>
      assert OccursAt(filename, filename[c..c + 2], c);
      filename[c..c + 2]
  }

  /** The search answers with the first start, from `p` on, at which the
      pattern matches, and with None only when no start matches. */
  lemma {:induction false} SearchIsLeftmost(s: string, p: nat)
    ensures Search(s, p) == None <==> forall k :: p <= k <= |s| ==> MatchAt(s, k) == None
    ensures Search(s, p).Some? ==>
      exists q :: p <= q <= |s| && MatchAt(s, q) == Search(s, p) && forall k :: p <= k < q ==> MatchAt(s, k) == None
    decreases |s| + 1 - p
  {
    if p <= |s| && MatchAt(s, p).None? {
      SearchIsLeftmost(s, p + 1);
      if Search(s, p).Some? {
        var q :| p + 1 <= q <= |s| && MatchAt(s, q) == Search(s, p + 1) && forall k :: p + 1 <= k < q ==> MatchAt(s, k) == None;
        assert forall k :: p <= k < q ==> MatchAt(s, k) == None;
      }
    }
  }

  /** Without two consecutive digits there is no episode number. */
  lemma NoDigitPairMeansNoEpisode(s: string)
    requires forall i :: 0 <= i < |s| - 1 ==> !(IsDigit(s[i]) && IsDigit(s[i + 1]))
    ensures GetEpisodeNumber(s) == NoEpisode
  {
    SearchIsLeftmost(s, 0);
  }

  /** Positions whose neighbourhood holds no digit cannot start a match. */
  lemma {:induction false} SkipDigitFree(s: string, p: nat, q: nat)
    requires p <= q && q + 2 <= |s|
    requires forall i :: p <= i < q + 2 ==> !IsDigit(s[i])
    ensures Search(s, p) == Search(s, q)
    decreases q - p
  {
    if p < q {
      assert !IsDigit(s[p]) && !IsDigit(s[p + 1]) && !IsDigit(s[p + 2]);
      SkipDigitFree(s, p + 1, q);
    }
  }

  /** A season and episode marker: the `e` before the digits matches. */
  lemma StandardSeasonEpisode(name: string)
    requires name == "Anime Title S01E02.mkv"
    ensures GetEpisodeNumber(name) == "02"
  {
    assert MatchAt(name, 15) == Some(16);
    assert Search(name, 15) == Some(16);
    assert Search(name, 14) == Some(16);
    assert Search(name, 13) == Some(16);
    assert Search(name, 12) == Some(16);
    assert Search(name, 11) == Some(16);
    assert forall i :: 0 <= i < 13 ==> !IsDigit(name[i]);
    SkipDigitFree(name, 0, 11);
  }

  lemma BracketedSeasonEpisodeLead(name: string)
    requires name == "[SubGroup] Anime Title - S01E02.mkv"
    ensures Search(name, 0) == Search(name, 24)
  {
    assert forall i :: 0 <= i < 26 ==> !IsDigit(name[i]);
    SkipDigitFree(name, 0, 24);
  }

  /** The same marker after a bracketed group name. */
  lemma BracketedSeasonEpisode(name: string)
    requires name == "[SubGroup] Anime Title - S01E02.mkv"
    ensures GetEpisodeNumber(name) == "02"
  {
    assert MatchAt(name, 28) == Some(29);
    assert Search(name, 28) == Some(29);
    assert Search(name, 27) == Some(29);
    assert Search(name, 26) == Some(29);
    assert Search(name, 25) == Some(29);
    assert Search(name, 24) == Some(29);
    BracketedSeasonEpisodeLead(name);
  }

  /** Digits after an underscore. */
  lemma UnderscoreEpisode(name: string)
    requires name == "episode_01.mkv"
    ensures GetEpisodeNumber(name) == "01"
  {
    assert MatchAt(name, 7) == Some(8);
    assert Search(name, 7) == Some(8);
    assert Search(name, 6) == Some(8);
    assert forall i :: 0 <= i < 8 ==> !IsDigit(name[i]);
    SkipDigitFree(name, 0, 6);
  }

  /** "ep" followed by a space: the space before the digits matches. */
  lemma SpacedEpisode(name: string)
    requires name == "anime ep 05 title.mkv"
    ensures GetEpisodeNumber(name) == "05"
  {
    assert MatchAt(name, 8) == Some(9);
    assert Search(name, 8) == Some(9);
    assert Search(name, 7) == Some(9);
    assert forall i :: 0 <= i < 9 ==> !IsDigit(name[i]);
    SkipDigitFree(name, 0, 7);
  }

  /** Two digits at the start, anchored by `^`. */
  lemma LeadingDigits(name: string)
    requires name == "03_anime.mkv"
    ensures GetEpisodeNumber(name) == "03"
  {
    assert MatchAt(name, 0) == Some(0);
  }

  /** Digits closed by a version mark: the `v` alternative of the trailing
      group. */
  lemma VersionedEpisode(name: string)
    requires name == "Show 07v2.mkv"
    ensures GetEpisodeNumber(name) == "07"
  {
    assert MatchAt(name, 4) == Some(5);
    assert Search(name, 4) == Some(5);
    assert Search(name, 3) == Some(5);
    assert forall i :: 0 <= i < 5 ==> !IsDigit(name[i]);
    SkipDigitFree(name, 0, 3);
  }

  lemma BracketedResolutionLead(name: string)
    requires name == "[GroupName] Series - 10 [1080p].mkv"
    ensures Search(name, 0) == Search(name, 19)
  {
    assert forall i :: 0 <= i < 21 ==> !IsDigit(name[i]);
    SkipDigitFree(name, 0, 19);
  }

  /** The episode before a resolution tag. */
  lemma BracketedResolution(name: string)
    requires name == "[GroupName] Series - 10 [1080p].mkv"
    ensures GetEpisodeNumber(name) == "10"
  {
    assert MatchAt(name, 20) == Some(21);
    assert Search(name, 20) == Some(21);
    assert Search(name, 19) == Some(21);
    BracketedResolutionLead(name);
  }

  /** An episode number opening the name. */
  lemma EpisodeAtStart(name: string)
    requires name == "01 - Title of Episode.mkv"
    ensures GetEpisodeNumber(name) == "01"
  {
    assert MatchAt(name, 0) == Some(0);
  }

  /** Names without two adjacent digits give "XX". */
  lemma NoDigitsExamples(opening: string, single: string)
    requires opening == "opening.mkv" && single == "anime_5.mkv"
    ensures GetEpisodeNumber(opening) == NoEpisode && GetEpisodeNumber(single) == NoEpisode
  {
    NoDigitPairMeansNoEpisode(opening);
    NoDigitPairMeansNoEpisode(single);
  }
}
