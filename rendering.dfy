/** `renderLogs`: the log lines of the processing screen, cut to the viewport
    width. Go compares and slices the lines as UTF-8 bytes, so they are
    modelled as bytes here. */
module Rendering {
  import opened Text

  newtype byte = b: int | 0 <= b < 256

  const Newline: byte := 10

  /** The UTF-8 encoding of one code point. */
  function CharBytes(c: char): (r: seq<byte>)
    ensures 1 <= |r| <= 4
    ensures c as int < 0x80 ==> r == [c as int as byte]
    ensures c as int >= 0x80 ==> forall k :: 0 <= k < |r| ==> r[k] >= 0x80
  {
    var n := c as int;
    if n < 0x80 then [n as byte]
    else if n < 0x800 then [(0xC0 + n / 64) as byte, (0x80 + n % 64) as byte]
    else if n < 0x10000 then
      [(0xE0 + n / 4096) as byte, (0x80 + (n / 64) % 64) as byte, (0x80 + n % 64) as byte]
    else
      [(0xF0 + n / 262144) as byte, (0x80 + (n / 4096) % 64) as byte,
       (0x80 + (n / 64) % 64) as byte, (0x80 + n % 64) as byte]
  }

  /** The UTF-8 encoding of a string, as Go stores it. */
  function Utf8(s: string): (r: seq<byte>)
    ensures |r| >= |s|
  {
    if s == [] then [] else CharBytes(s[0]) + Utf8(s[1..])
  }

  lemma {:induction false} Utf8Append(a: string, b: string)
    ensures Utf8(a + b) == Utf8(a) + Utf8(b)
  {
    if a != [] {
      assert (a + b)[0] == a[0] && (a + b)[1..] == a[1..] + b;
      Utf8Append(a[1..], b);
    } else {
      assert a + b == b;
    }
  }

  /** A string without a line feed encodes without a newline byte. */
  lemma {:induction false} Utf8NoNewline(s: string)
    requires '\n' !in s
    ensures Newline !in Utf8(s)
  {
    if s != [] {
      Utf8NoNewline(s[1..]);
      assert Newline !in CharBytes(s[0]);
    }
  }

  /** The bytes of a string of ASCII characters, one per character. */
  function AsciiBytes(s: string): (r: seq<byte>)
    ensures |r| == |s|
  {
    seq(|s|, i requires 0 <= i < |s| => (s[i] as int % 256) as byte)
  }

  /** The encoding of a string is the encoding of its first character and
      then that of the rest. */
  lemma Utf8Cons(c: char, s: string)
    ensures Utf8([c] + s) == CharBytes(c) + Utf8(s)
  {
    assert ([c] + s)[0] == c && ([c] + s)[1..] == s;
  }

  /** ASCII text encodes byte for byte. */
  lemma {:induction false} Utf8Ascii(s: string)
    requires forall i :: 0 <= i < |s| ==> s[i] as int < 0x80
    ensures Utf8(s) == AsciiBytes(s)
  {
    if s != [] {
      Utf8Ascii(s[1..]);
      assert Utf8(s) == [s[0] as int as byte] + AsciiBytes(s[1..]);
    }
  }

  /** The symbols the tags start with: U+2705 (check mark), U+23ED followed by
      the emoji selector U+FE0F (skip), and U+274C (cross). */
  const SuccessMark: char := '\U{2705}'
  const SkipMark: char := '\U{23ED}'
  const EmojiSelector: char := '\U{FE0F}'
  const FailedMark: char := '\U{274C}'

  const SuccessText: string := " SUCCESS:"
  const SkippedText: string := "  SKIPPED:"
  const FailedText: string := " FAILED:"

  /** The tags the log lines start with, as the comparisons spell them. */
  const SuccessTag: string := [SuccessMark] + SuccessText
  const SkippedTag: string := [SkipMark, EmojiSelector] + SkippedText
  const FailedTag: string := [FailedMark] + FailedText

  /** The prefixes the log lines are written with: each tag and one space. */
  const SuccessPrefix: string := SuccessTag + " "
  const SkippedPrefix: string := SkippedTag + " "
  const FailedPrefix: string := FailedTag + " "

  /** The tags' UTF-8 bytes, as Go compares them. */
  const SuccessTagBytes: seq<byte> := CharBytes(SuccessMark) + AsciiBytes(SuccessText)
  const SkippedTagBytes: seq<byte> := CharBytes(SkipMark) + CharBytes(EmojiSelector) + AsciiBytes(SkippedText)
  const FailedTagBytes: seq<byte> := CharBytes(FailedMark) + AsciiBytes(FailedText)

  const Space: byte := 32
  const SuccessPrefixBytes: seq<byte> := SuccessTagBytes + [Space]
  const SkippedPrefixBytes: seq<byte> := SkippedTagBytes + [Space]
  const FailedPrefixBytes: seq<byte> := FailedTagBytes + [Space]

  /** Each symbol takes three bytes, so the tags are 12, 16 and 11 bytes long
      and the prefixes one more. */
  lemma TagLengths()
    ensures |SuccessTagBytes| == 12 && |SkippedTagBytes| == 16 && |FailedTagBytes| == 11
    ensures |SuccessPrefixBytes| == 13 && |SkippedPrefixBytes| == 17 && |FailedPrefixBytes| == 12
  {
    assert |CharBytes(SuccessMark)| == 3;
    assert |CharBytes(SkipMark)| == 3 && |CharBytes(EmojiSelector)| == 3;
    assert |CharBytes(FailedMark)| == 3;
  }

  predicate IsAscii(s: string)
  {
    forall i :: 0 <= i < |s| ==> s[i] as int < 0x80
  }

  /** A mark followed by ASCII text encodes as the mark's bytes and the text's. */
  lemma MarkThenText(marks: string, text: string)
    requires IsAscii(text)
    ensures Utf8(marks + text) == Utf8(marks) + AsciiBytes(text)
  {
    Utf8Append(marks, text);
    Utf8Ascii(text);
  }

  lemma Utf8Single(c: char)
    ensures Utf8([c]) == CharBytes(c)
  {
    Utf8Cons(c, []);
    assert [c] + [] == [c];
  }

  lemma TextsAreAscii()
    ensures IsAscii(SuccessText) && IsAscii(SkippedText) && IsAscii(FailedText)
  {
  }

  lemma SuccessTagEncoding()
    ensures Utf8(SuccessTag) == SuccessTagBytes
  {
    Utf8Single(SuccessMark);
    TextsAreAscii();
    MarkThenText([SuccessMark], SuccessText);
  }

  lemma SkippedTagEncoding()
    ensures Utf8(SkippedTag) == SkippedTagBytes
  {
    Utf8Single(EmojiSelector);
    Utf8Cons(SkipMark, [EmojiSelector]);
    TextsAreAscii();
    MarkThenText([SkipMark, EmojiSelector], SkippedText);
  }

  lemma FailedTagEncoding()
    ensures Utf8(FailedTag) == FailedTagBytes
  {
    Utf8Single(FailedMark);
    TextsAreAscii();
    MarkThenText([FailedMark], FailedText);
  }

  /** A tag followed by one space encodes as the tag's bytes and a space. */
  lemma PrefixEncoding(tag: string, tagBytes: seq<byte>)
    requires Utf8(tag) == tagBytes
    ensures Utf8(tag + " ") == tagBytes + [Space]
  {
    Utf8Append(tag, " ");
    Utf8Cons(' ', []);
  }

  /** The byte constants are the encodings of the tags and prefixes. */
  lemma TagEncodings()
    ensures Utf8(SuccessTag) == SuccessTagBytes
    ensures Utf8(SkippedTag) == SkippedTagBytes
    ensures Utf8(FailedTag) == FailedTagBytes
    ensures Utf8(SuccessPrefix) == SuccessPrefixBytes
    ensures Utf8(SkippedPrefix) == SkippedPrefixBytes
    ensures Utf8(FailedPrefix) == FailedPrefixBytes
  {
    SuccessTagEncoding();
    SkippedTagEncoding();
    FailedTagEncoding();
    PrefixEncoding(SuccessTag, SuccessTagBytes);
    PrefixEncoding(SkippedTag, SkippedTagBytes);
    PrefixEncoding(FailedTag, FailedTagBytes);
  }

  const Ellipsis: seq<byte> := [46, 46, 46]

  /** The width lines are cut to: the viewport's, or 80 when that is 20 or less. */
  function AvailableWidth(viewportWidth: int): (w: int)
    ensures w > 20
    ensures viewportWidth > 20 <==> w == viewportWidth
  {
    if viewportWidth <= 20 then 80 else viewportWidth
  }

  /** Room for the text after a prefix: width less the prefix and 2, at least 10. */
  function MaxContentLen(availableWidth: int, prefixLen: int): (n: int)
    ensures n >= 10
    ensures n >= availableWidth - prefixLen - 2
    ensures n == availableWidth - prefixLen - 2 || n == 10
  {
    var n := availableWidth - prefixLen - 2;
    if n < 10 then 10 else n
  }

  /** Content longer than `maxLen` keeps its first `maxLen - 3` bytes and
      gains "..."; shorter content is kept whole. */
  function Truncate(content: seq<byte>, maxLen: int): (r: seq<byte>)
    requires maxLen >= 10
    ensures |r| <= maxLen
    ensures |content| <= maxLen <==> r == content
    ensures |content| > maxLen ==>
      |r| == maxLen && r[..maxLen - 3] == content[..maxLen - 3] && r[maxLen - 3..] == Ellipsis
  {
    if |content| > maxLen then content[..maxLen - 3] + Ellipsis else content
  }

  /** One line as the source renders it: each test compares a slice one byte
      shorter than the tag (11, 12 and 10 bytes against 12, 16 and 11). */
  function RenderLineAsWritten(line: seq<byte>, availableWidth: int): seq<byte>
  {
    var success, skipped, failed := SuccessTagBytes, SkippedTagBytes, FailedTagBytes;
    if |line| > 11 && line[..11] == success then
      SuccessPrefixBytes + Truncate(line[11..], MaxContentLen(availableWidth, |SuccessPrefixBytes|))
    else if |line| > 12 && line[..12] == skipped then
      SkippedPrefixBytes + Truncate(line[12..], MaxContentLen(availableWidth, |SkippedPrefixBytes|))
    else if |line| > 10 && line[..10] == failed then
      FailedPrefixBytes + Truncate(line[10..], MaxContentLen(availableWidth, |FailedPrefixBytes|))
    else line
  }

  /** No slice compared in the source can equal its tag, so every line is
      emitted unchanged, however wide. */
  lemma RenderLineAsWrittenIsIdentity(line: seq<byte>, availableWidth: int)
    ensures RenderLineAsWritten(line, availableWidth) == line
  {
    TagLengths();
  }

  /** The emitted prefix a line starts with, tested in the source's order, or
      [] when it starts with none. */
  function MatchedPrefix(line: seq<byte>): (p: seq<byte>)
    ensures p == [] || p == SuccessPrefixBytes || p == SkippedPrefixBytes || p == FailedPrefixBytes
    ensures p != [] ==> HasPrefix(line, p)
    ensures p == [] <==>
      !HasPrefix(line, SuccessPrefixBytes) && !HasPrefix(line, SkippedPrefixBytes)
      && !HasPrefix(line, FailedPrefixBytes)
  {
    if HasPrefix(line, SuccessPrefixBytes) then SuccessPrefixBytes
    else if HasPrefix(line, SkippedPrefixBytes) then SkippedPrefixBytes
    else if HasPrefix(line, FailedPrefixBytes) then FailedPrefixBytes
    else []
  }

  /** The marks differ in their second byte, so a line led by one emitted
      prefix is matched by that prefix and no other. */
  lemma PrefixIsMatched(p: seq<byte>, rest: seq<byte>)
    requires p == SuccessPrefixBytes || p == SkippedPrefixBytes || p == FailedPrefixBytes
    ensures MatchedPrefix(p + rest) == p
  {
    TagLengths();
    var line := p + rest;
    assert line[..|p|] == p;
    assert line[1] == p[1];
    assert SuccessPrefixBytes[1] == 0x9C && SkippedPrefixBytes[1] == 0x8F && FailedPrefixBytes[1] == 0x9D;
  }

  /** A string led by an emitted prefix encodes to a line that prefix matches. */
  lemma EncodedPrefixIsMatched(prefix: string, rest: string, p: seq<byte>)
    requires p == SuccessPrefixBytes || p == SkippedPrefixBytes || p == FailedPrefixBytes
    requires Utf8(prefix) == p
    ensures MatchedPrefix(Utf8(prefix + rest)) == p
  {
    Utf8Append(prefix, rest);
    PrefixIsMatched(p, Utf8(rest));
  }

  /** One line as intended: a line starting with an emitted prefix keeps it and
      has the rest cut to the room left; any other line is kept. */
  function RenderLine(line: seq<byte>, availableWidth: int): (r: seq<byte>)
    ensures MatchedPrefix(line) == [] ==> r == line
    ensures HasPrefix(r, MatchedPrefix(line))
  {
    var p := MatchedPrefix(line);
    if p == [] then line
    else p + Truncate(line[|p|..], MaxContentLen(availableWidth, |p|))
  }

  /** A prefixed line that fits the width is kept; a longer one is cut to the
      width (or to the prefix and 10 bytes when the width leaves less room). */
  lemma RenderLineFits(line: seq<byte>, availableWidth: int)
    requires MatchedPrefix(line) != []
    ensures |line| <= availableWidth - 2 ==> RenderLine(line, availableWidth) == line
    ensures |RenderLine(line, availableWidth)| <= availableWidth - 2
         || |RenderLine(line, availableWidth)| <= |MatchedPrefix(line)| + 10
    ensures |RenderLine(line, availableWidth)| <= |line|
  {
    var p := MatchedPrefix(line);
    assert line == p + line[|p|..];
  }

  /** A line with no newline byte renders without one. */
  lemma RenderLineNoNewline(line: seq<byte>, availableWidth: int)
    requires Newline !in line
    ensures Newline !in RenderLine(line, availableWidth)
  {
    var p := MatchedPrefix(line);
    if p != [] {
      assert p == line[..|p|];
      var content := line[|p|..];
      var maxLen := MaxContentLen(availableWidth, |p|);
      if |content| > maxLen {
        assert Newline !in content[..maxLen - 3];
      }
    }
  }

  /** The lines the source emits: the log lines, as bytes, unchanged. */
  function RenderedLinesAsWritten(logs: seq<string>, viewportWidth: int): (r: seq<seq<byte>>)
    ensures |r| == |logs|
  {
    seq(|logs|, i requires 0 <= i < |logs| => RenderLineAsWritten(Utf8(logs[i]), AvailableWidth(viewportWidth)))
  }

  /** The intended rendering of each log line. */
  function RenderedLines(logs: seq<string>, viewportWidth: int): (r: seq<seq<byte>>)
    ensures |r| == |logs|
  {
    if logs == [] then []
    else RenderedLines(logs[..|logs| - 1], viewportWidth) + [RenderLine(Utf8(logs[|logs| - 1]), AvailableWidth(viewportWidth))]
  }

  /** Line `k` of the output renders log entry `k`. */
  lemma {:induction false} RenderedLinesAt(logs: seq<string>, viewportWidth: int, k: nat)
    requires k < |logs|
    ensures RenderedLines(logs, viewportWidth)[k] == RenderLine(Utf8(logs[k]), AvailableWidth(viewportWidth))
  {
    if k < |logs| - 1 {
      RenderedLinesAt(logs[..|logs| - 1], viewportWidth, k);
    }
  }

  /** As written, the viewport shows the log lines joined by newlines, untouched. */
  lemma RenderLogsAsWrittenIsJoin(logs: seq<string>, viewportWidth: int)
    ensures Join(RenderedLinesAsWritten(logs, viewportWidth), Newline)
         == Join(seq(|logs|, i requires 0 <= i < |logs| => Utf8(logs[i])), Newline)
  {
    var lines := RenderedLinesAsWritten(logs, viewportWidth);
    forall i | 0 <= i < |logs|
      ensures lines[i] == Utf8(logs[i])
    {
      RenderLineAsWrittenIsIdentity(Utf8(logs[i]), AvailableWidth(viewportWidth));
    }
    assert lines == seq(|logs|, i requires 0 <= i < |logs| => Utf8(logs[i]));
  }

  /** A success line longer than the width: as written it is emitted whole, as
      intended it is cut to the width. */
  lemma LongSuccessLineIsNotTruncated(line: seq<byte>, viewportWidth: int)
    requires viewportWidth >= 25 && |line| > viewportWidth
    requires HasPrefix(line, SuccessPrefixBytes)
    ensures |RenderLineAsWritten(line, AvailableWidth(viewportWidth))| > viewportWidth
    ensures |RenderLine(line, AvailableWidth(viewportWidth))| <= viewportWidth - 2
  {
    assert MatchedPrefix(line) == SuccessPrefixBytes;
    assert AvailableWidth(viewportWidth) == viewportWidth;
    RenderLineFits(line, viewportWidth);
  }

  /** The body of the loop of `renderLogs` for one line. */
  method RenderOne(line: seq<byte>, availableWidth: int) returns (r: seq<byte>)
    ensures r == RenderLine(line, availableWidth)
  {
    var prefix := MatchedPrefix(line);
    if prefix == [] {
      return line;
    }
    var content := line[|prefix|..];
    var maxContentLen := MaxContentLen(availableWidth, |prefix|);
    ghost var whole := content;
    if |content| > maxContentLen {
      content := content[..maxContentLen - 3] + Ellipsis;
    }
    assert content == Truncate(whole, maxContentLen);
    r := prefix + content;
  }

  lemma RenderedLinesStep(logs: seq<string>, viewportWidth: int, i: nat)
    requires i < |logs|
    ensures RenderedLines(logs[..i + 1], viewportWidth)
         == RenderedLines(logs[..i], viewportWidth) + [RenderLine(Utf8(logs[i]), AvailableWidth(viewportWidth))]
  {
    assert logs[..i + 1][..i] == logs[..i];
  }

  /** The loop of `renderLogs`, with the prefix tests as intended. */
  method RenderLogs(logs: seq<string>, viewportWidth: int) returns (content: seq<byte>)
    ensures content == Join(RenderedLines(logs, viewportWidth), Newline)
  {
    var availableWidth := AvailableWidth(viewportWidth);
    var truncatedLogs: seq<seq<byte>> := [];
    for i := 0 to |logs|
      invariant truncatedLogs == RenderedLines(logs[..i], viewportWidth)
    {
      var line := RenderOne(Utf8(logs[i]), availableWidth);
      RenderedLinesStep(logs, viewportWidth, i);
      truncatedLogs := truncatedLogs + [line];
    }
    assert logs[..|logs|] == logs;
    content := Join(truncatedLogs, Newline);
  }

  /** One output line per log entry, in order: splitting the rendered text at
      newlines gives back the rendered lines. */
  lemma RenderedTextSplitsIntoLines(logs: seq<string>, viewportWidth: int)
    requires |logs| >= 1
    requires forall i :: 0 <= i < |logs| ==> '\n' !in logs[i]
    ensures Split(Join(RenderedLines(logs, viewportWidth), Newline), Newline) == RenderedLines(logs, viewportWidth)
  {
    var lines := RenderedLines(logs, viewportWidth);
    forall k | 0 <= k < |lines|
      ensures Newline !in lines[k]
    {
      RenderedLinesAt(logs, viewportWidth, k);
      Utf8NoNewline(logs[k]);
      RenderLineNoNewline(Utf8(logs[k]), AvailableWidth(viewportWidth));
    }
    SplitJoin(lines, Newline);
  }
}
