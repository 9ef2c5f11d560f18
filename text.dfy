/** The parts of Go's `strings` and `fmt` packages that the core relies on.
    Strings are sequences of runes (`string`); case mapping is ASCII only. */
module Text {

  /** `unicode.IsSpace`: the Latin-1 spaces and the Unicode White_Space runes. */
  predicate IsSpace(c: char)
  {
    || c == ' ' || c == '\t' || c == '\n' || c == '\U{000B}' || c == '\U{000C}' || c == '\r'
    || c == '\U{0085}' || c == '\U{00A0}' || c == '\U{1680}'
    || ('\U{2000}' <= c <= '\U{200A}')
    || c == '\U{2028}' || c == '\U{2029}' || c == '\U{202F}' || c == '\U{205F}' || c == '\U{3000}'
  }

  function LowerChar(c: char): char
  {
    if 'A' <= c <= 'Z' then (c as int + 32) as char else c
  }

  function UpperChar(c: char): char
  {
    if 'a' <= c <= 'z' then (c as int - 32) as char else c
  }

  /** `strings.ToLower`, restricted to ASCII letters. */
  function ToLower(s: string): (r: string)
    ensures |r| == |s|
    ensures forall i :: 0 <= i < |s| ==> r[i] == LowerChar(s[i])
  {
    seq(|s|, i requires 0 <= i < |s| => LowerChar(s[i]))
  }

  /** `strings.ToUpper`, restricted to ASCII letters. */
  function ToUpper(s: string): (r: string)
    ensures |r| == |s|
    ensures forall i :: 0 <= i < |s| ==> r[i] == UpperChar(s[i])
  {
    seq(|s|, i requires 0 <= i < |s| => UpperChar(s[i]))
  }

  /** `strings.EqualFold`, with ASCII case folding. */
  predicate EqualFold(a: string, b: string)
  {
    ToLower(a) == ToLower(b)
  }

  predicate HasPrefix<T(==)>(s: seq<T>, p: seq<T>)
  {
    |p| <= |s| && s[..|p|] == p
  }

  predicate HasSuffix<T(==)>(s: seq<T>, p: seq<T>)
  {
    |p| <= |s| && s[|s| - |p|..] == p
  }

  /** `strings.Contains`: `sub` occurs in `s` at some offset. */
  predicate Contains(s: string, sub: string)
  {
    exists i | 0 <= i <= |s| - |sub| :: OccursAt(s, sub, i)
  }

  predicate OccursAt(s: string, sub: string, i: int)
  {
    0 <= i <= |s| - |sub| && s[i..i + |sub|] == sub
  }

  /** Drops leading white space. */
  function TrimLeft(s: string): (r: string)
    ensures |r| <= |s| && r == s[|s| - |r|..]
    ensures r != [] ==> !IsSpace(r[0])
    ensures forall i :: 0 <= i < |s| - |r| ==> IsSpace(s[i])
  {
    if s != [] && IsSpace(s[0]) then TrimLeft(s[1..]) else s
  }

  /** Drops trailing white space. */
  function TrimRight(s: string): (r: string)
    ensures |r| <= |s| && r == s[..|r|]
    ensures r != [] ==> !IsSpace(r[|r| - 1])
    ensures forall i :: |r| <= i < |s| ==> IsSpace(s[i])
  {
    if s != [] && IsSpace(s[|s| - 1]) then TrimRight(s[..|s| - 1]) else s
  }

  /** `strings.TrimSpace`: the longest infix with no white space at either end. */
  function TrimSpace(s: string): (r: string)
    ensures r == [] || (!IsSpace(r[0]) && !IsSpace(r[|r| - 1]))
  {
    TrimRight(TrimLeft(s))
  }

  /** How many times `x` occurs in `s`. */
  function Count<T(==)>(s: seq<T>, x: T): nat
  {
    if s == [] then 0 else (if s[0] == x then 1 else 0) + Count(s[1..], x)
  }

  /** `strings.Split` with a one-element separator: the pieces between the
      separators, always at least one. */
  function Split<T(==)>(s: seq<T>, sep: T): (r: seq<seq<T>>)
    ensures |r| >= 1
  {
    if s == [] then [[]]
    else
      var rest := Split(s[1..], sep);
      if s[0] == sep then [[]] + rest else [[s[0]] + rest[0]] + rest[1..]
  }

  /** Concatenation regrouped; stated once so that loops over growing lists
      need not rediscover it. */
  lemma AppendAssoc<T>(a: seq<T>, b: seq<T>, c: seq<T>)
    ensures a + b + c == a + (b + c)
  {
  }

  /** `strings.Join` with a one-element separator. */
  function Join<T>(parts: seq<seq<T>>, sep: T): seq<T>
  {
    if parts == [] then []
    else if |parts| == 1 then parts[0]
    else parts[0] + [sep] + Join(parts[1..], sep)
  }

  /** Splitting yields one piece more than there are separators. */
  lemma {:induction false} SplitCount<T>(s: seq<T>, sep: T)
    ensures |Split(s, sep)| == Count(s, sep) + 1
  {
    if s != [] {
      SplitCount(s[1..], sep);
    }
  }

  /** No piece of a split contains the separator. */
  lemma {:induction false} SplitPiecesFree<T>(s: seq<T>, sep: T)
    ensures forall k :: 0 <= k < |Split(s, sep)| ==> sep !in Split(s, sep)[k]
  {
    if s != [] {
      SplitPiecesFree(s[1..], sep);
    }
  }

  /** Joining the pieces of a split gives back the original text. */
  lemma {:induction false} JoinSplit<T>(s: seq<T>, sep: T)
    ensures Join(Split(s, sep), sep) == s
  {
    if s != [] {
      var rest := Split(s[1..], sep);
      JoinSplit(s[1..], sep);
      if s[0] != sep {
        if |rest| == 1 {
          assert Split(s, sep) == [[s[0]] + rest[0]];
        } else {
          assert Split(s, sep) == [[s[0]] + rest[0]] + rest[1..];
          assert Join(rest, sep) == rest[0] + [sep] + Join(rest[1..], sep);
        }
      }
    }
  }

  /** Splitting a join of separator-free pieces gives back the pieces. */
  lemma {:induction false} SplitJoin<T>(parts: seq<seq<T>>, sep: T)
    requires |parts| >= 1
    requires forall k :: 0 <= k < |parts| ==> sep !in parts[k]
    ensures Split(Join(parts, sep), sep) == parts
  {
    if |parts| == 1 {
      SplitFree(parts[0], sep);
    } else {
      SplitJoin(parts[1..], sep);
      SplitAppend(parts[0], Join(parts[1..], sep), sep);
    }
  }

  lemma {:induction false} SplitFree<T>(s: seq<T>, sep: T)
    requires sep !in s
    ensures Split(s, sep) == [s]
  {
    if s != [] {
      SplitFree(s[1..], sep);
      assert Split(s, sep) == [[s[0]] + s[1..]];
      assert [s[0]] + s[1..] == s;
    }
  }

  lemma {:induction false} SplitAppend<T>(a: seq<T>, b: seq<T>, sep: T)
    requires sep !in a
    ensures Split(a + [sep] + b, sep) == [a] + Split(b, sep)
  {
    if a == [] {
      assert a + [sep] + b == [sep] + b;
      assert ([sep] + b)[1..] == b;
    } else {
      assert (a + [sep] + b)[1..] == a[1..] + [sep] + b;
      SplitAppend(a[1..], b, sep);
      assert [a[0]] + a[1..] == a;
    }
  }

  function DigitChar(d: nat): char
    requires d < 10
  {
    ('0' as int + d) as char
  }

  /** `fmt.Sprintf("%d", n)` for a natural number. */
  function NatToString(n: nat): (r: string)
    ensures |r| >= 1
    ensures forall i :: 0 <= i < |r| ==> '0' <= r[i] <= '9'
    decreases n
  {
    if n < 10 then [DigitChar(n)] else NatToString(n / 10) + [DigitChar(n % 10)]
  }

  /** `fmt.Sprintf("%d", n)`. */
  function IntToString(n: int): string
  {
    if n < 0 then "-" + NatToString(-n) else NatToString(n)
  }

  /** Distinct numbers print differently. */
  lemma {:induction false} NatToStringInjective(m: nat, n: nat)
    requires NatToString(m) == NatToString(n)
    ensures m == n
    decreases m
  {
    var a, b := NatToString(m), NatToString(n);
    assert m >= 10 ==> |a| == |NatToString(m / 10)| + 1 >= 2;
    assert n >= 10 ==> |b| == |NatToString(n / 10)| + 1 >= 2;
    if m >= 10 && n >= 10 {
      assert a[..|a| - 1] == NatToString(m / 10);
      assert b[..|b| - 1] == NatToString(n / 10);
      NatToStringInjective(m / 10, n / 10);
      assert DigitChar(m % 10) == a[|a| - 1] == b[|b| - 1] == DigitChar(n % 10);
    }
  }
}
