/** The parts of Go's `path/filepath` the core uses, for '/'-separated paths. */
module Paths {
  import opened Text

  /** Index of the last '/' in `s`, or -1 when there is none. */
  function LastSlash(s: string): (i: int)
    ensures -1 <= i < |s|
  {
    if s == [] then -1
    else if s[|s| - 1] == '/' then |s| - 1
    else LastSlash(s[..|s| - 1])
  }

  lemma {:induction false} LastSlashIsLast(s: string)
    ensures LastSlash(s) >= 0 ==> s[LastSlash(s)] == '/'
    ensures forall j :: LastSlash(s) < j < |s| ==> s[j] != '/'
  {
    if s != [] && s[|s| - 1] != '/' {
      LastSlashIsLast(s[..|s| - 1]);
    }
  }

  function StripTrailingSlashes(s: string): (r: string)
    ensures |r| <= |s|
  {
    if s != [] && s[|s| - 1] == '/' then StripTrailingSlashes(s[..|s| - 1]) else s
  }

  lemma {:induction false} StripTrailingSlashesShape(s: string)
    ensures StripTrailingSlashes(s) == s[..|StripTrailingSlashes(s)|]
    ensures StripTrailingSlashes(s) == [] || StripTrailingSlashes(s)[|StripTrailingSlashes(s)| - 1] != '/'
    ensures forall j :: |StripTrailingSlashes(s)| <= j < |s| ==> s[j] == '/'
  {
    if s != [] && s[|s| - 1] == '/' {
      StripTrailingSlashesShape(s[..|s| - 1]);
    }
  }

  /** `filepath.Base`: the last element of the path, trailing slashes ignored;
      "." for the empty path and "/" for a path of slashes only. */
  function Base(path: string): string
  {
    if path == "" then "."
    else
      var p := StripTrailingSlashes(path);
      if p == "" then "/" else p[LastSlash(p) + 1..]
  }

  /** The last element is never empty and holds no slash unless it is "/";
      a path without slashes is its own last element. */
  lemma BaseShape(path: string)
    ensures Base(path) != []
    ensures path == "" ==> Base(path) == "."
    ensures '/' in Base(path) ==> Base(path) == "/"
    ensures path != "" && '/' !in path ==> Base(path) == path
  {
    if path != "" {
      var p := StripTrailingSlashes(path);
      StripTrailingSlashesShape(path);
      if p != "" {
        LastSlashIsLast(p);
        var r := p[LastSlash(p) + 1..];
        assert r != [] by {
          assert p[|p| - 1] != '/';
        }
        assert '/' !in r by {
          forall k | 0 <= k < |r|
            ensures r[k] != '/'
          {
            assert r[k] == p[LastSlash(p) + 1 + k];
          }
        }
        if '/' !in path {
          assert p == path by {
            assert forall j :: 0 <= j < |path| ==> path[j] != '/';
          }
          assert LastSlash(p) == -1 by {
            assert forall j :: 0 <= j < |p| ==> p[j] != '/';
          }
        }
      }
    }
  }

  /** Removes trailing slashes as `filepath.Clean` does ("" becomes ".", a run
      of slashes becomes "/"). */
  function CleanTrailing(s: string): (r: string)
    ensures r != []
  {
    if s == [] then "."
    else
      var t := StripTrailingSlashes(s);
      if t == [] then "/" else t
  }

  /** `filepath.Dir`: everything before the last element. */
  function Dir(path: string): (r: string)
    ensures r != []
  {
    CleanTrailing(path[..LastSlash(path) + 1])
  }

  /** A path without slashes lies in ".". */
  lemma DirOfName(path: string)
    requires '/' !in path
    ensures Dir(path) == "."
  {
    LastSlashIsLast(path);
    assert forall j :: 0 <= j < |path| ==> path[j] != '/';
  }

  /** A path ending in '/' names a folder: its `Dir` is the folder itself,
      without the trailing slashes, and its `Base` is that folder's name. */
  lemma DirOfFolderPath(path: string)
    requires |path| > 0 && path[|path| - 1] == '/' && StripTrailingSlashes(path) != ""
    ensures Dir(path) == StripTrailingSlashes(path)
    ensures Base(path) != "/"
  {
    var p := StripTrailingSlashes(path);
    assert Dir(path) == p by {
      assert path[..LastSlash(path) + 1] == path;
    }
    assert Base(path) != "/" by {
      StripTrailingSlashesShape(path);
      var r := p[LastSlash(p) + 1..];
      assert r[|r| - 1] == p[|p| - 1] != '/';
    }
  }

  /** A cleaned path ends in a slash only when it is the root. */
  lemma CleanTrailingShape(s: string)
    ensures CleanTrailing(s) == "/" || CleanTrailing(s)[|CleanTrailing(s)| - 1] != '/'
  {
    StripTrailingSlashesShape(s);
  }

  /** Cleaning a cleaned path changes nothing. */
  lemma CleanTrailingIdempotent(s: string)
    ensures CleanTrailing(CleanTrailing(s)) == CleanTrailing(s)
  {
    StripTrailingSlashesShape(s);
  }

  /** `filepath.Join` of two elements that are already clean: empty elements
      are ignored, a "." element disappears, and no separator is added after
      a trailing one (the root "/"), as `filepath.Clean` makes it. */
  function Join(a: string, b: string): (r: string)
    ensures a == "" || a == "." ==> r == (if b == "" then a else b)
    ensures b == "" || b == "." ==> r == (if a == "" then b else a)
    ensures a != "" && a != "." && b != "" && b != "." ==>
      r == a + (if a[|a| - 1] == '/' then "" else "/") + b
  {
    if a == "" then b
    else if b == "" then a
    else if a == "." then b
    else if b == "." then a
    else if a[|a| - 1] == '/' then a + b
    else a + "/" + b
  }

  /** Characters without a slash do not move the last slash. */
  lemma {:induction false} LastSlashSkips(x: string, b: string)
    requires '/' !in b
    ensures LastSlash(x + b) == LastSlash(x)
    decreases |b|
  {
    if b != [] {
      var init := b[..|b| - 1];
      assert b[|b| - 1] in b;
      assert (x + b)[|x + b| - 1] == b[|b| - 1] != '/';
      assert (x + b)[..|x + b| - 1] == x + init;
      assert '/' !in init by {
        assert forall k :: 0 <= k < |init| ==> init[k] == b[k];
      }
      LastSlashSkips(x, init);
    } else {
      assert x + b == x;
    }
  }

  /** Joining a name onto a directory is undone by `Base` and `Dir`: the name
      is the last element and the directory, cleaned, is what lies before it
      ("" and "." both stand for the current directory, "/" stays the root). */
  lemma JoinSplits(a: string, b: string)
    requires b != "" && b != "." && '/' !in b
    ensures Base(Join(a, b)) == b
    ensures Dir(Join(a, b)) == CleanTrailing(a)
  {
    var r := Join(a, b);
    if a == "" || a == "." {
      BaseShape(b);
      DirOfName(b);
    } else {
      var x := if a[|a| - 1] == '/' then a else a + "/";
      assert r == x + b;
      LastSlashSkips(x, b);
      assert LastSlash(r) == |x| - 1;
      assert r[|r| - 1] == b[|b| - 1];
      assert StripTrailingSlashes(r) == r;
      assert r[|x|..] == b;
      assert r[..|x|] == x;
      if x != a {
        assert x[..|x| - 1] == a;
        assert StripTrailingSlashes(x) == StripTrailingSlashes(a);
      }
    }
  }

  /** A name joined onto the directory of a path lies in that directory. */
  lemma JoinOntoDir(path: string, b: string)
    requires b != "" && b != "." && '/' !in b
    ensures Base(Join(Dir(path), b)) == b
    ensures Dir(Join(Dir(path), b)) == Dir(path)
  {
    JoinSplits(Dir(path), b);
    CleanTrailingIdempotent(path[..LastSlash(path) + 1]);
  }

  /** `filepath.Ext`: the suffix from the last '.' of the last element, or "". */
  function Ext(path: string): (r: string)
    ensures r == [] || (r[0] == '.' && HasSuffix(path, r) && '/' !in r)
  {
    if path == [] then ""
    else
      var c := path[|path| - 1];
      if c == '/' then ""
      else if c == '.' then "."
      else
        var e := Ext(path[..|path| - 1]);
        if e == "" then "" else e + [c]
  }

  /** The container-file test shared by the scanner and the watcher:
      the extension equals ".mkv" ignoring case. */
  predicate IsMkv(path: string)
  {
    EqualFold(Ext(path), ".mkv")
  }
}
