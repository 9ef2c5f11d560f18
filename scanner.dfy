/** `ScanFiles`: the containers of a directory, either its own entries or the
    whole tree below it. The file system is a tree of entries as the
    directory reads return them (in name order); a directory that cannot be
    read in the middle of a walk contributes the entries that were read. */
module Scanner {
  import opened Wrappers
  import opened Paths
  import Text

  datatype Node = File(name: string) | Folder(name: string, children: seq<Node>)

  /** A file entry with the container extension. */
  predicate IsContainer(e: Node)
  {
    e.File? && IsMkv(e.name)
  }

  /** The containers among the entries of one directory, joined to it, in
      listing order. */
  function DirectMkv(dir: string, entries: seq<Node>): (r: seq<string>)
    ensures |r| <= |entries|
  {
    if entries == [] then []
    else
      var e := entries[|entries| - 1];
      DirectMkv(dir, entries[..|entries| - 1]) + (if IsContainer(e) then [Join(dir, e.name)] else [])
  }

  /** `filepath.WalkDir` below `path` over `entries`, collecting the
      containers in walk order (each directory's entries in order, a
      subdirectory's contents in place of it). */
  function WalkEntries(path: string, entries: seq<Node>): seq<string>
    decreases entries
  {
    if entries == [] then []
    else WalkNode(Join(path, entries[0].name), entries[0]) + WalkEntries(path, entries[1..])
  }

  /** The containers the walk finds at and below one entry reached as `path`. */
  function WalkNode(path: string, node: Node): seq<string>
    decreases node
  {
    match node
    case File(name) => if IsMkv(name) then [path] else []
    case Folder(_, children) => WalkEntries(path, children)
  }

  /** What `ScanFiles(dir, recursive)` returns when the file system holds
      `root` at `dir`, or nothing there. */
  function Scan(dir: string, recursive: bool, root: Option<Node>): seq<string>
  {
    match root
    case None => []
    case Some(node) =>
      if recursive then WalkNode(dir, node)
      else if node.Folder? then DirectMkv(dir, node.children)
      else []
  }

  /** The non-recursive loop over the entries of `dir`. */
  method ScanEntries(dir: string, entries: seq<Node>) returns (files: seq<string>)
    ensures files == DirectMkv(dir, entries)
  {
    files := [];
    for i := 0 to |entries|
      invariant files == DirectMkv(dir, entries[..i])
    {
      assert entries[..i + 1][..i] == entries[..i];
      var e := entries[i];
      if e.File? && IsMkv(e.name) {
        assert IsContainer(e);
        files := files + [Join(dir, e.name)];
      }
    }
    assert entries[..|entries|] == entries;
  }

  /** The walk callback applied from `node` down, appending to `files`. */
  method WalkDir(path: string, node: Node, files: seq<string>) returns (files': seq<string>)
    ensures files' == files + WalkNode(path, node)
    decreases node, 1
  {
    match node
    case File(name) =>
      if IsMkv(name) {
        files' := files + [path];
      } else {
        files' := files;
        assert files' == files + [];
      }
    case Folder(_, children) =>
      files' := WalkChildren(path, children, files);
  }

  /** The walk over the entries of one directory, in order. */
  method WalkChildren(path: string, entries: seq<Node>, files: seq<string>) returns (files': seq<string>)
    ensures files' == files + WalkEntries(path, entries)
    decreases entries, 0
  {
    files' := files;
    var i := 0;
    while i < |entries|
      invariant 0 <= i <= |entries|
      invariant files' + WalkEntries(path, entries[i..]) == files + WalkEntries(path, entries)
    {
      assert entries[i..][1..] == entries[i + 1..];
      var e := entries[i];
      assert e in entries;
      var before := files';
      files' := WalkDir(Join(path, e.name), e, files');
      Text.AppendAssoc(before, WalkNode(Join(path, e.name), e), WalkEntries(path, entries[i + 1..]));
      i := i + 1;
    }
    assert files' + [] == files';
  }

  /** `ScanFiles`: a directory that cannot be read gives nothing. */
  method ScanFiles(dir: string, recursive: bool, root: Option<Node>) returns (files: seq<string>)
    ensures files == Scan(dir, recursive, root)
  {
    files := [];
    if recursive {
      if root.Some? {
        files := WalkDir(dir, root.value, files);
      }
    } else {
      if root.None? || root.value.File? {
        return files;
      }
      files := ScanEntries(dir, root.value.children);
    }
  }

  /** Some container entry of `entries` is `p` once joined to `dir`. */
  predicate ListsContainer(dir: string, entries: seq<Node>, p: string)
  {
    exists k :: 0 <= k < |entries| && IsContainer(entries[k]) && p == Join(dir, entries[k].name)
  }

  lemma ListsContainerStep(dir: string, entries: seq<Node>, p: string)
    requires entries != []
    ensures var e := entries[|entries| - 1];
      (ListsContainer(dir, entries, p)
       <==> ListsContainer(dir, entries[..|entries| - 1], p) || (IsContainer(e) && p == Join(dir, e.name)))
  {
    var init := entries[..|entries| - 1];
    assert forall k :: 0 <= k < |init| ==> init[k] == entries[k];
  }

  /** Without recursion, a path is returned exactly when it joins `dir` to
      the name of a file entry with the container extension. */
  lemma {:induction false} DirectMkvMembers(dir: string, entries: seq<Node>, p: string)
    ensures p in DirectMkv(dir, entries) <==> ListsContainer(dir, entries, p)
  {
    if entries != [] {
      DirectMkvMembers(dir, entries[..|entries| - 1], p);
      ListsContainerStep(dir, entries, p);
    }
  }

  /** In recursive mode a container anywhere below a subdirectory is found,
      under the subdirectory's path. */
  lemma {:induction false} NestedContainerFound(path: string, entries: seq<Node>, k: nat, inner: string)
    requires k < |entries| && entries[k].Folder?
    requires inner in WalkEntries(Join(path, entries[k].name), entries[k].children)
    ensures inner in WalkEntries(path, entries)
    decreases k
  {
    if k > 0 {
      NestedContainerFound(path, entries[1..], k - 1, inner);
    }
  }

  /** A file entry with the container extension is found by the walk. */
  lemma {:induction false} DirectContainerFound(path: string, entries: seq<Node>, k: nat)
    requires k < |entries| && IsContainer(entries[k])
    ensures Join(path, entries[k].name) in WalkEntries(path, entries)
    decreases k
  {
    if k > 0 {
      DirectContainerFound(path, entries[1..], k - 1);
    }
  }

  /** The walk from `node`, reached as `path`, arrives at a container file
      whose joined path is `p`. */
  predicate ReachesContainer(path: string, node: Node, p: string)
    decreases node, 1
  {
    match node
    case File(name) => p == path && IsMkv(name)
    case Folder(_, children) => EntriesReach(path, children, p)
  }

  /** Some entry of a directory at `path` leads the walk to the container `p`. */
  predicate EntriesReach(path: string, entries: seq<Node>, p: string)
    decreases entries, 0
  {
    exists k :: 0 <= k < |entries| && ReachesContainer(Join(path, entries[k].name), entries[k], p)
  }

  lemma EntriesReachStep(path: string, entries: seq<Node>, p: string)
    requires entries != []
    ensures EntriesReach(path, entries, p)
        <==> ReachesContainer(Join(path, entries[0].name), entries[0], p) || EntriesReach(path, entries[1..], p)
  {
    if EntriesReach(path, entries, p) {
      EntriesReachSplit(path, entries, p);
    }
    if EntriesReach(path, entries[1..], p) {
      EntriesReachTail(path, entries, p);
    }
  }

  lemma EntriesReachSplit(path: string, entries: seq<Node>, p: string)
    requires entries != [] && EntriesReach(path, entries, p)
    ensures ReachesContainer(Join(path, entries[0].name), entries[0], p) || EntriesReach(path, entries[1..], p)
  {
    var k :| 0 <= k < |entries| && ReachesContainer(Join(path, entries[k].name), entries[k], p);
    if k > 0 {
      var rest := entries[1..];
      assert rest[k - 1] == entries[k];
    }
  }

  lemma EntriesReachTail(path: string, entries: seq<Node>, p: string)
    requires entries != [] && EntriesReach(path, entries[1..], p)
    ensures EntriesReach(path, entries, p)
  {
    var rest := entries[1..];
    var k :| 0 <= k < |rest| && ReachesContainer(Join(path, rest[k].name), rest[k], p);
    assert rest[k] == entries[k + 1];
  }

  /** In recursive mode a path is found exactly when the walk reaches a
      container file there: nothing else is returned and nothing is missed. */
  lemma {:induction false} WalkNodeMembers(path: string, node: Node, p: string)
    ensures p in WalkNode(path, node) <==> ReachesContainer(path, node, p)
    decreases node, 1
  {
    match node
    case File(_) =>
    case Folder(_, children) =>
      WalkEntriesMembers(path, children, p);
  }

  lemma {:induction false} WalkEntriesMembers(path: string, entries: seq<Node>, p: string)
    ensures p in WalkEntries(path, entries) <==> EntriesReach(path, entries, p)
    decreases entries, 0
  {
    if entries != [] {
      WalkNodeMembers(Join(path, entries[0].name), entries[0], p);
      WalkEntriesMembers(path, entries[1..], p);
      EntriesReachStep(path, entries, p);
    }
  }

  /** What `ScanFiles` returns, in either mode: with recursion the containers
      the walk reaches, without it the container entries of the directory,
      and nothing for a directory that cannot be read. */
  lemma ScanMembers(dir: string, recursive: bool, root: Option<Node>, p: string)
    ensures p in Scan(dir, recursive, root) <==>
      && root.Some?
      && (if recursive then ReachesContainer(dir, root.value, p)
          else root.value.Folder? && ListsContainer(dir, root.value.children, p))
  {
    if root.Some? {
      if recursive {
        WalkNodeMembers(dir, root.value, p);
      } else if root.value.Folder? {
        DirectMkvMembers(dir, root.value.children, p);
      }
    }
  }

  /** An empty directory gives nothing in either mode, and so does a
      directory that cannot be read. */
  lemma EmptyOrMissingDirectory(dir: string, name: string, recursive: bool)
    ensures Scan(dir, recursive, Some(Folder(name, []))) == []
    ensures Scan(dir, recursive, None) == []
  {
    assert WalkNode(dir, Folder(name, [])) == WalkEntries(dir, []) == [];
    assert DirectMkv(dir, []) == [];
  }

  /** The extension test ignores case: every spelling of "mkv" counts. */
  lemma MkvInAnyCase(stem: string, e: string)
    requires '/' !in stem
    requires |e| == 3 && Text.LowerChar(e[0]) == 'm' && Text.LowerChar(e[1]) == 'k' && Text.LowerChar(e[2]) == 'v'
    ensures IsMkv(stem + "." + e)
  {
    ExtOfName(stem, e);
    assert Text.ToLower("." + e) == ".mkv";
  }

  /** A name ending in "." and a dot-free, slash-free suffix has that
      extension. */
  lemma {:induction false} ExtOfName(stem: string, e: string)
    requires '.' !in e && '/' !in e
    ensures Ext(stem + "." + e) == "." + e
    decreases |e|
  {
    if e == [] {
      assert stem + "." + e == stem + ".";
    } else {
      var s := stem + "." + e;
      var init := e[..|e| - 1];
      assert s[..|s| - 1] == stem + "." + init;
      ExtOfName(stem, init);
      assert "." + init + [e[|e| - 1]] == "." + e;
    }
  }
}
