/**
 The capped walk of a repository: a stack of directories, the files of one
 directory first, excluded directories never entered.
 */
module RepoMap {

  // The entries of a directory stand in the order the walk sorts them.
  datatype Node = File(name: string) | Dir(name: string, entries: seq<Node>)

  type Path = seq<string>

  const EXCLUDED_DIRS := {
    ".git", ".hg", ".svn", "node_modules", ".venv", "venv", "__pycache__", ".next", "dist", "build", "target",
    "vendor", ".idea", ".vscode", ".mypy_cache", ".ruff_cache", ".pytest_cache", ".tox", ".gradle", ".terraform",
    ".dart_tool", ".svelte-kit", ".turbo", ".cache", ".nuxt", ".parcel-cache", "coverage", "htmlcov", "out", "bin",
    "obj", "Pods", "__snapshots__"
  }

  predicate IsEntered(node: Node, excluded: set<string>) {
    node.Dir? && node.name !in excluded
  }

  // The whole walk, without a cap

  function DirectFiles(at: Path, entries: seq<Node>): seq<Path> {
    if entries == [] then []
    else
      var last := entries[|entries| - 1];
      DirectFiles(at, entries[..|entries| - 1]) + if last.File? then [at + [last.name]] else []
  }

  /** The directory's own files, then its subdirectories, the last one first. */
  function Walk(at: Path, entries: seq<Node>, excluded: set<string>): seq<Path>
    decreases entries, 1
  {
    DirectFiles(at, entries) + Deeper(at, entries, excluded)
  }

  function Deeper(at: Path, entries: seq<Node>, excluded: set<string>): seq<Path>
    decreases entries, 0
  {
    if entries == [] then []
    else
      var last := entries[|entries| - 1];
      (if IsEntered(last, excluded) then Walk(at + [last.name], last.entries, excluded) else [])
      + Deeper(at, entries[..|entries| - 1], excluded)
  }

  // The stack

  datatype Frame = Frame(at: Path, entries: seq<Node>)

  function WalkStack(stack: seq<Frame>, excluded: set<string>): seq<Path> {
    if stack == [] then []
    else
      var top := stack[|stack| - 1];
      Walk(top.at, top.entries, excluded) + WalkStack(stack[..|stack| - 1], excluded)
  }

  function Pushed(at: Path, entries: seq<Node>, excluded: set<string>): seq<Frame> {
    if entries == [] then []
    else
      var last := entries[|entries| - 1];
      Pushed(at, entries[..|entries| - 1], excluded)
      + if IsEntered(last, excluded) then [Frame(at + [last.name], last.entries)] else []
  }

  function Nodes(entries: seq<Node>): nat {
    if entries == [] then 0
    else
      var last := entries[|entries| - 1];
      1 + (if last.Dir? then Nodes(last.entries) else 0) + Nodes(entries[..|entries| - 1])
  }

  function Remaining(stack: seq<Frame>): nat {
    if stack == [] then 0
    else 1 + Nodes(stack[|stack| - 1].entries) + Remaining(stack[..|stack| - 1])
  }

  lemma PushOneMore(stack: seq<Frame>, at: Path, entries: seq<Node>, excluded: set<string>)
    requires entries != []
    ensures
      var last, init := entries[|entries| - 1], entries[..|entries| - 1];
      var before := stack + Pushed(at, init, excluded);
      stack + Pushed(at, entries, excluded) ==
        before + if IsEntered(last, excluded) then [Frame(at + [last.name], last.entries)] else []
  {
  }

  lemma {:induction false} TopIsWalkedFirst(stack: seq<Frame>, top: Frame, excluded: set<string>)
    ensures WalkStack(stack + [top], excluded) == Walk(top.at, top.entries, excluded) + WalkStack(stack, excluded)
  {
    assert (stack + [top])[..|stack|] == stack;
  }

  /** Pushing the subdirectories leaves them to be walked next. */
  lemma {:induction false} PushingKeepsTheWalk(
    stack: seq<Frame>, at: Path, entries: seq<Node>, excluded: set<string>)
    ensures WalkStack(stack + Pushed(at, entries, excluded), excluded)
            == Deeper(at, entries, excluded) + WalkStack(stack, excluded)
    decreases |entries|
  {
    if entries == [] {
      assert stack + Pushed(at, entries, excluded) == stack;
    } else {
      var init, all := entries[..|entries| - 1], stack + Pushed(at, entries, excluded);
      PushingKeepsTheWalk(stack, at, init, excluded);
      PushOneMore(stack, at, entries, excluded);
      var before, last := stack + Pushed(at, init, excluded), entries[|entries| - 1];
      if IsEntered(last, excluded) {
        var walked := Walk(at + [last.name], last.entries, excluded);
        TopIsWalkedFirst(before, Frame(at + [last.name], last.entries), excluded);
        assert all == before + [Frame(at + [last.name], last.entries)];
        assert walked + (Deeper(at, init, excluded) + WalkStack(stack, excluded))
          == Deeper(at, entries, excluded) + WalkStack(stack, excluded);
      } else {
        assert all == before;
      }
    }
  }

  /** And it leaves fewer nodes than the directory had. */
  lemma {:induction false} PushingTakesNodesOff(
    stack: seq<Frame>, at: Path, entries: seq<Node>, excluded: set<string>)
    ensures Remaining(stack + Pushed(at, entries, excluded)) <= Nodes(entries) + Remaining(stack)
    decreases |entries|
  {
    if entries == [] {
      assert stack + Pushed(at, entries, excluded) == stack;
    } else {
      var init, all := entries[..|entries| - 1], stack + Pushed(at, entries, excluded);
      PushingTakesNodesOff(stack, at, init, excluded);
      PushOneMore(stack, at, entries, excluded);
      var before := stack + Pushed(at, init, excluded);
      if IsEntered(entries[|entries| - 1], excluded) {
        assert all[..|all| - 1] == before;
      } else {
        assert all == before;
      }
    }
  }

  lemma Associate(a: seq<Path>, b: seq<Path>, c: seq<Path>, d: seq<Path>)
    ensures a + ((b + c) + d) == (a + b) + (c + d)
  {}

  lemma {:induction false} WalkOfTop(stack: seq<Frame>, excluded: set<string>)
    requires stack != []
    ensures
      var top, below := stack[|stack| - 1], stack[..|stack| - 1];
      WalkStack(stack, excluded) ==
        (DirectFiles(top.at, top.entries) + Deeper(top.at, top.entries, excluded)) + WalkStack(below, excluded)
  {}

  /** A directory's files come next in the walk; then the stack with its subdirectories pushed is left. */
  lemma {:induction false} OneDirectoryMore(files: seq<Path>, stack: seq<Frame>, all: seq<Path>, excluded: set<string>)
    requires stack != [] && files + WalkStack(stack, excluded) == all
    ensures
      var top, below := stack[|stack| - 1], stack[..|stack| - 1];
      var found, pushed := files + DirectFiles(top.at, top.entries), below + Pushed(top.at, top.entries, excluded);
      && found <= all && found + WalkStack(pushed, excluded) == all
      && Remaining(pushed) < Remaining(stack)
  {
    var top, below := stack[|stack| - 1], stack[..|stack| - 1];
    PushingKeepsTheWalk(below, top.at, top.entries, excluded);
    PushingTakesNodesOff(below, top.at, top.entries, excluded);
    WalkOfTop(stack, excluded);
    Associate(files, DirectFiles(top.at, top.entries), Deeper(top.at, top.entries, excluded), WalkStack(below, excluded));
  }

  /** One directory: its files go to `files` until the cap is met, its subdirectories on the stack. */
  method WalkDirectory(
    directory: Frame, kept: seq<Path>, below: seq<Frame>, maxFiles: nat, excluded: set<string>)
    returns (files: seq<Path>, stack: seq<Frame>, capped: bool)
    requires |kept| <= maxFiles
    ensures
      var found := kept + DirectFiles(directory.at, directory.entries);
      && (capped <==> |found| > maxFiles)
      && files == if capped then found[..maxFiles] else found
    ensures !capped ==> stack == below + Pushed(directory.at, directory.entries, excluded)
  {
    files, stack, capped := kept, below, false;
    var i := 0;
    while i < |directory.entries|
      invariant i <= |directory.entries| && |files| <= maxFiles
      invariant files == kept + DirectFiles(directory.at, directory.entries[..i])
      invariant stack == below + Pushed(directory.at, directory.entries[..i], excluded)
    {
      var entry := directory.entries[i];
      assert directory.entries[..i + 1][..i] == directory.entries[..i];
      i := i + 1;
      if entry.Dir? {
        if entry.name !in excluded {
          stack := stack + [Frame(directory.at + [entry.name], entry.entries)];
        }
        continue;
      }
      if |files| >= maxFiles {
        DirectFilesPrefix(directory.at, directory.entries, i);
        return files, stack, true;
      }
      files := files + [directory.at + [entry.name]];
    }
    assert directory.entries[..i] == directory.entries;
  }

  /**
   `_iter_files`: the first `maxFiles` files of the walk, and whether there are
   more. The loop ends because every step takes nodes off the stack.
   */
  method WalkCapped(root: seq<Node>, maxFiles: nat, excluded: set<string>) returns (files: seq<Path>, truncated: bool)
    ensures
      var all := Walk([], root, excluded);
      && (truncated <==> |all| > maxFiles)
      && files == if truncated then all[..maxFiles] else all
  {
    files, truncated := [], false;
    var stack := [Frame([], root)];
    ghost var all := Walk([], root, excluded);
    assert stack[..0] == [];
    while stack != [] && !truncated
      invariant truncated ==> |all| > maxFiles && files == all[..maxFiles]
      invariant !truncated ==> files + WalkStack(stack, excluded) == all && |files| <= maxFiles
      decreases !truncated, Remaining(stack)
    {
      var directory, below := stack[|stack| - 1], stack[..|stack| - 1];
      OneDirectoryMore(files, stack, all, excluded);
      files, stack, truncated := WalkDirectory(directory, files, below, maxFiles, excluded);
    }
  }

  /** `_iter_files`: the walk that leaves out the generated and tooling directories. */
  method IterFiles(root: seq<Node>, maxFiles: nat) returns (files: seq<Path>, truncated: bool)
    ensures
      var all := Walk([], root, EXCLUDED_DIRS);
      && (truncated <==> |all| > maxFiles)
      && files == if truncated then all[..maxFiles] else all
  {
    files, truncated := WalkCapped(root, maxFiles, EXCLUDED_DIRS);
  }

  lemma {:induction false} DirectFilesPrefix(at: Path, entries: seq<Node>, i: nat)
    requires i <= |entries|
    ensures DirectFiles(at, entries[..i]) <= DirectFiles(at, entries)
    decreases |entries|
  {
    if i < |entries| {
      var init := entries[..|entries| - 1];
      DirectFilesPrefix(at, init, i);
      assert init[..i] == entries[..i];
    } else {
      assert entries[..i] == entries;
    }
  }

  // What the walk finds

  /** `path` leads through entered directories to a file. */
  predicate IsFileIn(entries: seq<Node>, path: Path, excluded: set<string>)
    decreases |path|
  {
    && path != []
    && exists i :: 0 <= i < |entries| && LeadsOn(entries[i], path, excluded)
  }

  predicate LeadsOn(node: Node, path: Path, excluded: set<string>)
    requires path != []
    decreases |path|, 0
  {
    && node.name == path[0]
    && if |path| == 1 then node.File? else IsEntered(node, excluded) && IsFileIn(node.entries, path[1..], excluded)
  }

  lemma {:induction false} DirectFilesAre(at: Path, entries: seq<Node>, path: Path)
    ensures path in DirectFiles(at, entries) <==>
      exists i :: 0 <= i < |entries| && entries[i].File? && path == at + [entries[i].name]
    decreases |entries|
  {
    if entries != [] {
      DirectFilesAre(at, entries[..|entries| - 1], path);
    }
  }

  predicate LiesUnder(at: Path, node: Node, path: Path, excluded: set<string>) {
    IsEntered(node, excluded) && path in Walk(at + [node.name], node.entries, excluded)
  }

  lemma {:induction false} DeeperOneMore(at: Path, entries: seq<Node>, path: Path, excluded: set<string>)
    requires entries != []
    ensures path in Deeper(at, entries, excluded) <==>
      LiesUnder(at, entries[|entries| - 1], path, excluded) || path in Deeper(at, entries[..|entries| - 1], excluded)
  {}

  lemma {:induction false} DeeperFilesAre(at: Path, entries: seq<Node>, path: Path, excluded: set<string>)
    ensures path in Deeper(at, entries, excluded) <==>
      exists i :: 0 <= i < |entries| && LiesUnder(at, entries[i], path, excluded)
    decreases |entries|
  {
    if entries != [] {
      var n := |entries| - 1;
      DeeperFilesAre(at, entries[..n], path, excluded);
      DeeperOneMore(at, entries, path, excluded);
      forall i | 0 <= i < n
        ensures LiesUnder(at, entries[..n][i], path, excluded) <==> LiesUnder(at, entries[i], path, excluded)
      {
        assert entries[..n][i] == entries[i];
      }
    }
  }

  /** The walk finds exactly the files outside excluded directories. */
  lemma {:induction false} WalkFindsExactlyTheFiles(at: Path, entries: seq<Node>, path: Path, excluded: set<string>)
    ensures path in Walk(at, entries, excluded) <==>
      at <= path && IsFileIn(entries, path[|at|..], excluded)
    decreases entries, 1
  {
    DirectFilesAre(at, entries, path);
    DeeperFilesAre(at, entries, path, excluded);
    forall i | 0 <= i < |entries|
      ensures IsFoundAt(at, entries[i], path, excluded) <==>
        at < path && LeadsOn(entries[i], path[|at|..], excluded)
    {
      FoundExactlyWhereItLeads(at, entries, i, path, excluded);
    }
  }

  predicate IsFoundAt(at: Path, node: Node, path: Path, excluded: set<string>) {
    (node.File? && path == at + [node.name]) || LiesUnder(at, node, path, excluded)
  }

  lemma {:induction false} FoundExactlyWhereItLeads(
    at: Path, entries: seq<Node>, i: nat, path: Path, excluded: set<string>)
    requires i < |entries|
    ensures IsFoundAt(at, entries[i], path, excluded) <==>
      at < path && LeadsOn(entries[i], path[|at|..], excluded)
    decreases entries, 0
  {
    var node := entries[i];
    if node.Dir? {
      WalkFindsExactlyTheFiles(at + [node.name], node.entries, path, excluded);
      if at < path {
        assert path[|at|..][1..] == path[|at| + 1..];
        assert at + [node.name] <= path <==> path[|at|] == node.name;
      }
    } else if at < path {
      assert path == at + path[|at|..];
    }
  }

  // Which files those are

  /** `path` leads through any directories to a file. */
  predicate IsFileAt(entries: seq<Node>, path: Path)
    decreases |path|
  {
    path != [] && exists i :: 0 <= i < |entries| && GoesOn(entries[i], path)
  }

  predicate GoesOn(node: Node, path: Path)
    requires path != []
    decreases |path|, 0
  {
    && node.name == path[0]
    && if |path| == 1 then node.File? else node.Dir? && IsFileAt(node.entries, path[1..])
  }

  /** No directory on the way bears an excluded name. */
  predicate AvoidsExcluded(path: Path, excluded: set<string>) {
    forall i :: 0 <= i < |path| - 1 ==> path[i] !in excluded
  }

  lemma {:induction false} EnteredMeansAvoided(entries: seq<Node>, path: Path, excluded: set<string>)
    ensures IsFileIn(entries, path, excluded) <==> IsFileAt(entries, path) && AvoidsExcluded(path, excluded)
    decreases |path|
  {
    if path != [] {
      forall i | 0 <= i < |entries|
        ensures LeadsOn(entries[i], path, excluded) <==> GoesOn(entries[i], path) && AvoidsExcluded(path, excluded)
      {
        LeadsOnAvoids(entries[i], path, excluded);
      }
    }
  }

  lemma {:induction false} LeadsOnAvoids(node: Node, path: Path, excluded: set<string>)
    requires path != []
    ensures LeadsOn(node, path, excluded) <==> GoesOn(node, path) && AvoidsExcluded(path, excluded)
    decreases |path|, 0
  {
    if |path| > 1 && node.Dir? && node.name == path[0] {
      EnteredMeansAvoided(node.entries, path[1..], excluded);
      AvoidsFirst(path, excluded);
    }
  }

  lemma {:induction false} AvoidsFirst(path: Path, excluded: set<string>)
    requires |path| > 1
    ensures AvoidsExcluded(path, excluded) <==> path[0] !in excluded && AvoidsExcluded(path[1..], excluded)
  {
    var rest := path[1..];
    assert forall i :: 0 <= i < |rest| ==> rest[i] == path[i + 1];
    if path[0] !in excluded && AvoidsExcluded(rest, excluded) {
      forall i | 0 <= i < |path| - 1
        ensures path[i] !in excluded
      {
        if i > 0 {
          assert rest[i - 1] == path[i];
        }
      }
    }
  }

  /** So from the root the walk finds exactly the files with no excluded name above them. */
  lemma {:induction false} WalkAvoidsExactlyTheExcluded(entries: seq<Node>, path: Path, excluded: set<string>)
    ensures path in Walk([], entries, excluded) <==> IsFileAt(entries, path) && AvoidsExcluded(path, excluded)
  {
    WalkFindsExactlyTheFiles([], entries, path, excluded);
    EnteredMeansAvoided(entries, path, excluded);
    assert path[0..] == path;
  }

  predicate DistinctNames(entries: seq<Node>) {
    && (forall i, j :: 0 <= i < j < |entries| ==> entries[i].name != entries[j].name)
    && (forall i :: 0 <= i < |entries| && entries[i].Dir? ==> DistinctNames(entries[i].entries))
  }

  predicate NoDuplicates(paths: seq<Path>) {
    forall i, j :: 0 <= i < j < |paths| ==> paths[i] != paths[j]
  }

  lemma DistinctConcat(a: seq<Path>, b: seq<Path>)
    requires NoDuplicates(a) && NoDuplicates(b) && forall path :: path in a ==> path !in b
    ensures NoDuplicates(a + b)
  {
    forall i, j | 0 <= i < j < |a + b|
      ensures (a + b)[i] != (a + b)[j]
    {
      if i < |a| <= j {
        assert a[i] in a && b[j - |a|] in b;
      }
    }
  }

  lemma {:induction false} DirectFilesRepeatNothing(at: Path, entries: seq<Node>)
    requires DistinctNames(entries)
    ensures NoDuplicates(DirectFiles(at, entries))
    decreases |entries|
  {
    if entries != [] {
      var last, init := entries[|entries| - 1], entries[..|entries| - 1];
      DirectFilesRepeatNothing(at, init);
      DirectFilesAre(at, init, at + [last.name]);
      assert (at + [last.name])[|at|] == last.name;
      assert forall i :: 0 <= i < |init| ==> (at + [init[i].name])[|at|] != last.name;
      DistinctConcat(DirectFiles(at, init), if last.File? then [at + [last.name]] else []);
    }
  }

  lemma {:induction false} DeeperRepeatsNothing(at: Path, entries: seq<Node>, excluded: set<string>)
    requires DistinctNames(entries)
    ensures NoDuplicates(Deeper(at, entries, excluded))
    decreases entries, 0
  {
    if entries != [] {
      var last, init := entries[|entries| - 1], entries[..|entries| - 1];
      DeeperRepeatsNothing(at, init, excluded);
      if IsEntered(last, excluded) {
        var own := Walk(at + [last.name], last.entries, excluded);
        EachFileIsWalkedOnce(at + [last.name], last.entries, excluded);
        forall path | path in own
          ensures path !in Deeper(at, init, excluded)
        {
          WalkStartsAt(at, last, path, excluded);
          DeeperFilesAre(at, init, path, excluded);
          forall i | 0 <= i < |init|
            ensures !LiesUnder(at, init[i], path, excluded)
          {
            if LiesUnder(at, init[i], path, excluded) {
              WalkStartsAt(at, init[i], path, excluded);
            }
          }
        }
        DistinctConcat(own, Deeper(at, init, excluded));
      }
    }
  }

  lemma {:induction false} WalkStartsAt(at: Path, node: Node, path: Path, excluded: set<string>)
    requires node.Dir? && path in Walk(at + [node.name], node.entries, excluded)
    ensures |path| > |at| + 1 && path[|at|] == node.name
  {
    WalkFindsExactlyTheFiles(at + [node.name], node.entries, path, excluded);
    assert (at + [node.name])[|at|] == node.name;
  }

  /** With distinct sibling names no file is walked twice. */
  lemma {:induction false} EachFileIsWalkedOnce(at: Path, entries: seq<Node>, excluded: set<string>)
    requires DistinctNames(entries)
    ensures NoDuplicates(Walk(at, entries, excluded))
    decreases entries, 1
  {
    DirectFilesRepeatNothing(at, entries);
    DeeperRepeatsNothing(at, entries, excluded);
    forall path | path in DirectFiles(at, entries)
      ensures path !in Deeper(at, entries, excluded)
    {
      DirectFilesAre(at, entries, path);
      DeeperFilesAre(at, entries, path, excluded);
      forall i | 0 <= i < |entries|
        ensures !LiesUnder(at, entries[i], path, excluded)
      {
        if LiesUnder(at, entries[i], path, excluded) {
          WalkStartsAt(at, entries[i], path, excluded);
        }
      }
    }
    DistinctConcat(DirectFiles(at, entries), Deeper(at, entries, excluded));
  }
}
