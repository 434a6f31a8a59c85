/**
  Worklist walks of a bundle tree, and the inventory check built on one
  (crates/protocol/src/learning.rs:195-273).
 */
module BundleInventory {
  import opened BundleTree

  const MANIFEST: Path := ["manifest.json"]

  // ---------------------------------------------------------------- worklists

  /** A directory still to be visited. */
  datatype Frame = Frame(at: Path, entries: seq<Entry>)

  function StackFiles(stack: seq<Frame>): multiset<Path> {
    if stack == [] then multiset{} else StackFiles(Rest(stack)) + FilesIn(Top(stack).entries, Top(stack).at)
  }

  function StackDirs(stack: seq<Frame>): multiset<Path> {
    if stack == [] then multiset{} else StackDirs(Rest(stack)) + DirsIn(Top(stack).entries, Top(stack).at)
  }

  function StackBytes(stack: seq<Frame>): nat {
    if stack == [] then 0 else StackBytes(Rest(stack)) + BytesIn(Top(stack).entries)
  }

  predicate StackLinkFree(stack: seq<Frame>) {
    stack == [] || (StackLinkFree(Rest(stack)) && LinkFree(Top(stack).entries))
  }

  /** How many directories are still to be opened, now or later. */
  function StackWeight(stack: seq<Frame>): nat {
    if stack == [] then 0 else StackWeight(Rest(stack)) + 1 + Weight(Top(stack).entries)
  }

  function Weight(es: seq<Entry>): nat {
    if es == [] then 0 else (if es[0].Dir? then 1 + Weight(es[0].entries) else 0) + Weight(es[1..])
  }

  function Top(stack: seq<Frame>): Frame
    requires stack != []
  {
    stack[|stack| - 1]
  }

  function Rest(stack: seq<Frame>): seq<Frame>
    requires stack != []
  {
    stack[..|stack| - 1]
  }

  /**
    A walk of `base` that has met `seen` files and `dirs` directories, has `stack`
    still to open and `rest` of the directory `at` still to read.
   */
  predicate Accounts(base: Frame, seen: multiset<Path>, dirs: set<Path>, stack: seq<Frame>, rest: seq<Entry>,
                     at: Path) {
    && FilesIn(base.entries, base.at) == seen + StackFiles(stack) + FilesIn(rest, at)
    && DirsIn(base.entries, base.at) == multiset(dirs) + StackDirs(stack) + DirsIn(rest, at)
    && (LinkFree(base.entries) <==> StackLinkFree(stack) && LinkFree(rest))
  }

  lemma FileStep(base: Frame, seen: multiset<Path>, dirs: set<Path>, stack: seq<Frame>, rest: seq<Entry>, at: Path)
    requires Accounts(base, seen, dirs, stack, rest, at) && rest != [] && rest[0].File?
    ensures var f := at + [rest[0].name];
      && f in FilesIn(base.entries, base.at)
      && (f in seen ==> FilesIn(base.entries, base.at)[f] >= 2)
      && Accounts(base, seen + multiset{f}, dirs, stack, rest[1..], at)
  {
    var f := at + [rest[0].name];
    assert FilesIn(rest, at) == multiset{f} + FilesIn(rest[1..], at);
    assert DirsIn(rest, at) == DirsIn(rest[1..], at);
  }

  lemma DirStep(base: Frame, seen: multiset<Path>, dirs: set<Path>, stack: seq<Frame>, rest: seq<Entry>, at: Path)
    requires Accounts(base, seen, dirs, stack, rest, at) && rest != [] && rest[0].Dir?
    ensures var d := at + [rest[0].name];
      && d in DirsIn(base.entries, base.at)
      && (d in dirs ==> DirsIn(base.entries, base.at)[d] >= 2)
      && (d !in dirs ==> Accounts(base, seen, dirs + {d}, stack + [Frame(d, rest[0].entries)], rest[1..], at))
      && StackWeight(stack + [Frame(d, rest[0].entries)]) + Weight(rest[1..]) == StackWeight(stack) + Weight(rest)
  {
    var d, sub := at + [rest[0].name], rest[0].entries;
    PushUnfolds(stack, d, rest[0], at);
    HeadUnfolds(rest, at);
    Regroup(seen, StackFiles(stack), FilesIn(sub, d), FilesIn(rest[1..], at));
    DirsRegroup(dirs, d, StackDirs(stack), DirsIn(sub, d), DirsIn(rest[1..], at));
  }

  lemma LinkStep(base: Frame, seen: multiset<Path>, dirs: set<Path>, stack: seq<Frame>, rest: seq<Entry>, at: Path)
    requires Accounts(base, seen, dirs, stack, rest, at) && rest != [] && (rest[0].Link? || rest[0].Special?)
    ensures !LinkFree(base.entries)
  {}

  lemma PopStep(base: Frame, seen: multiset<Path>, dirs: set<Path>, stack: seq<Frame>, at: Path)
    requires Accounts(base, seen, dirs, stack, [], at) && stack != []
    ensures Accounts(base, seen, dirs, Rest(stack), Top(stack).entries, Top(stack).at)
  {
    var top := Top(stack);
    assert FilesIn([], at) == multiset{} && DirsIn([], at) == multiset{};
    PopRegroup(seen, StackFiles(Rest(stack)), FilesIn(top.entries, top.at));
    PopRegroup(multiset(dirs), StackDirs(Rest(stack)), DirsIn(top.entries, top.at));
  }

  lemma PopRegroup(a: multiset<Path>, b: multiset<Path>, c: multiset<Path>)
    ensures a + (b + c) + multiset{} == a + b + c
  {}

  lemma StartWalk(base: Frame)
    ensures Accounts(base, multiset{}, {}, [base], [], [])
  {
    var files, dirs := FilesIn(base.entries, base.at), DirsIn(base.entries, base.at);
    assert Rest([base]) == [] && Top([base]) == base;
    assert FilesIn([], []) == multiset{} && DirsIn([], []) == multiset{};
    assert StackFiles([base]) == multiset{} + files == files && StackDirs([base]) == multiset{} + dirs == dirs;
    assert multiset{} + files + multiset{} == files && multiset{} + dirs + multiset{} == dirs;
    var none: set<Path> := {};
    assert multiset(none) == multiset{};
    assert files == multiset{} + StackFiles([base]) + FilesIn([], []);
    assert dirs == multiset(none) + StackDirs([base]) + DirsIn([], []);
    assert StackLinkFree([base]) <==> StackLinkFree([]) && LinkFree(base.entries);
  }

  lemma EndWalk(base: Frame, seen: multiset<Path>, dirs: set<Path>, at: Path)
    requires Accounts(base, seen, dirs, [], [], at)
    ensures LinkFree(base.entries) && FilesIn(base.entries, base.at) == seen
      && DirsIn(base.entries, base.at) == multiset(dirs)
  {}

  lemma PushUnfolds(stack: seq<Frame>, d: Path, e: Entry, at: Path)
    requires e.Dir?
    ensures var pushed := stack + [Frame(d, e.entries)];
      && StackFiles(pushed) == StackFiles(stack) + FilesIn(e.entries, d)
      && StackDirs(pushed) == StackDirs(stack) + DirsIn(e.entries, d)
      && StackWeight(pushed) == StackWeight(stack) + 1 + Weight(e.entries)
      && (StackLinkFree(pushed) <==> StackLinkFree(stack) && LinkFree(e.entries))
  {
    var pushed := stack + [Frame(d, e.entries)];
    assert Top(pushed) == Frame(d, e.entries) && Rest(pushed) == stack;
  }

  lemma HeadUnfolds(rest: seq<Entry>, at: Path)
    requires rest != [] && rest[0].Dir?
    ensures var d, sub := at + [rest[0].name], rest[0].entries;
      && FilesIn(rest, at) == FilesIn(sub, d) + FilesIn(rest[1..], at)
      && DirsIn(rest, at) == multiset{d} + DirsIn(sub, d) + DirsIn(rest[1..], at)
  {}

  lemma Regroup(a: multiset<Path>, b: multiset<Path>, c: multiset<Path>, d: multiset<Path>)
    ensures a + b + (c + d) == a + (b + c) + d
  {}

  lemma DirsRegroup(dirs: set<Path>, d: Path, b: multiset<Path>, c: multiset<Path>, e: multiset<Path>)
    ensures var all := multiset(dirs) + b + (multiset{d} + c + e);
      && d in all
      && (d in dirs ==> all[d] >= 2)
      && (d !in dirs ==> all == multiset(dirs + {d}) + (b + c) + e)
  {}

  // ---------------------------------------------------------------- the inventory check

  /** Nothing but the listed files, their directories and the root manifest. */
  predicate ExactInventory(root: seq<Entry>, expected: set<Path>) {
    Fits(Frame([], root), expected, Ancestors(expected))
  }

  predicate Fits(base: Frame, files: set<Path>, directories: set<Path>) {
    && LinkFree(base.entries)
    && AllBut(FilesIn(base.entries, base.at), {MANIFEST}) == files
    && AllBut(DirsIn(base.entries, base.at), {}) == directories
  }

  function AllBut(paths: multiset<Path>, omitted: set<Path>): set<Path> {
    set p | p in paths && p !in omitted
  }

  method ExpectedDirectories(expected: set<Path>) returns (directories: set<Path>)
    ensures directories == Ancestors(expected)
  {
    directories := {};
    var todo := expected;
    while todo != {}
      invariant todo <= expected && directories == Ancestors(expected - todo)
      decreases todo
    {
      var path :| path in todo;
      var parents := Parents(path);
      ghost var before := expected - todo;
      directories, todo := directories + parents, todo - {path};
      assert expected - todo == before + {path};
      AncestorsJoin(before, path);
    }
    assert expected - todo == expected;
  }

  lemma AncestorsJoin(files: set<Path>, path: Path)
    ensures Ancestors(files + {path}) == Ancestors(files) + Ancestors({path})
  {}

  method Parents(path: Path) returns (parents: set<Path>)
    ensures parents == Ancestors({path})
  {
    parents := {};
    var parent := path;
    while |parent| > 1
      invariant |parent| <= |path| && (path != [] ==> parent != []) && parent == path[..|parent|]
      invariant parents == set k | |parent| <= k < |path| :: path[..k]
    {
      ghost var k := |parent| - 1;
      parent := parent[..|parent| - 1];
      parents := parents + {parent};
      assert parent == path[..k];
    }
    assert parents == set k | 1 <= k < |path| :: path[..k];
  }

  /** What a walk has observed and what it has still to open. */
  datatype Walk = Walk(observed: set<Path>, observedDirectories: set<Path>, directories: seq<Frame>)

  predicate WalkAccounts(base: Frame, seen: multiset<Path>, w: Walk, rest: seq<Entry>, at: Path) {
    Accounts(base, seen, w.observedDirectories, w.directories, rest, at) && w.observed == AllBut(seen, {MANIFEST})
  }

  /** What a walk becomes past a file, and past a directory it met for the first time. */
  function PastFile(w: Walk, f: Path): Walk {
    if f == MANIFEST then w else w.(observed := w.observed + {f})
  }

  function PastDir(w: Walk, d: Path, entries: seq<Entry>): Walk {
    w.(observedDirectories := w.observedDirectories + {d}, directories := w.directories + [Frame(d, entries)])
  }

  lemma WalkFile(base: Frame, seen: multiset<Path>, w: Walk, rest: seq<Entry>, at: Path)
    requires WalkAccounts(base, seen, w, rest, at) && rest != [] && rest[0].File?
    ensures var f := at + [rest[0].name];
      && (f != MANIFEST ==> f in AllBut(FilesIn(base.entries, base.at), {MANIFEST}))
      && WalkAccounts(base, seen + multiset{f}, PastFile(w, f), rest[1..], at)
  {
    FileStep(base, seen, w.observedDirectories, w.directories, rest, at);
    SeenGrows(seen, at + [rest[0].name]);
  }

  lemma SeenGrows(seen: multiset<Path>, f: Path)
    ensures AllBut(seen + multiset{f}, {MANIFEST}) == AllBut(seen, {MANIFEST}) + (if f == MANIFEST then {} else {f})
  {}

  lemma WalkDir(base: Frame, seen: multiset<Path>, w: Walk, rest: seq<Entry>, at: Path)
    requires WalkAccounts(base, seen, w, rest, at) && rest != [] && rest[0].Dir? && WellNamed(base.entries)
    ensures var d := at + [rest[0].name];
      && d in AllBut(DirsIn(base.entries, base.at), {}) && d !in w.observedDirectories
      && WalkAccounts(base, seen, PastDir(w, d, rest[0].entries), rest[1..], at)
      && StackWeight(PastDir(w, d, rest[0].entries).directories)
         + Weight(rest[1..]) == StackWeight(w.directories) + Weight(rest)
  {
    DirStep(base, seen, w.observedDirectories, w.directories, rest, at);
    ListedOnce(base.entries, base.at, at + [rest[0].name]);
  }

  lemma NotListed(base: Frame, p: Path, files: set<Path>, directories: set<Path>)
    requires || !LinkFree(base.entries)
             || (p in AllBut(FilesIn(base.entries, base.at), {MANIFEST}) && p !in files)
             || (p in AllBut(DirsIn(base.entries, base.at), {}) && p !in directories)
    ensures !Fits(base, files, directories)
  {}

  method ReadEntry(entry: Entry, at: Path, before: Walk, files: set<Path>, directories: set<Path>,
                   ghost base: Frame, ghost met: multiset<Path>, ghost rest: seq<Entry>)
    returns (listed: bool, w: Walk, ghost seen: multiset<Path>)
    requires WellNamed(base.entries) && rest != [] && entry == rest[0] && WalkAccounts(base, met, before, rest, at)
    ensures if listed then
              && WalkAccounts(base, seen, w, rest[1..], at)
              && StackWeight(w.directories) + Weight(rest[1..]) == StackWeight(before.directories) + Weight(rest)
            else !Fits(base, files, directories)
  {
    w, seen := before, met;
    var relative := at + [entry.name];
    if entry.Link? || entry.Special? {
      LinkStep(base, seen, w.observedDirectories, w.directories, rest, at);
      NotListed(base, relative, files, directories);
      return false, w, seen;
    }
    if entry.Dir? {
      WalkDir(base, seen, w, rest, at);
      if relative !in directories || relative in w.observedDirectories {
        NotListed(base, relative, files, directories);
        return false, w, seen;
      }
      return true, PastDir(w, relative, entry.entries), seen;
    }
    WalkFile(base, seen, w, rest, at);
    if relative != MANIFEST && relative !in files {
      NotListed(base, relative, files, directories);
      return false, w, seen;
    }
    return true, PastFile(w, relative), seen + multiset{relative};
  }

  method ReadDirectory(frame: Frame, before: Walk, files: set<Path>, directories: set<Path>, ghost base: Frame,
                       ghost met: multiset<Path>)
    returns (listed: bool, w: Walk, ghost seen: multiset<Path>)
    requires WellNamed(base.entries) && WalkAccounts(base, met, before, frame.entries, frame.at)
    ensures if listed then
              && WalkAccounts(base, seen, w, [], frame.at)
              && StackWeight(w.directories) == StackWeight(before.directories) + Weight(frame.entries)
            else !Fits(base, files, directories)
  {
    listed, w, seen := true, before, met;
    for i := 0 to |frame.entries|
      invariant WalkAccounts(base, seen, w, frame.entries[i..], frame.at)
      invariant StackWeight(w.directories) + Weight(frame.entries[i..])
             == StackWeight(before.directories) + Weight(frame.entries)
    {
      assert frame.entries[i..][1..] == frame.entries[i + 1..];
      listed, w, seen := ReadEntry(frame.entries[i], frame.at, w, files, directories, base, seen, frame.entries[i..]);
      if !listed { return; }
    }
    assert frame.entries[|frame.entries|..] == [];
  }

  method VerifyCompleteInventory(root: seq<Entry>, expectedFiles: set<Path>) returns (complete: bool)
    requires WellNamed(root)
    ensures complete <==> ExactInventory(root, expectedFiles)
  {
    var expectedDirectories := ExpectedDirectories(expectedFiles);
    var w := Walk({}, {}, [Frame([], root)]);
    ghost var base, seen, at := Frame([], root), multiset{}, [];
    StartWalk(base);
    while w.directories != []
      invariant WalkAccounts(base, seen, w, [], at)
      decreases StackWeight(w.directories)
    {
      PopStep(base, seen, w.observedDirectories, w.directories, at);
      var frame := Top(w.directories);
      at := frame.at;
      var listed;
      listed, w, seen := ReadDirectory(frame, w.(directories := Rest(w.directories)), expectedFiles,
        expectedDirectories, base, seen);
      if !listed { return false; }
    }
    EndWalk(base, seen, w.observedDirectories, at);
    assert AllBut(multiset(w.observedDirectories), {}) == w.observedDirectories;
    return w.observed == expectedFiles && w.observedDirectories == expectedDirectories;
  }
}
