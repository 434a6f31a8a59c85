/**
  Bundles the generator describes and the verifier refuses
  (crates/protocol/src/bin/ego-browser-learning-bundle.rs:151-221 against
  crates/protocol/src/learning.rs:119-122 and 195-273).
 */
module BundleLimits {
  import opened Wrappers
  import opened BundleTree
  import opened BundlePaths
  import opened BundleInventory
  import opened LearningBundle
  import opened BundleGenerator

  /** Every directory has a file beneath it, read off the tree. */
  predicate Filled(es: seq<Entry>) {
    es == [] || ((es[0].Dir? ==> HoldsFile(es[0].entries) && Filled(es[0].entries)) && Filled(es[1..]))
  }

  predicate HoldsFile(es: seq<Entry>) {
    es != [] && (es[0].File? || (es[0].Dir? && HoldsFile(es[0].entries)) || HoldsFile(es[1..]))
  }

  lemma {:induction false} HeldFile(es: seq<Entry>, at: Path) returns (f: Path)
    requires HoldsFile(es)
    ensures f in FilesIn(es, at)
  {
    if es[0].File? {
      f := at + [es[0].name];
    } else if es[0].Dir? && HoldsFile(es[0].entries) {
      f := HeldFile(es[0].entries, at + [es[0].name]);
    } else {
      f := HeldFile(es[1..], at);
    }
  }

  lemma {:induction false} FilledDirectory(es: seq<Entry>, at: Path, d: Path) returns (f: Path)
    requires Filled(es) && d in DirsIn(es, at)
    ensures f in FilesIn(es, at) && Under(d, f)
  {
    var e := es[0];
    if d in DirsIn(es[1..], at) {
      f := FilledDirectory(es[1..], at, d);
    } else if d == at + [e.name] {
      f := HeldFile(e.entries, d);
      ListedIsBelow(e.entries, d, f);
    } else {
      f := FilledDirectory(e.entries, at + [e.name], d);
    }
  }

  lemma FilledHolds(root: seq<Entry>)
    requires Filled(root)
    ensures EveryDirectoryHoldsAFile(root)
  {
    forall d | d in DirsIn(root, []) ensures exists f :: f in FilesIn(root, []) && Under(d, f) {
      var f := FilledDirectory(root, [], d);
    }
  }

  // ---------------------------------------------------------------- an empty directory, an extra entry

  function OneFile(name: string): seq<Entry> {
    [File(name, [])]
  }

  /** `learnings` holds a file and a directory with nothing in it. */
  function EmptyDirectoryBundle(name: string, empty: string, manifest: seq<byte>): seq<Entry> {
    [Dir("learnings", [File(name, [])] + [Dir(empty, [])])] + [File("manifest.json", manifest)]
  }

  /** A file beside `learnings` and the manifest. */
  function ExtraEntryBundle(name: string, extra: string, manifest: seq<byte>): seq<Entry> {
    [Dir("learnings", OneFile(name))] + ([File("manifest.json", manifest)] + [File(extra, [])])
  }

  lemma LastEntry(e: Entry, at: Path)
    ensures FilesIn([e], at) == FilesOf(e, at) && DirsIn([e], at) == DirsOf(e, at) && BytesIn([e]) == BytesOf(e)
    ensures PlainName(e.name) && (e.Dir? ==> WellNamed(e.entries)) ==> WellNamed([e])
    ensures !e.Link? && !e.Special? && (e.Dir? ==> LinkFree(e.entries)) ==> LinkFree([e])
    ensures Filled([e]) <==> (e.Dir? ==> HoldsFile(e.entries) && Filled(e.entries))
  {
    assert [e][1..] == [];
  }

  lemma MoreEntries(e: Entry, es: seq<Entry>, at: Path)
    ensures FilesIn([e] + es, at) == FilesOf(e, at) + FilesIn(es, at)
    ensures DirsIn([e] + es, at) == DirsOf(e, at) + DirsIn(es, at)
    ensures BytesIn([e] + es) == BytesOf(e) + BytesIn(es)
    ensures WellNamed([e] + es) <==>
      PlainName(e.name) && e.name !in Names(es) && (e.Dir? ==> WellNamed(e.entries)) && WellNamed(es)
    ensures LinkFree([e] + es) <==> !e.Link? && !e.Special? && (e.Dir? ==> LinkFree(e.entries)) && LinkFree(es)
    ensures Filled([e] + es) <==> (e.Dir? ==> HoldsFile(e.entries) && Filled(e.entries)) && Filled(es)
  {
    assert ([e] + es)[1..] == es;
  }

  /** The root of a bundle, entry by entry. */
  lemma RootOf(learnings: seq<Entry>, rest: seq<Entry>)
    requires WellNamed(learnings) && LinkFree(learnings) && WellNamed(rest) && LinkFree(rest)
      && "learnings" !in Names(rest)
    ensures var root := [Dir("learnings", learnings)] + rest;
      && WellNamed(root) && LinkFree(root)
      && LearningsOf(root) == Some(Frame(LEARNINGS, learnings))
      && DirsIn(root, []) == multiset{LEARNINGS} + DirsIn(learnings, LEARNINGS) + DirsIn(rest, [])
      && FilesIn(root, []) == FilesIn(learnings, LEARNINGS) + FilesIn(rest, [])
      && Find(root, MANIFEST) == Find(rest, MANIFEST)
      && (Filled(root) <==> HoldsFile(learnings) && Filled(learnings) && Filled(rest))
  {
    var root := [Dir("learnings", learnings)] + rest;
    MoreEntries(Dir("learnings", learnings), rest, []);
    assert root[1..] == rest && [] + ["learnings"] == LEARNINGS;
  }

  lemma ManifestOnly(manifest: seq<byte>)
    ensures var es := [File("manifest.json", manifest)];
      && WellNamed(es) && LinkFree(es) && Filled(es) && "learnings" !in Names(es)
      && FilesIn(es, []) == multiset{MANIFEST} && DirsIn(es, []) == multiset{}
      && Find(es, MANIFEST) == Some(File("manifest.json", manifest))
  {
    LastEntry(File("manifest.json", manifest), []);
    assert [] + ["manifest.json"] == MANIFEST;
  }

  /** A manifest can be generated from one file, and none is accepted beside an empty directory. */
  lemma EmptyDirectoryIsRefused(name: string, empty: string, manifest: seq<byte>, m: Manifest, sha: Digest)
    requires PlainName(name) && PlainName(empty) && name != empty
    ensures var root := EmptyDirectoryBundle(name, empty, manifest);
      && WellNamed(root) && Collectable(root) && OnlyBundle(root)
      && FilesIn(LearningsOf(root).value.entries, LEARNINGS) == multiset{LEARNINGS + [name]}
      && (Built(root, m, sha) ==> !Accepts(root, m.(signed := true), sha))
  {
    var inner := [File(name, [])] + [Dir(empty, [])];
    var root := EmptyDirectoryBundle(name, empty, manifest);
    LastEntry(Dir(empty, []), LEARNINGS);
    MoreEntries(File(name, []), [Dir(empty, [])], LEARNINGS);
    ManifestOnly(manifest);
    RootOf(inner, [File("manifest.json", manifest)]);
    var d := LEARNINGS + [empty];
    assert d in DirsIn(inner, LEARNINGS);
    if Built(root, m, sha) {
      ListingPaths(root, m.files, sha);
      assert forall k :: 1 <= k < |LEARNINGS + [name]| ==> (LEARNINGS + [name])[..k] != d;
      assert d in AllBut(DirsIn(root, []), {});
    }
  }

  /** The same beside an entry the generator does not look at. */
  lemma ExtraEntryIsRefused(name: string, extra: string, manifest: seq<byte>, m: Manifest, sha: Digest)
    requires PlainName(name) && PlainName(extra) && extra != "learnings" && extra != "manifest.json"
    ensures var root := ExtraEntryBundle(name, extra, manifest);
      && WellNamed(root) && Collectable(root) && EveryDirectoryHoldsAFile(root)
      && FilesIn(LearningsOf(root).value.entries, LEARNINGS) == multiset{LEARNINGS + [name]}
      && (Built(root, m, sha) ==> !Accepts(root, m.(signed := true), sha))
  {
    var rest := [File("manifest.json", manifest)] + [File(extra, [])];
    var root := ExtraEntryBundle(name, extra, manifest);
    LastEntry(File(extra, []), []);
    LastEntry(File(name, []), LEARNINGS);
    MoreEntries(File("manifest.json", manifest), [File(extra, [])], []);
    RootOf(OneFile(name), rest);
    FilledHolds(root);
    assert [] + [extra] == [extra];
    if Built(root, m, sha) { UnlistedIsRefused(root, name, [extra], m, sha); }
  }

  lemma UnlistedIsRefused(root: seq<Entry>, name: string, extra: Path, m: Manifest, sha: Digest)
    requires WellNamed(root) && Built(root, m, sha) && extra in FilesIn(root, []) && extra != MANIFEST
    requires FilesIn(LearningsOf(root).value.entries, LEARNINGS) == multiset{LEARNINGS + [name]} && |extra| == 1
    ensures !Accepts(root, m.(signed := true), sha)
  {
    ListingPaths(root, m.files, sha);
    assert extra in AllBut(FilesIn(root, []), {MANIFEST});
    assert |LEARNINGS + [name]| == 2;
  }

  // ---------------------------------------------------------------- a manifest that grows too large

  /** Characters of the listed paths, each of which the manifest holds with at least one byte. */
  function PathChars(files: seq<LearningFile>): nat {
    if files == [] then 0 else PathChars(files[..|files| - 1]) + |files[|files| - 1].path|
  }

  lemma {:induction false} LongPathsAdd(files: seq<LearningFile>)
    requires forall i :: 0 <= i < |files| ==> |files[i].path| >= 300
    ensures PathChars(files) >= 300 * |files|
  {
    if files != [] { LongPathsAdd(files[..|files| - 1]); }
  }

  function Row(c: char, n: nat): (name: string)
    ensures |name| == n && forall i :: 0 <= i < n ==> name[i] == c
  {
    seq(n, _ => c)
  }

  /** `n` empty files whose names differ in length. */
  function Leaves(n: nat): (es: seq<Entry>)
    ensures |es| == n
  {
    if n == 0 then [] else [File(Row('b', 55 + n), [])] + Leaves(n - 1)
  }

  /** `k` directories of `n` files each. */
  function Shelves(k: nat, n: nat): (es: seq<Entry>)
    ensures |es| == k
  {
    if k == 0 then [] else [Dir(Row('a', 235 + k), Leaves(n))] + Shelves(k - 1, n)
  }

  function LargeBundle(k: nat, n: nat, manifest: seq<byte>): seq<Entry> {
    [Dir("learnings", Shelves(k, n))] + [File("manifest.json", manifest)]
  }

  lemma {:induction false} LeavesAre(n: nat, at: Path)
    ensures WellNamed(Leaves(n)) && LinkFree(Leaves(n)) && Filled(Leaves(n)) && (n > 0 ==> HoldsFile(Leaves(n)))
    ensures BytesIn(Leaves(n)) == 0 && |FilesIn(Leaves(n), at)| == n
    ensures forall name :: name in Names(Leaves(n)) ==> 55 < |name| <= 55 + n
  {
    if n > 0 {
      LeavesAre(n - 1, at);
      MoreEntries(File(Row('b', 55 + n), []), Leaves(n - 1), at);
      PlainRow('b', 55 + n);
    }
  }

  lemma PlainRow(c: char, n: nat)
    requires n > 2 && c != '/'
    ensures PlainName(Row(c, n))
  {}

  lemma {:induction false} ShelvesAre(k: nat, n: nat)
    requires n > 0
    ensures WellNamed(Shelves(k, n)) && LinkFree(Shelves(k, n)) && Filled(Shelves(k, n))
    ensures k > 0 ==> HoldsFile(Shelves(k, n))
    ensures BytesIn(Shelves(k, n)) == 0
    ensures forall name :: name in Names(Shelves(k, n)) ==> 235 < |name| <= 235 + k
  {
    if k > 0 {
      var shelf := Dir(Row('a', 235 + k), Leaves(n));
      ShelvesAre(k - 1, n);
      LeavesAre(n, []);
      MoreEntries(shelf, Shelves(k - 1, n), []);
      PlainRow('a', 235 + k);
      assert Names(Shelves(k, n)) == {shelf.name} + Names(Shelves(k - 1, n));
    }
  }

  lemma {:induction false} ShelvesHold(k: nat, n: nat, at: Path)
    ensures |FilesIn(Shelves(k, n), at)| == k * n
  {
    if k > 0 {
      var name := Row('a', 235 + k);
      ShelvesHold(k - 1, n, at);
      LeavesAre(n, at + [name]);
      MoreEntries(Dir(name, Leaves(n)), Shelves(k - 1, n), at);
      OneMoreRow(k, n);
    }
  }

  lemma OneMoreRow(k: nat, n: nat)
    requires k > 0
    ensures k * n == n + (k - 1) * n
  {}

  lemma {:induction false} LeafPath(n: nat, at: Path, p: Path)
    requires p in FilesIn(Leaves(n), at)
    ensures |p| == |at| + 1 && p[..|at|] == at && |p[|at|]| > 55
  {
    MoreEntries(File(Row('b', 55 + n), []), Leaves(n - 1), at);
    if p in FilesIn(Leaves(n - 1), at) { LeafPath(n - 1, at, p); }
  }

  lemma {:induction false} ShelfPath(k: nat, n: nat, at: Path, p: Path)
    requires p in FilesIn(Shelves(k, n), at)
    ensures |p| == |at| + 2 && p[..|at|] == at && |p[|at|]| > 235 && |p[|at| + 1]| > 55
  {
    var here := at + [Row('a', 235 + k)];
    MoreEntries(Dir(Row('a', 235 + k), Leaves(n)), Shelves(k - 1, n), at);
    if p in FilesIn(Shelves(k - 1, n), at) {
      ShelfPath(k - 1, n, at, p);
    } else {
      LeafPath(n, here, p);
      assert p[..|at|] == here[..|at|] == at && p[|at|] == here[|at|];
    }
  }

  lemma LargeBundleIsCollectable(k: nat, n: nat, manifest: seq<byte>)
    requires k > 0 && n > 0 && k * n <= MAX_BUNDLE_FILES
    ensures var root := LargeBundle(k, n, manifest);
      && WellNamed(root) && Collectable(root) && OnlyBundle(root) && EveryDirectoryHoldsAFile(root)
      && LearningsOf(root) == Some(Frame(LEARNINGS, Shelves(k, n)))
      && Find(root, MANIFEST) == Some(File("manifest.json", manifest))
  {
    ShelvesAre(k, n);
    ShelvesHold(k, n, LEARNINGS);
    SoundBundle(Shelves(k, n), manifest);
  }

  /** A learnings tree within the limits, under a root with nothing else. */
  lemma SoundBundle(learnings: seq<Entry>, manifest: seq<byte>)
    requires WellNamed(learnings) && LinkFree(learnings) && Filled(learnings) && HoldsFile(learnings)
    requires |FilesIn(learnings, LEARNINGS)| <= MAX_BUNDLE_FILES && BytesIn(learnings) <= MAX_BUNDLE_BYTES
    ensures var root := [Dir("learnings", learnings)] + [File("manifest.json", manifest)];
      && WellNamed(root) && Collectable(root) && OnlyBundle(root) && EveryDirectoryHoldsAFile(root)
      && LearningsOf(root) == Some(Frame(LEARNINGS, learnings))
      && Find(root, MANIFEST) == Some(File("manifest.json", manifest))
  {
    ManifestOnly(manifest);
    RootOf(learnings, [File("manifest.json", manifest)]);
    FilledHolds([Dir("learnings", learnings)] + [File("manifest.json", manifest)]);
  }

  /**
    Empty files in names of ordinary length, such as two hundred in each of twenty
    directories: a manifest is generated, nothing else is wrong with the root, and any
    way of writing that manifest down exceeds what the verifier reads.
   */
  lemma LargeManifestIsRefused(k: nat, n: nat, m: Manifest, sha: Digest, manifest: seq<byte>)
    requires k > 0 && n > 0 && 3500 <= k * n <= MAX_BUNDLE_FILES
    ensures var root := LargeBundle(k, n, manifest);
      && WellNamed(root) && Collectable(root) && OnlyBundle(root) && EveryDirectoryHoldsAFile(root)
      && (Built(root, m, sha) && |manifest| >= PathChars(m.files) ==>
            |manifest| > MAX_MANIFEST_BYTES && !Accepts(root, m.(signed := true), sha))
  {
    LargeBundleIsCollectable(k, n, manifest);
    LongManifestIsRefused(LargeBundle(k, n, manifest), k, n, m, sha, manifest);
  }

  lemma LongManifestIsRefused(root: seq<Entry>, k: nat, n: nat, m: Manifest, sha: Digest, manifest: seq<byte>)
    requires WellNamed(root) && LearningsOf(root) == Some(Frame(LEARNINGS, Shelves(k, n))) && k * n >= 3500
    requires Find(root, MANIFEST) == Some(File("manifest.json", manifest))
    ensures Built(root, m, sha) && |manifest| >= PathChars(m.files) ==>
      |manifest| > MAX_MANIFEST_BYTES && !Accepts(root, m.(signed := true), sha)
  {
    if Built(root, m, sha) && |manifest| >= PathChars(m.files) {
      ShelvesHold(k, n, LEARNINGS);
      LongListing(root, k, n, m.files, sha);
    }
  }

  lemma LongListing(root: seq<Entry>, k: nat, n: nat, files: seq<LearningFile>, sha: Digest)
    requires WellNamed(root) && IsListing(root, files, sha)
    requires LearningsOf(root) == Some(Frame(LEARNINGS, Shelves(k, n)))
    ensures PathChars(files) >= 300 * |FilesIn(Shelves(k, n), LEARNINGS)|
  {
    forall i | 0 <= i < |files| ensures |files[i].path| >= 300 {
      var p := ListingEntry(root, files, sha, i);
      ShelfPath(k, n, LEARNINGS, p);
      assert p[..1][0] == p[0];
      JoinOfThree(p);
    }
    assert |Texts(files)| == |FilesIn(Shelves(k, n), LEARNINGS)|;
    LongPathsAdd(files);
  }

  lemma JoinOfThree(p: Path)
    requires |p| == 3
    ensures |Join(p)| == |p[0]| + |p[1]| + |p[2]| + 2
  {
    assert Join(p[1..][1..]) == p[2];
    assert Join(p[1..]) == p[1] + "/" + p[2];
  }
}
