/**
  The offline manifest generator (crates/protocol/src/bin/ego-browser-learning-bundle.rs:129-221)
  and its agreement with the verifier.
 */
module BundleGenerator {
  import opened Wrappers
  import opened TextOrder
  import opened BundleTree
  import opened BundlePaths
  import opened BundleInventory
  import opened LearningBundle

  const LEARNINGS: Path := ["learnings"]
  const SUPPORTED_SKILL_VERSION := "2.0.0"
  const SUPPORTED_LOCAL_RUNTIME_VERSION := "0.5.0.32"

  /** The `learnings` directory of a bundle, if it is one. */
  function LearningsOf(root: seq<Entry>): Option<Frame> {
    var e := Named(root, "learnings");
    if e.Some? && e.value.Dir? then Some(Frame(LEARNINGS, e.value.entries)) else None
  }

  /** When a manifest can be generated at all. */
  predicate Collectable(root: seq<Entry>) {
    var base := LearningsOf(root);
    && base.Some? && LinkFree(base.value.entries)
    && |FilesIn(base.value.entries, LEARNINGS)| <= MAX_BUNDLE_FILES
    && BytesIn(base.value.entries) <= MAX_BUNDLE_BYTES
  }

  function ContentsAt(root: seq<Entry>, text: string): seq<byte> {
    var p := ValidRelativePath(text);
    if p.Some? && Find(root, p.value).Some? && Find(root, p.value).value.File?
    then Find(root, p.value).value.bytes else []
  }

  function Describe(root: seq<Entry>, text: string, sha: Digest): LearningFile {
    var bytes := ContentsAt(root, text);
    LearningFile(text, |bytes|, sha(bytes))
  }

  function DescribeAll(root: seq<Entry>, texts: seq<string>, sha: Digest): (files: seq<LearningFile>)
    ensures |files| == |texts| && forall i :: 0 <= i < |files| ==> files[i] == Describe(root, texts[i], sha)
  {
    seq(|texts|, i requires 0 <= i < |texts| => Describe(root, texts[i], sha))
  }

  function SizeOfAll(root: seq<Entry>, texts: seq<string>): nat {
    if texts == [] then 0 else |ContentsAt(root, texts[0])| + SizeOfAll(root, texts[1..])
  }

  /** The texts are those of the paths, in order and once each. */
  predicate Writes(texts: seq<string>, paths: multiset<Path>) {
    && Ascending(texts) && |texts| == |paths|
    && (forall p :: p in paths ==> PlainPath(p) && Join(p) in texts)
    && (forall t :: t in texts ==> exists p :: p in paths && Join(p) == t)
  }

  lemma {:induction false} InsertSize(root: seq<Entry>, texts: seq<string>, x: string)
    requires x !in texts
    ensures SizeOfAll(root, Insert(texts, x)) == SizeOfAll(root, texts) + |ContentsAt(root, x)|
    ensures |Insert(texts, x)| == |texts| + 1
  {
    if texts != [] && !Less(x, texts[0]) { InsertSize(root, texts[1..], x); }
  }

  lemma TextsAreDistinct(p: Path, q: Path)
    requires PlainPath(p) && PlainPath(q) && Join(p) == Join(q)
    ensures p == q
  {
    PathRoundTrip(p);
    PathRoundTrip(q);
  }

  lemma WritesOneMore(texts: seq<string>, paths: multiset<Path>, p: Path)
    requires Writes(texts, paths) && PlainPath(p) && p !in paths
    ensures Join(p) !in texts && Writes(Insert(texts, Join(p)), paths + multiset{p})
  {
    forall q | q in paths && Join(q) == Join(p) ensures q == p { TextsAreDistinct(q, p); }
    var more := paths + multiset{p};
    InsertHolds(texts, Join(p));
    InsertAscends(texts, Join(p));
    InsertSize([], texts, Join(p));
    forall t | t in Insert(texts, Join(p)) ensures exists q :: q in more && Join(q) == t {
      if t in texts {
        var q :| q in paths && Join(q) == t;
        assert q in more;
      } else {
        assert p in more;
      }
    }
  }

  // ---------------------------------------------------------------- the walk

  /** The generator's variables: paths gathered in order, bytes counted, directories to open. */
  datatype Collection = Collection(paths: seq<string>, total: nat, pending: seq<Frame>)

  predicate Located(root: seq<Entry>, stack: seq<Frame>) {
    forall f :: f in stack ==>
      var d := Find(root, f.at);
      d.Some? && d.value.Dir? && d.value.entries == f.entries
  }

  predicate EntriesLocated(root: seq<Entry>, rest: seq<Entry>, at: Path) {
    forall e :: e in rest ==> Find(root, at + [e.name]) == Some(e)
  }

  predicate Counted(root: seq<Entry>, base: Frame, c: Collection, rest: seq<Entry>) {
    c.total == SizeOfAll(root, c.paths) && BytesIn(base.entries) == c.total + StackBytes(c.pending) + BytesIn(rest)
  }

  predicate Collects(root: seq<Entry>, base: Frame, seen: multiset<Path>, dirs: set<Path>, c: Collection,
                     rest: seq<Entry>, at: Path) {
    && Accounts(base, seen, dirs, c.pending, rest, at)
    && Writes(c.paths, seen)
    && Counted(root, base, c, rest)
    && Located(root, c.pending) && EntriesLocated(root, rest, at)
  }

  predicate Bundle(root: seq<Entry>, base: Frame) {
    WellNamed(root) && WellNamed(base.entries) && LearningsOf(root) == Some(base)
  }

  predicate WithinLimits(c: Collection) {
    |c.paths| <= MAX_BUNDLE_FILES && c.total <= MAX_BUNDLE_BYTES
  }

  function WithFile(c: Collection, f: Path, bytes: seq<byte>): Collection {
    c.(paths := Insert(c.paths, Join(f)), total := c.total + |bytes|)
  }

  function WithDir(c: Collection, d: Path, entries: seq<Entry>): Collection {
    c.(pending := c.pending + [Frame(d, entries)])
  }

  lemma ListedHereIsPlain(base: Frame, p: Path)
    requires WellNamed(base.entries) && base.at == LEARNINGS && Listed(base.entries, base.at, p)
    ensures PlainPath(p)
  {
    ListedIsBelow(base.entries, base.at, p);
    ListedIsPlain(base.entries, base.at, p);
    assert p[..1][0] == "learnings";
    assert p[0] == "learnings";
  }

  lemma CountFile(root: seq<Entry>, base: Frame, c: Collection, rest: seq<Entry>, at: Path)
    requires Counted(root, base, c, rest) && rest != [] && rest[0].File? && EntriesLocated(root, rest, at)
    requires PlainPath(at + [rest[0].name]) && Join(at + [rest[0].name]) !in c.paths
    ensures Counted(root, base, WithFile(c, at + [rest[0].name], rest[0].bytes), rest[1..])
  {
    var f := at + [rest[0].name];
    assert rest[0] in rest;
    PathRoundTrip(f);
    InsertSize(root, c.paths, Join(f));
    assert BytesIn(rest) == BytesOf(rest[0]) + BytesIn(rest[1..]);
  }

  lemma CountDir(root: seq<Entry>, base: Frame, c: Collection, rest: seq<Entry>, d: Path)
    requires Counted(root, base, c, rest) && rest != [] && rest[0].Dir?
    ensures Counted(root, base, WithDir(c, d, rest[0].entries), rest[1..])
  {
    var pushed := c.pending + [Frame(d, rest[0].entries)];
    assert Top(pushed) == Frame(d, rest[0].entries) && Rest(pushed) == c.pending;
    assert BytesIn(rest) == BytesOf(rest[0]) + BytesIn(rest[1..]);
  }

  lemma CollectFile(root: seq<Entry>, base: Frame, seen: multiset<Path>, dirs: set<Path>, c: Collection,
                    rest: seq<Entry>, at: Path)
    requires Bundle(root, base) && Collects(root, base, seen, dirs, c, rest, at) && rest != [] && rest[0].File?
    ensures var f := at + [rest[0].name];
      && PlainPath(f) && Join(f) !in c.paths
      && Collects(root, base, seen + multiset{f}, dirs, WithFile(c, f, rest[0].bytes), rest[1..], at)
  {
    var f := at + [rest[0].name];
    FileStep(base, seen, dirs, c.pending, rest, at);
    ListedOnce(base.entries, base.at, f);
    ListedHereIsPlain(base, f);
    WritesOneMore(c.paths, seen, f);
    CountFile(root, base, c, rest, at);
  }

  lemma CollectDir(root: seq<Entry>, base: Frame, seen: multiset<Path>, dirs: set<Path>, c: Collection,
                   rest: seq<Entry>, at: Path)
    requires Bundle(root, base) && Collects(root, base, seen, dirs, c, rest, at) && rest != [] && rest[0].Dir?
    ensures var d := at + [rest[0].name];
      var next := WithDir(c, d, rest[0].entries);
      && Collects(root, base, seen, dirs + {d}, next, rest[1..], at)
      && StackWeight(next.pending) + Weight(rest[1..]) == StackWeight(c.pending) + Weight(rest)
  {
    var d := at + [rest[0].name];
    DirStep(base, seen, dirs, c.pending, rest, at);
    ListedOnce(base.entries, base.at, d);
    CountDir(root, base, c, rest, d);
    assert rest[0] in rest;
  }

  /** What has been gathered so far never exceeds the whole. */
  lemma WithinWhole(root: seq<Entry>, base: Frame, seen: multiset<Path>, dirs: set<Path>, c: Collection,
                    rest: seq<Entry>, at: Path)
    requires Collects(root, base, seen, dirs, c, rest, at)
    ensures |c.paths| <= |FilesIn(base.entries, base.at)| && c.total <= BytesIn(base.entries)
  {}

  lemma CollectPop(root: seq<Entry>, base: Frame, seen: multiset<Path>, dirs: set<Path>, c: Collection, at: Path)
    requires Bundle(root, base) && Collects(root, base, seen, dirs, c, [], at) && c.pending != []
    ensures var top := Top(c.pending);
      Collects(root, base, seen, dirs, c.(pending := Rest(c.pending)), top.entries, top.at)
  {
    var top := Top(c.pending);
    PopStep(base, seen, dirs, c.pending, at);
    assert top in c.pending;
    forall e | e in top.entries ensures Find(root, top.at + [e.name]) == Some(e) {
      ChildIsFound(root, top.at, Find(root, top.at).value, e);
    }
  }

  method CollectEntry(entry: Entry, at: Path, before: Collection,
                      ghost root: seq<Entry>, ghost base: Frame, ghost met: multiset<Path>, ghost known: set<Path>,
                        ghost rest: seq<Entry>)
    returns (ok: bool, c: Collection, ghost seen: multiset<Path>, ghost dirs: set<Path>)
    requires Bundle(root, base) && WithinLimits(before) && Collects(root, base, met, known, before, rest, at)
    requires rest != [] && rest[0] == entry
    ensures if ok then
              && WithinLimits(c) && Collects(root, base, seen, dirs, c, rest[1..], at)
              && StackWeight(c.pending) + Weight(rest[1..]) == StackWeight(before.pending) + Weight(rest)
            else !Collectable(root)
  {
    c, seen, dirs := before, met, known;
    var path := at + [entry.name];
    if entry.Link? || entry.Special? {
      LinkStep(base, seen, dirs, c.pending, rest, at);
      return false, c, seen, dirs;
    }
    if entry.Dir? {
      CollectDir(root, base, seen, dirs, c, rest, at);
      return true, WithDir(c, path, entry.entries), seen, dirs + {path};
    }
    CollectFile(root, base, seen, dirs, c, rest, at);
    var text := Join(path);
    var duplicate := text in c.paths;
    c := WithFile(c, path, entry.bytes);
    seen := seen + multiset{path};
    WithinWhole(root, base, seen, dirs, c, rest[1..], at);
    ok := !(duplicate || !PlainPath(path) || |c.paths| > MAX_BUNDLE_FILES || c.total > MAX_BUNDLE_BYTES);
  }

  method CollectDirectory(frame: Frame, before: Collection,
                          ghost root: seq<Entry>, ghost base: Frame, ghost met: multiset<Path>, ghost known: set<Path>)
    returns (ok: bool, c: Collection, ghost seen: multiset<Path>, ghost dirs: set<Path>)
    requires Bundle(root, base) && WithinLimits(before)
      && Collects(root, base, met, known, before, frame.entries, frame.at)
    ensures if ok then
              && WithinLimits(c) && Collects(root, base, seen, dirs, c, [], frame.at)
              && StackWeight(c.pending) == StackWeight(before.pending) + Weight(frame.entries)
            else !Collectable(root)
  {
    ok, c, seen, dirs := true, before, met, known;
    for i := 0 to |frame.entries|
      invariant WithinLimits(c) && Collects(root, base, seen, dirs, c, frame.entries[i..], frame.at)
      invariant StackWeight(c.pending) + Weight(frame.entries[i..])
             == StackWeight(before.pending) + Weight(frame.entries)
    {
      assert frame.entries[i..][1..] == frame.entries[i + 1..];
      ok, c, seen, dirs := CollectEntry(frame.entries[i], frame.at, c, root, base, seen, dirs, frame.entries[i..]);
      if !ok { return; }
    }
    assert frame.entries[|frame.entries|..] == [];
    ok := true;
  }

  method CollectPaths(root: seq<Entry>) returns (r: Option<seq<string>>)
    requires WellNamed(root)
    ensures r.Some? <==> Collectable(root)
    ensures r.Some? ==>
      && Writes(r.value, FilesIn(LearningsOf(root).value.entries, LEARNINGS))
      && SizeOfAll(root, r.value) == BytesIn(LearningsOf(root).value.entries)
  {
    var start := LearningsOf(root);
    if start.None? { return None; }
    var c := Collection([], 0, [start.value]);
    ghost var base, seen, dirs, at: Path := start.value, multiset{}, {}, [];
    StartCollecting(root, base);
    while c.pending != []
      invariant WithinLimits(c) && Collects(root, base, seen, dirs, c, [], at)
      decreases StackWeight(c.pending)
    {
      CollectPop(root, base, seen, dirs, c, at);
      var frame := Top(c.pending);
      at := frame.at;
      var ok;
      ok, c, seen, dirs := CollectDirectory(frame, c.(pending := Rest(c.pending)), root, base, seen, dirs);
      if !ok { return None; }
    }
    EndCollecting(root, base, seen, dirs, c, at);
    return Some(c.paths);
  }

  lemma EndCollecting(root: seq<Entry>, base: Frame, seen: multiset<Path>, dirs: set<Path>, c: Collection, at: Path)
    requires LearningsOf(root) == Some(base) && WithinLimits(c) && Collects(root, base, seen, dirs, c, [], at)
      && c.pending == []
    ensures Collectable(root)
    ensures Writes(c.paths, FilesIn(base.entries, LEARNINGS)) && SizeOfAll(root, c.paths) == BytesIn(base.entries)
  {
    EndWalk(base, seen, dirs, at);
  }

  lemma StartCollecting(root: seq<Entry>, base: Frame)
    requires WellNamed(root) && LearningsOf(root) == Some(base)
    ensures Bundle(root, base) && Collects(root, base, multiset{}, {}, Collection([], 0, [base]), [], [])
  {
    NamedIsThere(root, "learnings");
    MemberIsNamed(root, Named(root, "learnings").value);
    StartWalk(base);
    assert Rest([base]) == [] && Top([base]) == base;
  }

  // ---------------------------------------------------------------- the listing

  function Texts(files: seq<LearningFile>): (texts: seq<string>)
    ensures |texts| == |files| && forall i :: 0 <= i < |files| ==> texts[i] == files[i].path
  {
    seq(|files|, i requires 0 <= i < |files| => files[i].path)
  }

  /** The generated listing: each file under `learnings` once, in order, as it is on disk. */
  predicate IsListing(root: seq<Entry>, files: seq<LearningFile>, sha: Digest) {
    && LearningsOf(root).Some?
    && Writes(Texts(files), FilesIn(LearningsOf(root).value.entries, LEARNINGS))
    && files == DescribeAll(root, Texts(files), sha)
  }

  method CollectFiles(root: seq<Entry>, sha: Digest) returns (r: Option<seq<LearningFile>>)
    requires WellNamed(root)
    ensures r.Some? <==> Collectable(root)
    ensures r.Some? ==> IsListing(root, r.value, sha)
    ensures r.Some? ==> |r.value| <= MAX_BUNDLE_FILES && TotalSize(r.value) <= MAX_BUNDLE_BYTES
  {
    var paths := CollectPaths(root);
    if paths.None? { return None; }
    var files := [];
    for i := 0 to |paths.value|
      invariant |files| == i && forall j :: 0 <= j < i ==> files[j] == Describe(root, paths.value[j], sha)
    {
      files := files + [Describe(root, paths.value[i], sha)];
    }
    DescribedIsListing(root, paths.value, files, sha);
    return Some(files);
  }

  lemma DescribedIsListing(root: seq<Entry>, paths: seq<string>, files: seq<LearningFile>, sha: Digest)
    requires Collectable(root)
    requires |files| == |paths| && forall i :: 0 <= i < |paths| ==> files[i] == Describe(root, paths[i], sha)
    requires Writes(paths, FilesIn(LearningsOf(root).value.entries, LEARNINGS))
    requires SizeOfAll(root, paths) == BytesIn(LearningsOf(root).value.entries)
    ensures IsListing(root, files, sha) && |files| <= MAX_BUNDLE_FILES && TotalSize(files) <= MAX_BUNDLE_BYTES
  {
    assert Texts(files) == paths;
    assert files == DescribeAll(root, paths, sha);
    TotalOfDescribed(root, paths, sha);
  }

  lemma {:induction false} TotalFromFront(f: LearningFile, files: seq<LearningFile>)
    ensures TotalSize([f] + files) == f.sizeBytes + TotalSize(files)
  {
    var all := [f] + files;
    if files != [] {
      assert all[..|all| - 1] == [f] + files[..|files| - 1];
      TotalFromFront(f, files[..|files| - 1]);
    }
  }

  lemma {:induction false} TotalOfDescribed(root: seq<Entry>, texts: seq<string>, sha: Digest)
    ensures TotalSize(DescribeAll(root, texts, sha)) == SizeOfAll(root, texts)
  {
    if texts != [] {
      TotalOfDescribed(root, texts[1..], sha);
      assert DescribeAll(root, texts, sha) == [Describe(root, texts[0], sha)] + DescribeAll(root, texts[1..], sha);
      TotalFromFront(Describe(root, texts[0], sha), DescribeAll(root, texts[1..], sha));
    }
  }

  // ---------------------------------------------------------------- the generator meets the verifier

  lemma {:induction false} AscendingDiffers(texts: seq<string>, i: nat, j: nat)
    requires Ascending(texts) && i < j < |texts|
    ensures texts[i] != texts[j]
  {
    if i == 0 {
      HeadIsNew(texts);
      assert texts[1..][j - 1] == texts[j];
    } else {
      AscendingDiffers(texts[1..], i - 1, j - 1);
    }
  }

  /** Every file under `learnings` is found from the root under its own path. */
  lemma LearningIsFound(root: seq<Entry>, p: Path)
    requires WellNamed(root) && LearningsOf(root).Some?
    ensures p in FilesIn(LearningsOf(root).value.entries, LEARNINGS) ==>
      && p in FilesIn(root, []) && PlainPath(p) && |p| > 1 && p[0] == "learnings"
      && Find(root, p).Some? && Find(root, p).value.File?
  {
    var base := LearningsOf(root).value;
    NamedIsThere(root, "learnings");
    var e := Named(root, "learnings").value;
    MemberIsNamed(root, e);
    if p in FilesIn(base.entries, LEARNINGS) {
      assert [] + [e.name] == LEARNINGS;
      MemberLists(root, [], e, p);
      ListedHereIsPlain(base, p);
      ListedIsBelow(base.entries, LEARNINGS, p);
      assert p[..1][0] == p[0];
      ListedIsFound(root, [], p);
      assert [] + p == p;
    }
  }

  lemma WrittenPath(texts: seq<string>, paths: multiset<Path>, i: nat) returns (p: Path)
    requires Writes(texts, paths) && i < |texts|
    ensures p in paths && PlainPath(p) && Join(p) == texts[i]
  {
    assert texts[i] in texts;
    p :| p in paths && Join(p) == texts[i];
  }

  lemma ListingEntry(root: seq<Entry>, files: seq<LearningFile>, sha: Digest, i: nat) returns (p: Path)
    requires WellNamed(root) && IsListing(root, files, sha) && i < |files|
    ensures p in FilesIn(LearningsOf(root).value.entries, LEARNINGS)
    ensures ValidRelativePath(files[i].path) == Some(p) && Join(p) == files[i].path
    ensures EntryMatches(root, files[i], sha)
  {
    p := WrittenPath(Texts(files), FilesIn(LearningsOf(root).value.entries, LEARNINGS), i);
    LearningIsFound(root, p);
    PathRoundTrip(p);
    assert files[i] == Describe(root, Texts(files)[i], sha);
  }

  lemma ListingIsSound(root: seq<Entry>, files: seq<LearningFile>, sha: Digest)
    requires WellNamed(root) && IsListing(root, files, sha) && TotalSize(files) <= MAX_BUNDLE_BYTES
    ensures EntriesSound(root, files, sha)
  {
    forall f | f in files ensures EntryMatches(root, f, sha) {
      var i :| 0 <= i < |files| && files[i] == f;
      var _ := ListingEntry(root, files, sha, i);
    }
    forall i, j | 0 <= i < j < |files| ensures ValidRelativePath(files[i].path) != ValidRelativePath(files[j].path) {
      AscendingDiffers(Texts(files), i, j);
      var p := ListingEntry(root, files, sha, i);
      var q := ListingEntry(root, files, sha, j);
    }
  }

  lemma ListingPaths(root: seq<Entry>, files: seq<LearningFile>, sha: Digest)
    requires WellNamed(root) && IsListing(root, files, sha)
    ensures ListedPaths(files) == AllBut(FilesIn(LearningsOf(root).value.entries, LEARNINGS), {})
  {
    var all := FilesIn(LearningsOf(root).value.entries, LEARNINGS);
    forall p | p in all ensures p in ListedPaths(files) {
      LearningIsFound(root, p);
      PathRoundTrip(p);
      var i :| 0 <= i < |files| && Texts(files)[i] == Join(p);
      assert files[i] in files;
    }
    forall p | p in ListedPaths(files) ensures p in all {
      var f :| f in files && ValidRelativePath(f.path) == Some(p);
      var i :| 0 <= i < |files| && files[i] == f;
      var q := ListingEntry(root, files, sha, i);
    }
  }

  /** The root holds nothing besides `learnings` and a manifest file. */
  predicate OnlyBundle(root: seq<Entry>) {
    && Find(root, MANIFEST).Some? && Find(root, MANIFEST).value.File?
    && forall e :: e in root ==> e.name == "learnings" || e.name == "manifest.json"
  }

  predicate EveryDirectoryHoldsAFile(root: seq<Entry>) {
    forall d :: d in DirsIn(root, []) ==> exists f :: f in FilesIn(root, []) && Under(d, f)
  }

  /** Which listed paths an entry of the root accounts for. */
  lemma RootEntry(root: seq<Entry>, e: Entry)
    requires WellNamed(root) && e in root
    ensures e.File? ==> FilesOf(e, []) == multiset{[e.name]} && [e.name] in FilesIn(root, [])
    ensures e.Dir? ==> [e.name] in DirsIn(root, [])
    ensures e.name == "learnings" && e.Dir? ==>
      LearningsOf(root) == Some(Frame(LEARNINGS, e.entries)) && FilesOf(e, []) == FilesIn(e.entries, LEARNINGS)
  {
    assert [] + [e.name] == [e.name];
    MemberIsNamed(root, e);
    MemberLists(root, [], e, [e.name]);
  }

  /** With nothing else in the root, its files are the manifest and the learnings. */
  lemma OnlyLearnings(root: seq<Entry>, learnings: multiset<Path>)
    requires WellNamed(root) && OnlyBundle(root) && LearningsOf(root).Some?
    requires learnings == FilesIn(LearningsOf(root).value.entries, LEARNINGS)
    ensures AllBut(FilesIn(root, []), {MANIFEST}) == AllBut(learnings, {})
  {
    forall p | p in FilesIn(root, []) && p != MANIFEST ensures p in learnings {
      var e := FileListedBy(root, [], p);
      RootEntry(root, e);
      MemberIsNamed(root, e);
    }
    forall p | p in learnings ensures p in FilesIn(root, []) && p != MANIFEST { LearningIsFound(root, p); }
  }

  lemma OnlyLearningsLinkFree(root: seq<Entry>)
    requires WellNamed(root) && OnlyBundle(root) && Collectable(root)
    ensures LinkFree(root)
  {
    forall e | e in root ensures !e.Link? && !e.Special? && (e.Dir? ==> LinkFree(e.entries)) {
      MemberIsNamed(root, e);
    }
    LinkFreeMembers(root);
  }

  lemma BundleIsExact(root: seq<Entry>, expected: set<Path>)
    requires WellNamed(root) && OnlyBundle(root) && Collectable(root) && EveryDirectoryHoldsAFile(root)
    requires expected == AllBut(FilesIn(LearningsOf(root).value.entries, LEARNINGS), {})
    ensures ExactInventory(root, expected)
  {
    OnlyLearningsLinkFree(root);
    OnlyLearnings(root, FilesIn(LearningsOf(root).value.entries, LEARNINGS));
    forall d | d in DirsIn(root, []) ensures d in Ancestors(expected) {
      var f :| f in FilesIn(root, []) && Under(d, f);
      ListedIsBelow(root, [], d);
      assert f in AllBut(FilesIn(root, []), {MANIFEST});
      assert d == f[..|d|];
    }
    forall d | d in Ancestors(expected) ensures d in DirsIn(root, []) {
      var p, k :| p in expected && 1 <= k < |p| && d == p[..k];
      AncestorsAreDirs(root, [], p, k);
    }
  }

  lemma ExactIsBundle(root: seq<Entry>, expected: set<Path>)
    requires WellNamed(root) && LearningsOf(root).Some? && ExactInventory(root, expected)
    requires Find(root, MANIFEST).Some? && Find(root, MANIFEST).value.File?
    requires expected == AllBut(FilesIn(LearningsOf(root).value.entries, LEARNINGS), {})
    ensures OnlyBundle(root) && EveryDirectoryHoldsAFile(root)
  {
    LinkFreeMembers(root);
    forall e | e in root ensures e.name == "learnings" || e.name == "manifest.json" {
      RootEntryIsExpected(root, expected, e);
    }
    forall d | d in DirsIn(root, []) ensures exists f :: f in FilesIn(root, []) && Under(d, f) {
      assert d in AllBut(DirsIn(root, []), {});
      var p, k :| p in expected && 1 <= k < |p| && d == p[..k];
      assert p in AllBut(FilesIn(root, []), {MANIFEST}) && Under(d, p);
    }
  }

  lemma RootEntryIsExpected(root: seq<Entry>, expected: set<Path>, e: Entry)
    requires WellNamed(root) && LearningsOf(root).Some? && ExactInventory(root, expected)
    requires expected == AllBut(FilesIn(LearningsOf(root).value.entries, LEARNINGS), {})
    requires e in root && (e.File? || e.Dir?)
    ensures e.name == "learnings" || e.name == "manifest.json"
  {
    RootEntry(root, e);
    var here := [e.name];
    if e.File? {
      assert here != MANIFEST ==> here in AllBut(FilesIn(root, []), {MANIFEST});
      LearningIsFound(root, here);
    } else {
      assert here in AllBut(DirsIn(root, []), {});
      var p, k :| p in expected && 1 <= k < |p| && here == p[..k];
      LearningIsFound(root, p);
      assert p[..k][0] == p[0];
    }
  }

  predicate TokenChar(c: char) {
    'a' <= c <= 'z' || 'A' <= c <= 'Z' || '0' <= c <= '9' || c == '.' || c == '_' || c == '+' || c == '-'
  }

  predicate ValidToken(value: string) {
    0 < |value| <= 128 && forall i :: 0 <= i < |value| ==> TokenChar(value[i])
  }

  /** Letters, digits, dot, underscore, plus and hyphen, by code point. */
  predicate TokenCode(n: nat) {
    0x61 <= n < 0x7b || 0x41 <= n < 0x5b || 0x30 <= n < 0x3a || n in {0x2e, 0x5f, 0x2b, 0x2d}
  }

  lemma TokenExactlyWhen(value: string)
    ensures ValidToken(value) <==> 1 <= |value| < 129 && forall i :: 0 <= i < |value| ==> TokenCode(value[i] as int)
  {
    forall i | 0 <= i < |value| ensures TokenChar(value[i]) <==> TokenCode(value[i] as int) {}
  }

  /** What the generator builds for a root, before it is signed. */
  predicate Built(root: seq<Entry>, m: Manifest, sha: Digest) {
    && ValidToken(m.bundleVersion) && ValidToken(m.signingKeyId)
    && m.skillVersion == SUPPORTED_SKILL_VERSION && m.runtimeVersion == SUPPORTED_LOCAL_RUNTIME_VERSION
    && m.protocolVersions == [PROTOCOL_VERSION]
    && Collectable(root) && IsListing(root, m.files, sha)
    && 0 < |m.files| <= MAX_BUNDLE_FILES && TotalSize(m.files) <= MAX_BUNDLE_BYTES
  }

  method BuildManifest(root: seq<Entry>, bundleVersion: string, signingKeyId: string, sha: Digest)
    returns (r: Option<Manifest>)
    requires WellNamed(root)
    ensures r.Some? <==>
      && ValidToken(bundleVersion) && ValidToken(signingKeyId) && Collectable(root)
      && FilesIn(LearningsOf(root).value.entries, LEARNINGS) != multiset{}
    ensures r.Some? ==>
      && Built(root, r.value, sha) && !r.value.signed
      && r.value.bundleVersion == bundleVersion && r.value.signingKeyId == signingKeyId
  {
    if !ValidToken(bundleVersion) || !ValidToken(signingKeyId) { return None; }
    var files := CollectFiles(root, sha);
    if files.None? { return None; }
    assert |Texts(files.value)| == |FilesIn(LearningsOf(root).value.entries, LEARNINGS)|;
    if files.value == [] { return None; }
    return Some(Manifest(bundleVersion, SUPPORTED_SKILL_VERSION, SUPPORTED_LOCAL_RUNTIME_VERSION, [PROTOCOL_VERSION],
                         files.value, signingKeyId, false));
  }

  /**
    The verifier accepts a generated and signed manifest, written to the root by any
    `write`, exactly when it is at most one mebibyte, the root holds nothing else
    besides `learnings`, and no directory is without a file.
   */
  lemma GeneratorMeetsVerifier(root: seq<Entry>, m: Manifest, sha: Digest, write: Manifest -> seq<byte>)
    requires WellNamed(root) && Built(root, m, sha)
    requires Find(root, MANIFEST) == Some(File("manifest.json", write(m.(signed := true))))
    ensures Accepts(root, m.(signed := true), sha) <==>
      && |write(m.(signed := true))| <= MAX_MANIFEST_BYTES
      && OnlyBundle(root) && EveryDirectoryHoldsAFile(root)
  {
    var expected := ListedPaths(m.files);
    ListingIsSound(root, m.files, sha);
    ListingPaths(root, m.files, sha);
    if ExactInventory(root, expected) { ExactIsBundle(root, expected); }
    if OnlyBundle(root) && EveryDirectoryHoldsAFile(root) { BundleIsExact(root, expected); }
  }
}
