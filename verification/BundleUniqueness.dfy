/**
  What an accepted bundle is, and that its manifest leaves no choice
  (crates/protocol/src/learning.rs:101-273).
 */
module BundleUniqueness {
  import opened Wrappers
  import opened BundleTree
  import opened BundlePaths
  import opened BundleInventory
  import opened LearningBundle

  /** An accepted bundle is signed, has a full header and between one and 4096 files of at most 256 mebibytes. */
  lemma AcceptedIsWhole(root: seq<Entry>, m: Manifest, sha: Digest)
    requires Accepts(root, m, sha)
    ensures m.signed && m.bundleVersion != "" && m.skillVersion != "" && m.runtimeVersion != ""
    ensures "ego-browser-bridge-v1" in m.protocolVersions
    ensures 1 <= |m.files| <= 4096 && TotalSize(m.files) <= 268_435_456
    ensures var e := Find(root, ["manifest.json"]); e.Some? && e.value.File? && |e.value.bytes| <= 1_048_576
    ensures LinkFree(root)
  {}

  /** A listed file is a regular file of its size and digest. */
  predicate IsListedFile(root: seq<Entry>, p: Path, f: LearningFile, sha: Digest) {
    var e := Find(root, p);
    ValidRelativePath(f.path) == Some(p) && e.Some? && e.value.File?
    && |e.value.bytes| == f.sizeBytes && sha(e.value.bytes) == f.sha256
  }

  /** Every file of an accepted bundle but the manifest has exactly one entry, and every entry its file. */
  lemma FilesAreEntries(root: seq<Entry>, m: Manifest, sha: Digest)
    requires Accepts(root, m, sha)
    ensures forall p :: p in FilesIn(root, []) && p != ["manifest.json"] ==>
              exists f :: f in m.files && IsListedFile(root, p, f, sha)
    ensures forall f :: f in m.files ==>
              && ValidRelativePath(f.path).Some? && IsListedFile(root, ValidRelativePath(f.path).value, f, sha)
              && ValidRelativePath(f.path).value in FilesIn(root, [])
    ensures forall i, j :: 0 <= i < j < |m.files| ==>
              ValidRelativePath(m.files[i].path) != ValidRelativePath(m.files[j].path)
  {
    forall p | p in FilesIn(root, []) && p != ["manifest.json"]
      ensures exists f :: f in m.files && IsListedFile(root, p, f, sha)
    {
      assert p in AllBut(FilesIn(root, []), {MANIFEST});
      var f :| f in m.files && ValidRelativePath(f.path) == Some(p);
      assert EntryMatches(root, f, sha) && IsListedFile(root, p, f, sha);
    }
    forall f | f in m.files
      ensures ValidRelativePath(f.path).Some? && IsListedFile(root, ValidRelativePath(f.path).value, f, sha)
      ensures ValidRelativePath(f.path).value in FilesIn(root, [])
    {
      assert EntryMatches(root, f, sha);
      assert ValidRelativePath(f.path).value in ListedPaths(m.files);
      assert ValidRelativePath(f.path).value in AllBut(FilesIn(root, []), {MANIFEST});
    }
  }

  /** The same file in both trees, or two contents of one size and one digest. */
  predicate SameOrCollision(a: seq<Entry>, b: seq<Entry>, p: Path, sha: Digest) {
    var x, y := Find(a, p), Find(b, p);
    && x.Some? && y.Some? && x.value.File? && y.value.File?
    && (x.value.bytes == y.value.bytes
        || (|x.value.bytes| == |y.value.bytes| && sha(x.value.bytes) == sha(y.value.bytes)))
  }

  /**
    Two bundles accepted under one manifest have the same directories and the same
    files; where the contents of a file differ, they are a digest collision.
   */
  lemma ManifestFixesBundle(a: seq<Entry>, b: seq<Entry>, m: Manifest, sha: Digest)
    requires Accepts(a, m, sha) && Accepts(b, m, sha)
    ensures forall d :: d in DirsIn(a, []) <==> d in DirsIn(b, [])
    ensures forall p :: p != ["manifest.json"] ==> (p in FilesIn(a, []) <==> p in FilesIn(b, []))
    ensures forall p :: p in FilesIn(a, []) && p != ["manifest.json"] ==> SameOrCollision(a, b, p, sha)
  {
    forall d: Path ensures d in DirsIn(a, []) <==> d in DirsIn(b, []) {
      assert d in AllBut(DirsIn(a, []), {}) <==> d in AllBut(DirsIn(b, []), {});
    }
    forall p: Path | p != ["manifest.json"] ensures p in FilesIn(a, []) <==> p in FilesIn(b, []) {
      assert p in AllBut(FilesIn(a, []), {MANIFEST}) <==> p in AllBut(FilesIn(b, []), {MANIFEST});
    }
    FilesAreEntries(a, m, sha);
    FilesAreEntries(b, m, sha);
    forall p | p in FilesIn(a, []) && p != ["manifest.json"] ensures SameOrCollision(a, b, p, sha) {
      var f :| f in m.files && IsListedFile(a, p, f, sha);
      assert IsListedFile(b, ValidRelativePath(f.path).value, f, sha);
    }
  }
}
