/**
  The Site Learning manifest: the verifier's loop over it
  (crates/protocol/src/learning.rs:101-193) and the generator
  (crates/protocol/src/bin/ego-browser-learning-bundle.rs:129-221).
  `sha` stands for the SHA-256 hex digest; no property of it is used.
 */
module LearningBundle {
  import opened Wrappers
  import opened TextOrder
  import opened BundleTree
  import opened BundlePaths
  import opened BundleInventory

  const MAX_MANIFEST_BYTES := 1024 * 1024
  const MAX_BUNDLE_FILES := 4096
  const MAX_BUNDLE_BYTES := 256 * 1024 * 1024
  const PROTOCOL_VERSION := "ego-browser-bridge-v1"

  type Digest = seq<byte> -> string

  datatype LearningFile = LearningFile(path: string, sizeBytes: nat, sha256: string)

  /** `signed` says that the signature verifies under the trusted key. */
  datatype Manifest = Manifest(
    bundleVersion: string,
    skillVersion: string,
    runtimeVersion: string,
    protocolVersions: seq<string>,
    files: seq<LearningFile>,
    signingKeyId: string,
    signed: bool)

  // ---------------------------------------------------------------- the verifier

  predicate Holds(es: seq<Entry>, p: Path, f: LearningFile, sha: Digest) {
    var e := Find(es, p);
    e.Some? && e.value.File? && |e.value.bytes| == f.sizeBytes && sha(e.value.bytes) == f.sha256
  }

  /** The entry names a regular file of the bundle with that size and digest. */
  predicate EntryMatches(root: seq<Entry>, f: LearningFile, sha: Digest) {
    var p := ValidRelativePath(f.path);
    p.Some? && !NamesDirectory(f.path) && Holds(root, p.value, f, sha)
  }

  function TotalSize(files: seq<LearningFile>): nat {
    if files == [] then 0 else TotalSize(files[..|files| - 1]) + files[|files| - 1].sizeBytes
  }

  predicate ManifestReadable(root: seq<Entry>) {
    var e := Find(root, MANIFEST);
    e.Some? && e.value.File? && |e.value.bytes| <= MAX_MANIFEST_BYTES
  }

  predicate PathsDiffer(files: seq<LearningFile>) {
    forall i, j :: 0 <= i < j < |files| ==> ValidRelativePath(files[i].path) != ValidRelativePath(files[j].path)
  }

  function ListedPaths(files: seq<LearningFile>): set<Path> {
    set f | f in files && ValidRelativePath(f.path).Some? :: ValidRelativePath(f.path).value
  }

  /** Every entry is as described, no path is listed twice and the whole is not too large. */
  predicate EntriesSound(root: seq<Entry>, files: seq<LearningFile>, sha: Digest) {
    && (forall f :: f in files ==> EntryMatches(root, f, sha))
    && PathsDiffer(files)
    && TotalSize(files) <= MAX_BUNDLE_BYTES
  }

  predicate HeaderValid(m: Manifest) {
    && m.bundleVersion != "" && m.skillVersion != "" && m.runtimeVersion != ""
    && PROTOCOL_VERSION in m.protocolVersions && 1 <= |m.files| <= MAX_BUNDLE_FILES
  }

  /** What a verified bundle is: a signed manifest, the listed files and nothing else. */
  predicate Accepts(root: seq<Entry>, m: Manifest, sha: Digest) {
    && ManifestReadable(root) && HeaderValid(m) && m.signed
    && EntriesSound(root, m.files, sha)
    && ExactInventory(root, ListedPaths(m.files))
  }

  lemma TotalGrows(files: seq<LearningFile>, k: nat)
    requires k <= |files|
    ensures TotalSize(files[..k]) <= TotalSize(files)
  {
    if k < |files| {
      TotalGrows(files[..|files| - 1], k);
      assert files[..|files| - 1][..k] == files[..k];
    } else {
      assert files[..k] == files;
    }
  }

  lemma SoundPrefix(root: seq<Entry>, files: seq<LearningFile>, sha: Digest, k: nat)
    requires k <= |files| && EntriesSound(root, files, sha)
    ensures EntriesSound(root, files[..k], sha)
  {
    TotalGrows(files, k);
  }

  lemma ListedOneMore(files: seq<LearningFile>, f: LearningFile)
    ensures ListedPaths(files + [f]) ==
      ListedPaths(files) + (if ValidRelativePath(f.path).Some? then {ValidRelativePath(f.path).value} else {})
  {}

  lemma DifferOneMore(files: seq<LearningFile>, f: LearningFile)
    requires PathsDiffer(files) && ValidRelativePath(f.path).Some?
    ensures PathsDiffer(files + [f]) <==> ValidRelativePath(f.path).value !in ListedPaths(files)
  {
    var more := files + [f];
    if ValidRelativePath(f.path).value in ListedPaths(files) {
      var g :| g in files && ValidRelativePath(g.path) == ValidRelativePath(f.path);
      var i :| 0 <= i < |files| && files[i] == g;
      assert more[i] == g && more[|files|] == f;
    }
  }

  lemma OneMore(root: seq<Entry>, files: seq<LearningFile>, f: LearningFile, sha: Digest)
    requires EntriesSound(root, files, sha)
    ensures EntriesSound(root, files + [f], sha) <==>
      && EntryMatches(root, f, sha)
      && ValidRelativePath(f.path).value !in ListedPaths(files)
      && TotalSize(files) + f.sizeBytes <= MAX_BUNDLE_BYTES
  {
    var more := files + [f];
    assert more[..|files|] == files && more[|files|] == f && f in more;
    if ValidRelativePath(f.path).Some? { DifferOneMore(files, f); }
  }

  method VerifyEntry(root: seq<Entry>, entry: LearningFile, relative: Path, sha: Digest) returns (matches: bool)
    requires ValidRelativePath(entry.path) == Some(relative)
    ensures matches <==> EntryMatches(root, entry, sha)
  {
    var file := Find(root, relative);
    if NamesDirectory(entry.path) || file.None? || !file.value.File? { return false; }
    if |file.value.bytes| != entry.sizeBytes { return false; }
    return sha(file.value.bytes) == entry.sha256;
  }

  method VerifyEntries(root: seq<Entry>, files: seq<LearningFile>, sha: Digest) returns (sound: bool, paths: set<Path>)
    ensures sound <==> EntriesSound(root, files, sha)
    ensures sound ==> paths == ListedPaths(files)
  {
    paths := {};
    var total := 0;
    for i := 0 to |files|
      invariant EntriesSound(root, files[..i], sha)
      invariant paths == ListedPaths(files[..i]) && total == TotalSize(files[..i])
    {
      var entry := files[i];
      assert files[..i + 1] == files[..i] + [entry];
      OneMore(root, files[..i], entry, sha);
      ListedOneMore(files[..i], entry);
      if EntriesSound(root, files, sha) { SoundPrefix(root, files, sha, i + 1); }
      var relative := ValidRelativePath(entry.path);
      if relative.None? { return false, paths; }
      if relative.value in paths { return false, paths; }
      paths := paths + {relative.value};
      total := total + entry.sizeBytes;
      if total > MAX_BUNDLE_BYTES { return false, paths; }
      var matches := VerifyEntry(root, entry, relative.value, sha);
      if !matches { return false, paths; }
    }
    assert files[..|files|] == files;
    return true, paths;
  }

  /** `m` is what the bytes of the root manifest parse to. */
  method VerifyBundle(root: seq<Entry>, m: Manifest, sha: Digest) returns (accepted: bool)
    requires WellNamed(root)
    ensures accepted <==> Accepts(root, m, sha)
  {
    var file := Find(root, MANIFEST);
    if file.None? || !file.value.File? || |file.value.bytes| > MAX_MANIFEST_BYTES { return false; }
    if m.bundleVersion == "" || m.skillVersion == "" || m.runtimeVersion == ""
       || PROTOCOL_VERSION !in m.protocolVersions || m.files == [] || |m.files| > MAX_BUNDLE_FILES {
      return false;
    }
    if !m.signed { return false; }
    var sound, paths := VerifyEntries(root, m.files, sha);
    if !sound { return false; }
    accepted := VerifyCompleteInventory(root, paths);
  }
}
