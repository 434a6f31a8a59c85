/**
  Artifact budgets on both sides of the relay: what the Bridge collects
  (crates/protocol/src/artifacts.rs:36-100) and what the wrapper accepts
  (crates/remote-wrapper/src/artifacts.rs:18-75).  Artifact content is the decoded bytes.
 */
module Artifacts {
  import opened Wrappers
  import opened Bytes
  import opened Images

  const MAX_ARTIFACT_BYTES := 12 * 1024 * 1024
  const MAX_ARTIFACT_PIXELS := 4_000_000
  const MAX_ARTIFACT_COUNT := 32

  datatype Limits = Limits(maxBytes: nat, maxPixels: nat, maxCount: nat, maxTotalBytes: nat)

  /** A candidate on disk: `regular` is a private regular file, `identity` its device and inode. */
  datatype ArtifactFile = ArtifactFile(bytes: Buffer, regular: bool, identity: nat)

  datatype Descriptor = Descriptor(id: string, image: Image, sizeBytes: nat, content: Buffer)

  datatype ArtifactError =
    | InvalidRoot | NotRegular | HardLink | CountLimit | SizeLimit | UnsupportedMedia | PixelLimit | TotalLimit
    | InvalidId | MetadataMismatch

  function Pixels(s: Size): nat {
    s.width * s.height
  }

  function Total(files: seq<Buffer>): nat {
    if files == [] then 0 else Total(files[..|files| - 1]) + |files[|files| - 1]|
  }

  lemma TotalGrows(files: seq<Buffer>, k: nat)
    requires k <= |files|
    ensures Total(files[..k]) <= Total(files)
  {
    if k < |files| {
      TotalGrows(files[..|files| - 1], k);
      assert files[..|files| - 1][..k] == files[..k];
    } else {
      assert files[..k] == files;
    }
  }

  // ---------------------------------------------------------------- collecting

  predicate LimitsValid(l: Limits) {
    && 0 < l.maxBytes <= MAX_ARTIFACT_BYTES && 0 < l.maxPixels <= MAX_ARTIFACT_PIXELS
    && 0 < l.maxCount && 0 < l.maxTotalBytes <= MAX_ARTIFACT_BYTES
  }

  predicate Collectable(f: ArtifactFile, l: Limits) {
    f.regular && |f.bytes| <= l.maxBytes && ImageOf(f.bytes).Some? && Pixels(ImageOf(f.bytes).value.size) <= l.maxPixels
  }

  function BytesOf(files: seq<ArtifactFile>): (bytes: seq<Buffer>)
    ensures |bytes| == |files| && forall i :: 0 <= i < |files| ==> bytes[i] == files[i].bytes
  {
    seq(|files|, i requires 0 <= i < |files| => files[i].bytes)
  }

  /** No file is listed twice under two names. */
  predicate IdentitiesDiffer(files: seq<ArtifactFile>) {
    forall i, j :: 0 <= i < j < |files| ==> files[i].identity != files[j].identity
  }

  predicate AllCollectable(rootPrivate: bool, files: seq<ArtifactFile>, l: Limits) {
    && LimitsValid(l) && rootPrivate && IdentitiesDiffer(files)
    && |files| <= l.maxCount && Total(BytesOf(files)) <= l.maxTotalBytes
    && forall i :: 0 <= i < |files| ==> Collectable(files[i], l)
  }

  predicate Describes(d: Descriptor, file: Buffer, id: string) {
    ImageOf(file).Some? && d == Descriptor(id, ImageOf(file).value, |file|, file)
  }

  lemma TotalOfNextFile(files: seq<ArtifactFile>, i: nat)
    requires i < |files|
    ensures Total(BytesOf(files)[..i + 1]) == Total(BytesOf(files)[..i]) + |files[i].bytes| <= Total(BytesOf(files))
  {
    assert BytesOf(files)[..i + 1][..i] == BytesOf(files)[..i];
    TotalGrows(BytesOf(files), i + 1);
  }

  method CollectFile(f: ArtifactFile, total: nat, l: Limits, id: string) returns (r: Result<Descriptor, ArtifactError>)
    ensures r.Ok? <==> Collectable(f, l) && total + |f.bytes| <= l.maxTotalBytes
    ensures r.Ok? ==> Describes(r.value, f.bytes, id)
  {
    if !f.regular { return Err(NotRegular); }
    if |f.bytes| > l.maxBytes { return Err(SizeLimit); }
    var image := BridgeDimensions(f.bytes);
    if image.None? { return Err(UnsupportedMedia); }
    if image.value.size.width * image.value.size.height > l.maxPixels { return Err(PixelLimit); }
    if total + |f.bytes| > l.maxTotalBytes { return Err(TotalLimit); }
    return Ok(Descriptor(id, image.value, |f.bytes|, f.bytes));
  }

  function Identities(files: seq<ArtifactFile>): set<nat> {
    set f | f in files :: f.identity
  }

  lemma IdentityStep(files: seq<ArtifactFile>, i: nat)
    requires i < |files| && IdentitiesDiffer(files[..i])
    ensures files[i].identity in Identities(files[..i]) ==> !IdentitiesDiffer(files)
    ensures files[i].identity !in Identities(files[..i]) ==> IdentitiesDiffer(files[..i + 1])
    ensures Identities(files[..i + 1]) == Identities(files[..i]) + {files[i].identity}
  {
    var before := files[..i];
    assert files[..i + 1] == before + [files[i]];
    if files[i].identity in Identities(before) {
      var f :| f in before && f.identity == files[i].identity;
      var j :| 0 <= j < i && before[j] == f;
      assert files[j].identity == files[i].identity;
    }
    forall j | 0 <= j < i ensures files[j].identity in Identities(before) { assert before[j] in before; }
  }

  /** What the loop has gathered from the first files. */
  predicate Gathered(files: seq<ArtifactFile>, l: Limits, ids: seq<string>, ds: seq<Descriptor>)
    requires |ids| >= |files|
  {
    && |ds| == |files|
    && forall i :: 0 <= i < |files| ==> Collectable(files[i], l) && Describes(ds[i], files[i].bytes, ids[i])
  }

  /** All files are described, or none is. */
  method CollectArtifacts(rootPrivate: bool, files: seq<ArtifactFile>, l: Limits, ids: seq<string>)
    returns (r: Result<seq<Descriptor>, ArtifactError>)
    requires |ids| >= |files|
    ensures r.Ok? <==> AllCollectable(rootPrivate, files, l)
    ensures r.Ok? ==>
      |r.value| == |files| && forall i :: 0 <= i < |files| ==> Describes(r.value[i], files[i].bytes, ids[i])
  {
    if l.maxBytes == 0 || l.maxBytes > MAX_ARTIFACT_BYTES || l.maxPixels == 0 || l.maxPixels > MAX_ARTIFACT_PIXELS
       || l.maxCount == 0 || l.maxTotalBytes == 0 || l.maxTotalBytes > MAX_ARTIFACT_BYTES {
      return Err(InvalidRoot);
    }
    if !rootPrivate { return Err(InvalidRoot); }
    r := CollectEach(files, l, ids);
  }

  method CollectEach(files: seq<ArtifactFile>, l: Limits, ids: seq<string>)
    returns (r: Result<seq<Descriptor>, ArtifactError>)
    requires |ids| >= |files|
    ensures r.Ok? <==>
      && IdentitiesDiffer(files) && |files| <= l.maxCount && Total(BytesOf(files)) <= l.maxTotalBytes
      && forall i :: 0 <= i < |files| ==> Collectable(files[i], l)
    ensures r.Ok? ==> Gathered(files, l, ids, r.value)
  {
    var result, total := [], 0;
    var identities := {};
    for i := 0 to |files|
      invariant i <= l.maxCount && total == Total(BytesOf(files)[..i])
      invariant i > 0 ==> total <= l.maxTotalBytes
      invariant IdentitiesDiffer(files[..i]) && identities == Identities(files[..i])
      invariant Gathered(files[..i], l, ids, result)
    {
      TotalOfNextFile(files, i);
      IdentityStep(files, i);
      if |result| >= l.maxCount { return Err(CountLimit); }
      if files[i].identity in identities { return Err(HardLink); }
      identities := identities + {files[i].identity};
      var d := CollectFile(files[i], total, l, ids[i]);
      if d.Err? { return Err(d.error); }
      total := total + |files[i].bytes|;
      result := result + [d.value];
    }
    assert BytesOf(files)[..|files|] == BytesOf(files) && files[..|files|] == files;
    return Ok(result);
  }

  // ---------------------------------------------------------------- emitting

  predicate IdChar(c: char) {
    'a' <= c <= 'z' || 'A' <= c <= 'Z' || '0' <= c <= '9' || c == '.' || c == '_' || c == '-'
  }

  predicate ValidArtifactId(id: string) {
    0 < |id| <= 128 && forall i :: 0 <= i < |id| ==> IdChar(id[i])
  }

  /** Letters, digits, dot, underscore and hyphen, by code point. */
  predicate IdCode(n: nat) {
    0x61 <= n < 0x7b || 0x41 <= n < 0x5b || 0x30 <= n < 0x3a || n in {0x2e, 0x5f, 0x2d}
  }

  lemma IdExactlyWhen(id: string)
    ensures ValidArtifactId(id) <==> 1 <= |id| < 129 && forall i :: 0 <= i < |id| ==> IdCode(id[i] as int)
  {
    forall i | 0 <= i < |id| ensures IdChar(id[i]) <==> IdCode(id[i] as int) {}
  }

  predicate Emittable(d: Descriptor) {
    && ValidArtifactId(d.id) && |d.content| == d.sizeBytes <= MAX_ARTIFACT_BYTES
    && ImageOf(d.content) == Some(d.image) && Pixels(d.image.size) <= MAX_ARTIFACT_PIXELS
  }

  function Contents(ds: seq<Descriptor>): (files: seq<Buffer>)
    ensures |files| == |ds| && forall i :: 0 <= i < |ds| ==> files[i] == ds[i].content
  {
    seq(|ds|, i requires 0 <= i < |ds| => ds[i].content)
  }

  predicate AllEmittable(ds: seq<Descriptor>) {
    && |ds| <= MAX_ARTIFACT_COUNT && Total(Contents(ds)) <= MAX_ARTIFACT_BYTES
    && forall i :: 0 <= i < |ds| ==> Emittable(ds[i])
  }

  /** The described image is the one in the content, and small enough. */
  method MatchesContent(d: Descriptor) returns (matches: bool)
    ensures matches <==> ImageOf(d.content) == Some(d.image) && Pixels(d.image.size) <= MAX_ARTIFACT_PIXELS
  {
    var image := WrapperDimensions(d.content);
    if image.None? { return false; }
    var size := image.value.size;
    return image.value.media == d.image.media && size.width == d.image.size.width && size.height == d.image.size.height
        && size.width != 0 && size.height != 0 && size.width * size.height <= MAX_ARTIFACT_PIXELS;
  }

  method ValidateArtifact(d: Descriptor, total: nat) returns (o: Outcome<ArtifactError>)
    ensures o.Pass? <==> Emittable(d) && total + |d.content| <= MAX_ARTIFACT_BYTES
  {
    if !ValidArtifactId(d.id) { return Fail(InvalidId); }
    if |d.content| > MAX_ARTIFACT_BYTES || |d.content| != d.sizeBytes || total + |d.content| > MAX_ARTIFACT_BYTES {
      return Fail(TotalLimit);
    }
    var matches := MatchesContent(d);
    return if matches then Pass else Fail(MetadataMismatch);
  }

  lemma TotalOfNext(ds: seq<Descriptor>, i: nat)
    requires i < |ds|
    ensures Total(Contents(ds)[..i + 1]) == Total(Contents(ds)[..i]) + |ds[i].content| <= Total(Contents(ds))
  {
    assert Contents(ds)[..i + 1][..i] == Contents(ds)[..i];
    TotalGrows(Contents(ds), i + 1);
  }

  method ValidateArtifacts(ds: seq<Descriptor>) returns (o: Outcome<ArtifactError>)
    ensures o.Pass? <==> AllEmittable(ds)
  {
    var total := 0;
    if |ds| > MAX_ARTIFACT_COUNT { return Fail(CountLimit); }
    for i := 0 to |ds|
      invariant total == Total(Contents(ds)[..i]) <= MAX_ARTIFACT_BYTES
      invariant forall j :: 0 <= j < i ==> Emittable(ds[j])
    {
      TotalOfNext(ds, i);
      o := ValidateArtifact(ds[i], total);
      if o.Fail? { return; }
      total := total + |ds[i].content|;
    }
    assert Contents(ds)[..|ds|] == Contents(ds);
    return Pass;
  }

  // ---------------------------------------------------------------- both sides agree

  /** Random identifiers are thirty-two hexadecimal digits. */
  predicate OpaqueId(id: string) {
    |id| == 32 && forall i :: 0 <= i < |id| ==> '0' <= id[i] <= '9' || 'a' <= id[i] <= 'f'
  }

  /** What the Bridge collects is what the wrapper accepts, up to the wrapper's count. */
  lemma CollectedIsEmittable(files: seq<ArtifactFile>, l: Limits, ids: seq<string>, ds: seq<Descriptor>)
    requires AllCollectable(true, files, l) && |ids| >= |files| == |ds|
    requires forall i :: 0 <= i < |files| ==> Describes(ds[i], files[i].bytes, ids[i]) && OpaqueId(ids[i])
    ensures AllEmittable(ds) <==> |files| <= MAX_ARTIFACT_COUNT
    ensures l.maxCount <= MAX_ARTIFACT_COUNT ==> AllEmittable(ds)
  {
    assert Contents(ds) == BytesOf(files);
    forall i | 0 <= i < |ds| ensures Emittable(ds[i]) {
      assert Describes(ds[i], files[i].bytes, ids[i]) && Collectable(files[i], l);
    }
  }
}
