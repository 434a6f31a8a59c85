/** Manifest paths as text (crates/protocol/src/learning.rs:537-551). */
module BundlePaths {
  import opened Wrappers
  import opened BundleTree

  function Split(text: string): (segments: seq<string>)
    ensures segments != []
  {
    if text == "" then [""]
    else
      var rest := Split(text[1..]);
      if text[0] == '/' then [""] + rest else [[text[0]] + rest[0]] + rest[1..]
  }

  function Join(p: Path): string {
    if p == [] then "" else if |p| == 1 then p[0] else p[0] + "/" + Join(p[1..])
  }

  /** Path components: empty segments and dots after the first segment vanish. */
  function Normal(segments: seq<string>): Path {
    if segments == [] then []
    else (if segments[0] == "" || segments[0] == "." then [] else [segments[0]]) + Normal(segments[1..])
  }

  /** Empty, absolute, leading-dot and parent-relative paths are refused. */
  function ValidRelativePath(text: string): Option<Path> {
    if text == "" || text[0] == '/' then None
    else
      var segments := Split(text);
      if segments[0] == "." || ".." in segments then None else Some(Normal(segments))
  }

  /** A path written with a final slash or dot can only name a directory. */
  predicate NamesDirectory(text: string) {
    var segments := Split(text);
    segments[|segments| - 1] == "" || segments[|segments| - 1] == "."
  }

  predicate PlainPath(p: Path) {
    p != [] && forall i :: 0 <= i < |p| ==> PlainName(p[i])
  }

  // ---------------------------------------------------------------- accepted paths stay beneath the root

  lemma {:induction false} SegmentsHaveNoSlash(text: string)
    ensures forall i :: 0 <= i < |Split(text)| ==> '/' !in Split(text)[i]
  {
    if text != "" {
      var rest := Split(text[1..]);
      SegmentsHaveNoSlash(text[1..]);
      assert '/' !in rest[0];
      forall i | 0 <= i < |Split(text)| ensures '/' !in Split(text)[i] {
        if i > 0 {
          assert Split(text)[i] == if text[0] == '/' then rest[i - 1] else rest[i];
        }
      }
    }
  }

  lemma {:induction false} NormalIsPlain(segments: seq<string>)
    requires ".." !in segments && forall i :: 0 <= i < |segments| ==> '/' !in segments[i]
    ensures forall i :: 0 <= i < |Normal(segments)| ==> PlainName(Normal(segments)[i])
  {
    if segments != [] { NormalIsPlain(segments[1..]); }
  }

  /** Every accepted manifest path is a nonempty run of plain names: it cannot leave the root. */
  lemma AcceptedPathIsPlain(text: string)
    ensures var p := ValidRelativePath(text); p.Some? ==> PlainPath(p.value)
  {
    if ValidRelativePath(text).Some? {
      SegmentsHaveNoSlash(text);
      NormalIsPlain(Split(text));
    }
  }

  // ---------------------------------------------------------------- what is written is read back

  lemma {:induction false} SplitPlain(name: string)
    requires '/' !in name
    ensures Split(name) == [name]
  {
    if name != "" {
      SplitPlain(name[1..]);
      assert name == [name[0]] + name[1..];
    }
  }

  lemma {:induction false} SplitAtSlash(name: string, rest: string)
    requires '/' !in name
    ensures Split(name + "/" + rest) == [name] + Split(rest)
  {
    var text := name + "/" + rest;
    if name == "" {
      assert text[1..] == rest;
    } else {
      assert text[1..] == name[1..] + "/" + rest;
      SplitAtSlash(name[1..], rest);
      assert name == [name[0]] + name[1..];
    }
  }

  lemma {:induction false} SplitJoin(p: Path)
    requires PlainPath(p)
    ensures Split(Join(p)) == p
  {
    if |p| == 1 {
      SplitPlain(p[0]);
    } else {
      var rest := Join(p[1..]);
      SplitJoin(p[1..]);
      SplitAtSlash(p[0], rest);
      assert Join(p) == p[0] + "/" + rest;
      assert p == [p[0]] + p[1..];
    }
  }

  lemma {:induction false} NormalKeepsPlain(p: Path)
    requires forall i :: 0 <= i < |p| ==> PlainName(p[i])
    ensures Normal(p) == p
  {
    if p != [] { NormalKeepsPlain(p[1..]); }
  }

  /** A path the generator writes is the path the verifier reads. */
  lemma PathRoundTrip(p: Path)
    requires PlainPath(p)
    ensures ValidRelativePath(Join(p)) == Some(p) && !NamesDirectory(Join(p))
  {
    SplitJoin(p);
    NormalKeepsPlain(p);
    assert Join(p)[0] == p[0][0];
    assert PlainName(p[|p| - 1]);
  }
}
