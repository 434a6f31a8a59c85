/**
  A directory tree as the bundle tools see it: each directory is listed in
  whatever order the file system chooses, names within it are distinct.
 */
module BundleTree {
  import opened Wrappers

  type Path = seq<string>

  datatype Entry =
    | File(name: string, bytes: seq<byte>)
    | Dir(name: string, entries: seq<Entry>)
    | Link(name: string)
    | Special(name: string)

  predicate PlainName(name: string) {
    name != "" && name != "." && name != ".." && '/' !in name
  }

  function Names(es: seq<Entry>): set<string> {
    set e | e in es :: e.name
  }

  /** What a file system guarantees of every directory. */
  predicate WellNamed(es: seq<Entry>) {
    es == [] ||
    (&& PlainName(es[0].name) && es[0].name !in Names(es[1..])
     && (es[0].Dir? ==> WellNamed(es[0].entries))
     && WellNamed(es[1..]))
  }

  /** No symbolic link or special file anywhere. */
  predicate LinkFree(es: seq<Entry>) {
    es == [] ||
    (&& !es[0].Link? && !es[0].Special?
     && (es[0].Dir? ==> LinkFree(es[0].entries))
     && LinkFree(es[1..]))
  }

  function FilesIn(es: seq<Entry>, at: Path): multiset<Path> {
    if es == [] then multiset{} else FilesOf(es[0], at) + FilesIn(es[1..], at)
  }

  function FilesOf(e: Entry, at: Path): multiset<Path> {
    match e
    case File(name, _) => multiset{at + [name]}
    case Dir(name, entries) => FilesIn(entries, at + [name])
    case _ => multiset{}
  }

  function DirsIn(es: seq<Entry>, at: Path): multiset<Path> {
    if es == [] then multiset{} else DirsOf(es[0], at) + DirsIn(es[1..], at)
  }

  function DirsOf(e: Entry, at: Path): multiset<Path> {
    if e.Dir? then multiset{at + [e.name]} + DirsIn(e.entries, at + [e.name]) else multiset{}
  }

  function BytesIn(es: seq<Entry>): nat {
    if es == [] then 0 else BytesOf(es[0]) + BytesIn(es[1..])
  }

  function BytesOf(e: Entry): nat {
    match e
    case File(_, bytes) => |bytes|
    case Dir(_, entries) => BytesIn(entries)
    case _ => 0
  }

  // ---------------------------------------------------------------- lookup

  function Named(es: seq<Entry>, name: string): Option<Entry> {
    if es == [] then None else if es[0].name == name then Some(es[0]) else Named(es[1..], name)
  }

  function Find(es: seq<Entry>, p: Path): Option<Entry>
    decreases |p|
  {
    if p == [] then None
    else
      var e := Named(es, p[0]);
      if e.None? || |p| == 1 then e
      else if e.value.Dir? then Find(e.value.entries, p[1..])
      else None
  }

  function Ancestors(files: set<Path>): set<Path> {
    set p, k | p in files && 1 <= k < |p| :: p[..k]
  }

  // ---------------------------------------------------------------- what an inventory holds

  predicate Listed(es: seq<Entry>, at: Path, p: Path) {
    p in FilesIn(es, at) || p in DirsIn(es, at)
  }

  predicate ListedBy(e: Entry, at: Path, p: Path) {
    p in FilesOf(e, at) || p in DirsOf(e, at)
  }

  predicate Under(at: Path, p: Path) {
    |at| < |p| && p[..|at|] == at
  }

  lemma {:induction false} ListedIsBelow(es: seq<Entry>, at: Path, p: Path)
    requires Listed(es, at, p)
    ensures Under(at, p) && p[|at|] in Names(es)
  {
    assert es[0] in es;
    if Listed(es[1..], at, p) {
      ListedIsBelow(es[1..], at, p);
      assert Names(es[1..]) <= Names(es);
    } else {
      HeadIsBelow(es[0], at, p);
    }
  }

  lemma {:induction false} HeadIsBelow(e: Entry, at: Path, p: Path)
    requires ListedBy(e, at, p)
    ensures Under(at, p) && p[|at|] == e.name
    ensures p == at + [e.name] || (e.Dir? && Listed(e.entries, at + [e.name], p) && |p| > |at| + 1)
  {
    if p != at + [e.name] {
      ListedIsBelow(e.entries, at + [e.name], p);
      assert p[..|at|] == p[..|at| + 1][..|at|] == at;
      assert p[|at|] == p[..|at| + 1][|at|];
    }
  }

  lemma {:induction false} ListedOnce(es: seq<Entry>, at: Path, p: Path)
    requires WellNamed(es)
    ensures FilesIn(es, at)[p] <= 1 && DirsIn(es, at)[p] <= 1
  {
    if es != [] {
      var e := es[0];
      if ListedBy(e, at, p) && Listed(es[1..], at, p) {
        HeadIsBelow(e, at, p);
        ListedIsBelow(es[1..], at, p);
      }
      ListedOnce(es[1..], at, p);
      if e.Dir? {
        ListedOnce(e.entries, at + [e.name], p);
        if Listed(e.entries, at + [e.name], p) { ListedIsBelow(e.entries, at + [e.name], p); }
      }
    }
  }

  lemma NamedIsThere(es: seq<Entry>, name: string)
    ensures Named(es, name).Some? <==> name in Names(es)
    ensures Named(es, name).Some? ==> Named(es, name).value in es && Named(es, name).value.name == name
  {
    if es != [] {
      assert es == [es[0]] + es[1..];
      NamedIsThere(es[1..], name);
    }
  }

  /** The inventory and path lookup are the same relation. */
  lemma {:induction false} ListedIsFound(es: seq<Entry>, at: Path, q: Path)
    requires WellNamed(es) && q != []
    ensures at + q in FilesIn(es, at) <==> Find(es, q).Some? && Find(es, q).value.File?
    ensures at + q in DirsIn(es, at) <==> Find(es, q).Some? && Find(es, q).value.Dir?
  {
    var p := at + q;
    if es != [] {
      FindStarts(es, q);
      assert p[|at|] == q[0];
      if q[0] == es[0].name {
        HeadIsFound(es[0], at, q);
        assert !Listed(es[1..], at, p) by {
          if Listed(es[1..], at, p) { ListedIsBelow(es[1..], at, p); }
        }
      } else {
        ListedIsFound(es[1..], at, q);
        assert !ListedBy(es[0], at, p) by {
          if ListedBy(es[0], at, p) { HeadIsBelow(es[0], at, p); }
        }
      }
    }
  }

  lemma FindStarts(es: seq<Entry>, q: Path)
    requires q != [] && es != []
    ensures Find(es, q) == if q[0] == es[0].name then FindWithin(es[0], q) else Find(es[1..], q)
  {}

  /** What one entry answers when it carries the first name of the path. */
  function FindWithin(e: Entry, q: Path): Option<Entry>
    requires q != []
  {
    if |q| == 1 then Some(e) else if e.Dir? then Find(e.entries, q[1..]) else None
  }

  lemma {:induction false} HeadIsFound(e: Entry, at: Path, q: Path)
    requires q != [] && q[0] == e.name && (e.Dir? ==> WellNamed(e.entries))
    ensures at + q in FilesOf(e, at) <==> FindWithin(e, q).Some? && FindWithin(e, q).value.File?
    ensures at + q in DirsOf(e, at) <==> FindWithin(e, q).Some? && FindWithin(e, q).value.Dir?
  {
    var here := at + [e.name];
    if |q| == 1 {
      assert at + q == here;
      if e.Dir? && Listed(e.entries, here, here) { ListedIsBelow(e.entries, here, here); }
    } else {
      assert at + q == here + q[1..] && at + q != here;
      if e.Dir? { ListedIsFound(e.entries, here, q[1..]); }
    }
  }

  /** Everything on the way to a listed path is a listed directory. */
  lemma {:induction false} AncestorsAreDirs(es: seq<Entry>, at: Path, p: Path, k: nat)
    requires Listed(es, at, p) && |at| < k < |p|
    ensures p[..k] in DirsIn(es, at)
  {
    var e := es[0];
    if Listed(es[1..], at, p) {
      AncestorsAreDirs(es[1..], at, p, k);
    } else {
      HeadIsBelow(e, at, p);
      if k > |at| + 1 {
        AncestorsAreDirs(e.entries, at + [e.name], p, k);
      } else {
        assert p[..k] == at + [e.name];
      }
    }
  }

  predicate PlainFrom(p: Path, k: nat) {
    forall i :: k <= i < |p| ==> PlainName(p[i])
  }

  lemma {:induction false} ListedIsPlain(es: seq<Entry>, at: Path, p: Path)
    requires WellNamed(es) && Listed(es, at, p)
    ensures PlainFrom(p, |at|)
  {
    var e := es[0];
    if Listed(es[1..], at, p) {
      ListedIsPlain(es[1..], at, p);
    } else {
      HeadIsBelow(e, at, p);
      if p != at + [e.name] { ListedIsPlain(e.entries, at + [e.name], p); }
    }
  }

  /** A listing holds what each of its entries lists, and nothing else. */
  lemma {:induction false} MemberLists(es: seq<Entry>, at: Path, e: Entry, p: Path)
    requires e in es
    ensures p in FilesOf(e, at) ==> p in FilesIn(es, at)
    ensures p in DirsOf(e, at) ==> p in DirsIn(es, at)
  {
    if e != es[0] {
      assert e in es[1..];
      MemberLists(es[1..], at, e, p);
    }
  }

  lemma {:induction false} FileListedBy(es: seq<Entry>, at: Path, p: Path) returns (e: Entry)
    requires p in FilesIn(es, at)
    ensures e in es && p in FilesOf(e, at)
  {
    if p in FilesOf(es[0], at) { return es[0]; }
    e := FileListedBy(es[1..], at, p);
  }

  lemma {:induction false} LinkFreeMembers(es: seq<Entry>)
    ensures LinkFree(es) <==> forall e :: e in es ==> !e.Link? && !e.Special? && (e.Dir? ==> LinkFree(e.entries))
  {
    if es != [] {
      LinkFreeMembers(es[1..]);
      assert es == [es[0]] + es[1..];
    }
  }

  lemma {:induction false} MemberIsNamed(es: seq<Entry>, e: Entry)
    requires WellNamed(es) && e in es
    ensures Named(es, e.name) == Some(e) && PlainName(e.name) && (e.Dir? ==> WellNamed(e.entries))
  {
    if e != es[0] {
      assert e in es[1..];
      MemberIsNamed(es[1..], e);
    }
  }

  /** What a directory holds is found one name further. */
  lemma {:induction false} ChildIsFound(es: seq<Entry>, at: Path, d: Entry, e: Entry)
    requires WellNamed(es) && Find(es, at) == Some(d) && d.Dir? && e in d.entries
    ensures Find(es, at + [e.name]) == Some(e)
    decreases |at|
  {
    NamedIsThere(es, at[0]);
    var x := Named(es, at[0]).value;
    MemberIsNamed(es, x);
    assert (at + [e.name])[1..] == at[1..] + [e.name];
    if |at| == 1 {
      MemberIsNamed(x.entries, e);
    } else {
      ChildIsFound(x.entries, at[1..], d, e);
    }
  }
}
