/** Byte order of text, and ordered sets of text kept as strictly ascending sequences. */
module TextOrder {
  /** Code-point order, which is the byte order of the UTF-8 encodings. */
  predicate Less(a: string, b: string) {
    b != "" && (a == "" || a[0] < b[0] || (a[0] == b[0] && Less(a[1..], b[1..])))
  }

  lemma LessIsTotal(a: string, b: string)
    ensures Less(a, b) || a == b || Less(b, a)
    ensures Less(a, b) ==> a != b && !Less(b, a)
  {
    if a != "" && b != "" && a[0] == b[0] {
      LessIsTotal(a[1..], b[1..]);
      assert a == [a[0]] + a[1..] && b == [b[0]] + b[1..];
    }
  }

  lemma LessIsTransitive(a: string, b: string, c: string)
    requires Less(a, b) && Less(b, c)
    ensures Less(a, c)
  {
    if a != "" && a[0] == b[0] && b[0] == c[0] { LessIsTransitive(a[1..], b[1..], c[1..]); }
  }

  predicate Ascending(s: seq<string>) {
    |s| < 2 || (Less(s[0], s[1]) && Ascending(s[1..]))
  }

  /** The head of an ascending sequence is below everything after it. */
  lemma HeadIsLeast(s: seq<string>, x: string)
    requires s != [] && Ascending(s) && x in s[1..]
    ensures Less(s[0], x)
  {
    if x != s[1] {
      HeadIsLeast(s[1..], x);
      LessIsTransitive(s[0], s[1], x);
    }
  }

  lemma HeadIsNew(s: seq<string>)
    requires s != [] && Ascending(s)
    ensures s[0] !in s[1..]
  {
    if s[0] in s[1..] {
      HeadIsLeast(s, s[0]);
      LessIsTotal(s[0], s[0]);
    }
  }

  /** An ordered set inserts a text at its place, once. */
  function Insert(s: seq<string>, x: string): seq<string> {
    if s == [] then [x]
    else if x == s[0] then s
    else if Less(x, s[0]) then [x] + s
    else [s[0]] + Insert(s[1..], x)
  }

  lemma InsertHolds(s: seq<string>, x: string)
    ensures forall y :: y in Insert(s, x) <==> y in s || y == x
    ensures x !in s ==> multiset(Insert(s, x)) == multiset(s) + multiset{x}
  {
    if s != [] {
      assert s == [s[0]] + s[1..];
      if x != s[0] && !Less(x, s[0]) { InsertHolds(s[1..], x); }
    }
  }

  lemma InsertAscends(s: seq<string>, x: string)
    requires Ascending(s)
    ensures Ascending(Insert(s, x))
  {
    if s != [] {
      LessIsTotal(x, s[0]);
      if x != s[0] && !Less(x, s[0]) { InsertAscends(s[1..], x); }
    }
  }

  /** An ordered set has one listing. */
  lemma {:induction false} AscendingIsUnique(a: seq<string>, b: seq<string>)
    requires Ascending(a) && Ascending(b)
    requires forall x :: x in a <==> x in b
    ensures a == b
  {
    assert (a != [] ==> a[0] in a) && (b != [] ==> b[0] in b);
    if a != [] {
      if a[0] != b[0] {
        HeadIsLeast(a, b[0]);
        HeadIsLeast(b, a[0]);
        LessIsTotal(a[0], b[0]);
      }
      HeadIsNew(a);
      HeadIsNew(b);
      forall x ensures x in a[1..] <==> x in b[1..] {
        assert x in a[1..] ==> x in a;
        assert x in b[1..] ==> x in b;
        assert a == [a[0]] + a[1..] && b == [b[0]] + b[1..];
      }
      AscendingIsUnique(a[1..], b[1..]);
    }
  }

  /** Two texts are ordered by the first place where they differ, a prefix before what extends it. */
  lemma {:induction false} LessByFirstDifference(a: string, b: string) returns (k: nat)
    ensures k <= |a| && k <= |b| && a[..k] == b[..k]
    ensures k < |a| && k < |b| ==> a[k] != b[k]
    ensures Less(a, b) <==> k < |b| && (k == |a| || a[k] < b[k])
  {
    if a == "" || b == "" || a[0] != b[0] {
      k := 0;
    } else {
      k := LessByFirstDifference(a[1..], b[1..]);
      assert a[..k + 1] == [a[0]] + a[1..][..k] && b[..k + 1] == [b[0]] + b[1..][..k];
      k := k + 1;
    }
  }

  /** Ascending means in order throughout. */
  lemma {:induction false} AscendingIsOrdered(s: seq<string>, i: nat, j: nat)
    requires Ascending(s) && i < j < |s|
    ensures Less(s[i], s[j])
  {
    if i == 0 {
      assert s[1..][j - 1] == s[j];
      HeadIsLeast(s, s[j]);
    } else {
      AscendingIsOrdered(s[1..], i - 1, j - 1);
    }
  }
}
