/**
  Strict parsing and canonical form of JSON (crates/protocol/src/canonical_json.rs).

  `Json` is a document with its members in order; `Value` is what section 4 of
  RFC 8259 says it denotes, where an object is an unordered collection.
 */
module CanonicalJson {
  import opened Wrappers
  import opened TextOrder

  datatype Json =
    | Null
    | Bool(value: bool)
    | Number(literal: string)
    | String(text: string)
    | Array(elements: seq<Json>)
    | Object(members: seq<Member>)

  datatype Member = Member(key: string, item: Json)

  // ---------------------------------------------------------------- what a document denotes

  datatype Value =
    | Scalar(json: Json)
    | List(values: seq<Value>)
    | Record(fields: map<string, Value>)

  function Meaning(v: Json): Value {
    match v
    case Array(elements) => List(Meanings(elements))
    case Object(members) => Record(Fields(members))
    case _ => Scalar(v)
  }

  function Meanings(vs: seq<Json>): seq<Value> {
    if vs == [] then [] else [Meaning(vs[0])] + Meanings(vs[1..])
  }

  /** A later member of the same key replaces an earlier one, as in any keyed collection. */
  function Fields(ms: seq<Member>): map<string, Value> {
    if ms == [] then map[] else map[ms[0].key := Meaning(ms[0].item)] + Fields(ms[1..])
  }

  // ---------------------------------------------------------------- canonical form

  /** `BTreeMap::insert`. */
  function InsertMember(ms: seq<Member>, m: Member): seq<Member> {
    if ms == [] then [m]
    else if m.key == ms[0].key then [m] + ms[1..]
    else if Less(m.key, ms[0].key) then [m] + ms
    else [ms[0]] + InsertMember(ms[1..], m)
  }

  function Collect(sorted: seq<Member>, ms: seq<Member>): seq<Member>
    decreases |ms|
  {
    if ms == [] then sorted else Collect(InsertMember(sorted, ms[0]), ms[1..])
  }

  function Canonical(v: Json): Json {
    match v
    case Array(elements) => Array(CanonicalAll(elements))
    case Object(members) => Object(Collect([], CanonicalMembers(members)))
    case _ => v
  }

  function CanonicalAll(vs: seq<Json>): seq<Json> {
    if vs == [] then [] else [Canonical(vs[0])] + CanonicalAll(vs[1..])
  }

  function CanonicalMembers(ms: seq<Member>): seq<Member> {
    if ms == [] then [] else [Member(ms[0].key, Canonical(ms[0].item))] + CanonicalMembers(ms[1..])
  }

  // ---------------------------------------------------------------- canonical documents

  function Keys(ms: seq<Member>): (keys: seq<string>)
    ensures |keys| == |ms|
  {
    if ms == [] then [] else [ms[0].key] + Keys(ms[1..])
  }

  /** Members in ascending key order, at every depth. */
  predicate IsCanonical(v: Json) {
    match v
    case Array(elements) => AllCanonical(elements)
    case Object(members) => Ascending(Keys(members)) && MembersCanonical(members)
    case _ => true
  }

  predicate AllCanonical(vs: seq<Json>) {
    vs == [] || (IsCanonical(vs[0]) && AllCanonical(vs[1..]))
  }

  predicate MembersCanonical(ms: seq<Member>) {
    ms == [] || (IsCanonical(ms[0].item) && MembersCanonical(ms[1..]))
  }

  lemma {:induction false} FieldKeys(ms: seq<Member>, k: string)
    ensures k in Fields(ms) <==> k in Keys(ms)
  {
    if ms != [] { FieldKeys(ms[1..], k); }
  }

  lemma {:induction false} InsertedKeys(ms: seq<Member>, m: Member)
    ensures Keys(InsertMember(ms, m)) == Insert(Keys(ms), m.key)
    ensures MembersCanonical(ms) && IsCanonical(m.item) ==> MembersCanonical(InsertMember(ms, m))
  {
    if ms != [] && m.key != ms[0].key && !Less(m.key, ms[0].key) { InsertedKeys(ms[1..], m); }
  }

  lemma ConsFields(m: Member, ms: seq<Member>)
    ensures Fields([m] + ms) == map[m.key := Meaning(m.item)] + Fields(ms)
  {
    assert ([m] + ms)[1..] == ms;
  }

  lemma MergeUpdated<V>(a: map<string, V>, b: map<string, V>, k: string, v: V)
    ensures a + b[k := v] == (a + b)[k := v]
    ensures a[k := v] + b == a + (map[k := v] + b)
    ensures k !in b ==> map[k := v] + b == b[k := v]
  {}

  lemma {:induction false} InsertedField(ms: seq<Member>, m: Member)
    requires Ascending(Keys(ms))
    ensures Fields(InsertMember(ms, m)) == Fields(ms)[m.key := Meaning(m.item)]
  {
    if ms != [] {
      var h, tail := ms[0], ms[1..];
      HeadField(ms);
      if m.key == h.key {
        ConsFields(m, tail);
      } else if Less(m.key, h.key) {
        SmallerIsAbsent(ms, m.key);
        ConsFields(m, ms);
        MergeUpdated(map[], Fields(ms), m.key, Meaning(m.item));
      } else {
        InsertedField(tail, m);
        ConsFields(h, InsertMember(tail, m));
        MergeUpdated(map[h.key := Meaning(h.item)], Fields(tail), m.key, Meaning(m.item));
      }
    }
  }

  lemma SmallerIsAbsent(ms: seq<Member>, k: string)
    requires ms != [] && Ascending(Keys(ms)) && Less(k, ms[0].key)
    ensures k !in Fields(ms)
  {
    forall x | x in Keys(ms) ensures Less(k, x) {
      if x in Keys(ms)[1..] {
        HeadIsLeast(Keys(ms), x);
        LessIsTransitive(k, ms[0].key, x);
      }
    }
    LessIsTotal(k, k);
    FieldKeys(ms, k);
  }

  lemma {:induction false} CollectedIsSorted(sorted: seq<Member>, ms: seq<Member>)
    requires Ascending(Keys(sorted)) && MembersCanonical(sorted) && MembersCanonical(ms)
    ensures Ascending(Keys(Collect(sorted, ms))) && MembersCanonical(Collect(sorted, ms))
    ensures Fields(Collect(sorted, ms)) == Fields(sorted) + Fields(ms)
    decreases |ms|
  {
    if ms != [] {
      var next := InsertMember(sorted, ms[0]);
      InsertedKeys(sorted, ms[0]);
      InsertAscends(Keys(sorted), ms[0].key);
      CollectedIsSorted(next, ms[1..]);
      InsertedField(sorted, ms[0]);
      MergeUpdated(Fields(sorted), Fields(ms[1..]), ms[0].key, Meaning(ms[0].item));
    }
  }

  /** The canonical form is canonical and denotes the same value. */
  lemma {:induction false} CanonicalKeepsMeaning(v: Json)
    ensures IsCanonical(Canonical(v)) && Meaning(Canonical(v)) == Meaning(v)
  {
    match v {
      case Array(elements) => CanonicalAllKeeps(elements);
      case Object(members) =>
        CanonicalMembersKeep(members);
        CollectedIsSorted([], CanonicalMembers(members));
      case _ =>
    }
  }

  lemma {:induction false} CanonicalAllKeeps(vs: seq<Json>)
    ensures AllCanonical(CanonicalAll(vs)) && Meanings(CanonicalAll(vs)) == Meanings(vs)
  {
    if vs != [] {
      CanonicalKeepsMeaning(vs[0]);
      CanonicalAllKeeps(vs[1..]);
    }
  }

  lemma {:induction false} CanonicalMembersKeep(ms: seq<Member>)
    ensures MembersCanonical(CanonicalMembers(ms)) && Fields(CanonicalMembers(ms)) == Fields(ms)
  {
    if ms != [] {
      CanonicalKeepsMeaning(ms[0].item);
      CanonicalMembersKeep(ms[1..]);
    }
  }

  // ---------------------------------------------------------------- one canonical document per value

  lemma {:induction false} CanonicalIsUnique(a: Json, b: Json)
    requires IsCanonical(a) && IsCanonical(b) && Meaning(a) == Meaning(b)
    ensures a == b
  {
    match a {
      case Array(elements) => ElementsAreUnique(elements, b.elements);
      case Object(members) => MembersAreUnique(members, b.members);
      case _ =>
    }
  }

  lemma {:induction false} ElementsAreUnique(a: seq<Json>, b: seq<Json>)
    requires AllCanonical(a) && AllCanonical(b) && Meanings(a) == Meanings(b)
    ensures a == b
  {
    if a != [] {
      assert Meanings(a)[1..] == Meanings(a[1..]) && Meanings(b)[1..] == Meanings(b[1..]);
      CanonicalIsUnique(a[0], b[0]);
      ElementsAreUnique(a[1..], b[1..]);
    }
  }

  lemma {:induction false} MembersAreUnique(a: seq<Member>, b: seq<Member>)
    requires Ascending(Keys(a)) && Ascending(Keys(b)) && MembersCanonical(a) && MembersCanonical(b)
    requires Fields(a) == Fields(b)
    ensures a == b
  {
    forall k ensures k in Keys(a) <==> k in Keys(b) {
      FieldKeys(a, k);
      FieldKeys(b, k);
    }
    AscendingIsUnique(Keys(a), Keys(b));
    if a != [] {
      assert Keys(a)[0] == a[0].key && Keys(b)[0] == b[0].key;
      HeadField(a);
      HeadField(b);
      CanonicalIsUnique(a[0].item, b[0].item);
      MembersAreUnique(a[1..], b[1..]);
    }
  }

  lemma HeadField(ms: seq<Member>)
    requires ms != [] && Ascending(Keys(ms))
    ensures Ascending(Keys(ms[1..])) && ms[0].key !in Fields(ms[1..])
    ensures Fields(ms)[ms[0].key] == Meaning(ms[0].item) && Fields(ms[1..]) == Fields(ms) - {ms[0].key}
  {
    HeadIsNew(Keys(ms));
    FieldKeys(ms[1..], ms[0].key);
  }

  /** Two documents have the same canonical form exactly when they denote the same value. */
  lemma CanonicalFormIsComplete(v: Json, w: Json)
    ensures Canonical(v) == Canonical(w) <==> Meaning(v) == Meaning(w)
  {
    CanonicalKeepsMeaning(v);
    CanonicalKeepsMeaning(w);
    if Meaning(v) == Meaning(w) { CanonicalIsUnique(Canonical(v), Canonical(w)); }
  }

  lemma CanonicalIsIdempotent(v: Json)
    ensures Canonical(Canonical(v)) == Canonical(v)
    ensures IsCanonical(v) <==> Canonical(v) == v
  {
    CanonicalKeepsMeaning(v);
    CanonicalKeepsMeaning(Canonical(v));
    CanonicalIsUnique(Canonical(Canonical(v)), Canonical(v));
    if IsCanonical(v) { CanonicalIsUnique(Canonical(v), v); }
  }

  // ---------------------------------------------------------------- strict parsing

  /** No object at any depth repeats a key. */
  predicate UniqueKeys(v: Json) {
    match v
    case Array(elements) => forall i :: 0 <= i < |elements| ==> UniqueKeys(elements[i])
    case Object(members) =>
      && (forall i, j :: 0 <= i < j < |members| ==> members[i].key != members[j].key)
      && (forall i :: 0 <= i < |members| ==> UniqueKeys(members[i].item))
    case _ => true
  }

  /** Some object at some depth repeats this key. */
  predicate Repeats(v: Json, key: string) {
    match v
    case Array(elements) => exists i :: 0 <= i < |elements| && Repeats(elements[i], key)
    case Object(members) =>
      || (exists i, j :: 0 <= i < j < |members| && members[i].key == key == members[j].key)
      || (exists i :: 0 <= i < |members| && Repeats(members[i].item, key))
    case _ => false
  }

  /** A strict parse keeps the document as it is, or names a repeated key. */
  method ParseStrict(v: Json) returns (r: Result<Json, string>)
    ensures r.Ok? <==> UniqueKeys(v)
    ensures r.Ok? ==> r.value == v
    ensures r.Err? ==> Repeats(v, r.error)
    decreases v, 1
  {
    match v {
      case Array(_) => r := VisitSeq(v);
      case Object(_) => r := VisitMap(v);
      case _ => r := Ok(v);
    }
  }

  method VisitSeq(v: Json) returns (r: Result<Json, string>)
    requires v.Array?
    ensures r.Ok? <==> UniqueKeys(v)
    ensures r.Ok? ==> r.value == v
    ensures r.Err? ==> Repeats(v, r.error)
    decreases v, 0
  {
    var values := [];
    for i := 0 to |v.elements|
      invariant values == v.elements[..i]
      invariant forall j :: 0 <= j < i ==> UniqueKeys(v.elements[j])
    {
      var value := ParseStrict(v.elements[i]);
      if value.Err? { return value; }
      values := values + [value.value];
    }
    return Ok(Array(values));
  }

  method VisitMap(v: Json) returns (r: Result<Json, string>)
    requires v.Object?
    ensures r.Ok? <==> UniqueKeys(v)
    ensures r.Ok? ==> r.value == v
    ensures r.Err? ==> Repeats(v, r.error)
    decreases v, 0
  {
    var ms := v.members;
    var values := [];
    for i := 0 to |ms|
      invariant values == ms[..i]
      invariant forall j :: 0 <= j < i ==> UniqueKeys(ms[j].item)
      invariant forall j, k :: 0 <= j < k < i ==> ms[j].key != ms[k].key
    {
      if exists m :: m in values && m.key == ms[i].key { return Err(ms[i].key); }
      var value := ParseStrict(ms[i].item);
      if value.Err? { return value; }
      values := values + [Member(ms[i].key, value.value)];
    }
    return Ok(Object(values));
  }

  // ---------------------------------------------------------------- the same up to member order

  function Lookup(ms: seq<Member>, key: string): Option<Json> {
    if ms == [] then None else if ms[0].key == key then Some(ms[0].item) else Lookup(ms[1..], key)
  }

  /** The same document except for the order of members, at every depth. */
  predicate Reordered(v: Json, w: Json)
    decreases v
  {
    match v
    case Array(elements) =>
      && w.Array? && |elements| == |w.elements|
      && forall i :: 0 <= i < |elements| ==> Reordered(elements[i], w.elements[i])
    case Object(members) =>
      && w.Object?
      && (forall i :: 0 <= i < |members| ==>
            var other := Lookup(w.members, members[i].key);
            other.Some? && Reordered(members[i].item, other.value))
      && (forall j :: 0 <= j < |w.members| ==> Lookup(members, w.members[j].key).Some?)
    case _ => v == w
  }

  predicate KeysDiffer(ms: seq<Member>) {
    forall i, j :: 0 <= i < j < |ms| ==> ms[i].key != ms[j].key
  }

  lemma {:induction false} LookupField(ms: seq<Member>, k: string)
    requires KeysDiffer(ms)
    ensures Lookup(ms, k).Some? <==> k in Fields(ms)
    ensures k in Fields(ms) ==> Fields(ms)[k] == Meaning(Lookup(ms, k).value)
    ensures k in Fields(ms) <==> exists i :: 0 <= i < |ms| && ms[i].key == k
  {
    if ms != [] {
      LookupField(ms[1..], k);
      if k in Fields(ms[1..]) {
        var i :| 0 <= i < |ms[1..]| && ms[1..][i].key == k;
        assert ms[i + 1].key == k;
      }
    }
  }

  lemma {:induction false} LookupUnique(ms: seq<Member>, k: string)
    requires Lookup(ms, k).Some? && forall i :: 0 <= i < |ms| ==> UniqueKeys(ms[i].item)
    ensures UniqueKeys(Lookup(ms, k).value)
  {
    if ms[0].key != k { LookupUnique(ms[1..], k); }
  }

  lemma {:induction false} MeaningsAt(vs: seq<Json>)
    ensures |Meanings(vs)| == |vs| && forall i :: 0 <= i < |vs| ==> Meanings(vs)[i] == Meaning(vs[i])
  {
    if vs != [] { MeaningsAt(vs[1..]); }
  }

  lemma {:induction false} ReorderedIsSameMeaning(v: Json, w: Json)
    requires UniqueKeys(v) && UniqueKeys(w)
    ensures Reordered(v, w) <==> Meaning(v) == Meaning(w)
    decreases v, 1
  {
    if v.Array? && w.Array? {
      ReorderedArrays(v, w);
    } else if v.Object? && w.Object? {
      ReorderedObjects(v, w);
    }
  }

  lemma {:induction false} ReorderedArrays(v: Json, w: Json)
    requires UniqueKeys(v) && UniqueKeys(w) && v.Array? && w.Array?
    ensures Reordered(v, w) <==> Meaning(v) == Meaning(w)
    decreases v, 0
  {
    MeaningsAt(v.elements);
    MeaningsAt(w.elements);
    forall i | 0 <= i < |v.elements| && i < |w.elements|
      ensures Reordered(v.elements[i], w.elements[i]) <==> Meaning(v.elements[i]) == Meaning(w.elements[i])
    {
      ReorderedIsSameMeaning(v.elements[i], w.elements[i]);
    }
  }

  lemma {:induction false} ReorderedObjects(v: Json, w: Json)
    requires UniqueKeys(v) && UniqueKeys(w) && v.Object? && w.Object?
    ensures Reordered(v, w) <==> Meaning(v) == Meaning(w)
    decreases v, 0
  {
    var ms, ns := v.members, w.members;
    forall i | 0 <= i < |ms| && Lookup(ns, ms[i].key).Some?
      ensures Reordered(ms[i].item, Lookup(ns, ms[i].key).value)
              <==> Meaning(ms[i].item) == Meaning(Lookup(ns, ms[i].key).value)
    {
      LookupUnique(ns, ms[i].key);
      ReorderedIsSameMeaning(ms[i].item, Lookup(ns, ms[i].key).value);
    }
    MatchedIsSameFields(ms, ns);
  }

  /** Members matched by key, with matching meanings. */
  predicate Matched(ms: seq<Member>, ns: seq<Member>) {
    && (forall i :: 0 <= i < |ms| ==>
          var other := Lookup(ns, ms[i].key);
          other.Some? && Meaning(ms[i].item) == Meaning(other.value))
    && (forall j :: 0 <= j < |ns| ==> Lookup(ms, ns[j].key).Some?)
  }

  lemma MatchedIsSameFields(ms: seq<Member>, ns: seq<Member>)
    requires KeysDiffer(ms) && KeysDiffer(ns)
    ensures Matched(ms, ns) <==> Fields(ms) == Fields(ns)
  {
    if Matched(ms, ns) {
      forall k ensures k in Fields(ms) <==> k in Fields(ns) {
        LookupField(ms, k);
        LookupField(ns, k);
      }
      forall k | k in Fields(ms) ensures Fields(ms)[k] == Fields(ns)[k] {
        LookupField(ms, k);
        LookupField(ns, k);
        var i :| 0 <= i < |ms| && ms[i].key == k;
        MemberField(ms, i);
      }
    }
    if Fields(ms) == Fields(ns) {
      forall i | 0 <= i < |ms|
        ensures Lookup(ns, ms[i].key).Some? && Meaning(ms[i].item) == Meaning(Lookup(ns, ms[i].key).value)
      {
        MemberField(ms, i);
        LookupField(ns, ms[i].key);
      }
      forall j | 0 <= j < |ns| ensures Lookup(ms, ns[j].key).Some? {
        LookupField(ns, ns[j].key);
        LookupField(ms, ns[j].key);
      }
    }
  }

  lemma {:induction false} MemberField(ms: seq<Member>, i: nat)
    requires KeysDiffer(ms) && i < |ms|
    ensures ms[i].key in Fields(ms) && Fields(ms)[ms[i].key] == Meaning(ms[i].item)
  {
    LookupField(ms[1..], ms[i].key);
    if i > 0 { MemberField(ms[1..], i - 1); }
  }

  /** For what a strict parse accepts, equal canonical forms mean equal up to member order. */
  lemma CanonicalUpToOrder(v: Json, w: Json)
    requires UniqueKeys(v) && UniqueKeys(w)
    ensures Canonical(v) == Canonical(w) <==> Reordered(v, w)
  {
    CanonicalFormIsComplete(v, w);
    ReorderedIsSameMeaning(v, w);
  }
}
