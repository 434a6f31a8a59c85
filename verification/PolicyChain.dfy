/**
  Local policy updates by any number of processes
  (crates/device-client/src/credential_store.rs:190-332, lib.rs:437-483, 544-602).

  Preparing reads the document with or without the policy lock; committing takes
  the lock, compares the document with the exact predecessor and replaces it.
  Each of those is a separate step here, and a process may die between any two.
 */
module PolicyChain {
  import opened Wrappers

  const MAX_ALLOWLIST_ROOTS := 128

  /** The digest of a canonical root list, as an ideal function. */
  datatype RootsDigest = DigestOf(roots: seq<string>)

  datatype Policy = Policy(
    version: nat,
    policyRevision: u64,
    allowlistRevision: u64,
    roots: seq<string>,
    rootsDigest: Option<RootsDigest>,
    bundleRoot: Option<string>)

  const DEFAULT_POLICY := Policy(1, 1, 1, [], None, None)

  datatype PolicyError = PolicyInvalid | PolicyConflict | BundleInvalid

  /** What the file system says about the paths a policy names. */
  datatype Paths = Paths(rootsCanonical: bool, bundleVerifies: bool)

  function Verify(p: Policy, paths: Paths): Outcome<PolicyError> {
    if p.version != 1 || p.policyRevision == 0 || p.allowlistRevision == 0 || |p.roots| > MAX_ALLOWLIST_ROOTS
    then Fail(PolicyInvalid)
    else if p.roots == [] && p.rootsDigest.Some? then Fail(PolicyInvalid)
    else if p.roots != [] && (!paths.rootsCanonical || p.rootsDigest != Some(DigestOf(p.roots)))
    then Fail(PolicyInvalid)
    else if p.bundleRoot.Some? && !paths.bundleVerifies then Fail(BundleInvalid)
    else Pass
  }

  /** A requested change, with the canonical form its paths resolve to (if they do). */
  datatype Change =
    | ReplaceRoots(requested: nat, canonicalRoots: Option<seq<string>>)
    | MoveBundle(canonicalBundle: Option<string>, managed: bool)

  function WithAllowlistRoots(p: Policy, requested: nat, canonical: Option<seq<string>>): Result<Policy, PolicyError> {
    if requested == 0 || requested > MAX_ALLOWLIST_ROOTS || p.allowlistRevision == U64_MAX || canonical.None?
       || p.policyRevision == U64_MAX
    then Err(PolicyInvalid)
    else Ok(Policy(1, p.policyRevision + 1, p.allowlistRevision + 1, canonical.value, Some(DigestOf(canonical.value)),
                   p.bundleRoot))
  }

  function WithLearningBundleRoot(p: Policy, canonical: Option<string>): Result<Policy, PolicyError> {
    if canonical.None? then Err(BundleInvalid)
    else if p.policyRevision == U64_MAX then Err(PolicyInvalid)
    else Ok(p.(policyRevision := p.policyRevision + 1, bundleRoot := canonical))
  }

  function Changed(p: Policy, change: Change): Result<Policy, PolicyError> {
    match change
    case ReplaceRoots(requested, canonical) => WithAllowlistRoots(p, requested, canonical)
    case MoveBundle(canonical, _) => WithLearningBundleRoot(p, canonical)
  }

  datatype Update = Update(previous: Policy, next: Policy, change: Change)

  /** A managed release migration replaces a bundle that no longer verifies. */
  function PrepareUpdate(current: Policy, change: Change, before: Paths, after: Paths): Result<Update, PolicyError> {
    var managed := change.MoveBundle? && change.managed;
    var verified := Verify(if managed then current.(bundleRoot := None) else current, before);
    if verified.Fail? then Err(verified.error) else
      var next :- Changed(current, change);
      var nextVerified := Verify(next, after);
      if nextVerified.Fail? then Err(nextVerified.error) else Ok(Update(current, next, change))
  }

  /** The compare-and-swap test a commit makes under the lock. */
  function CommitCheck(current: Policy, update: Update, paths: Paths): Outcome<PolicyError> {
    if current != update.previous then Fail(PolicyConflict)
    else if current.policyRevision == U64_MAX then Fail(PolicyInvalid)
    else if update.next.policyRevision != current.policyRevision + 1 then Fail(PolicyConflict)
    else Verify(update.next, paths)
  }

  /** The policy file as one process sees it while it holds the lock. */
  class PolicyFile {
    var document: Option<Policy>

    constructor (document: Option<Policy>)
      ensures this.document == document
    {
      this.document := document;
    }

    function Current(): (p: Policy)
      reads this
      ensures document.None? ==> p == DEFAULT_POLICY
    {
      if document.Some? then document.value else DEFAULT_POLICY
    }

    /** Replaces the document exactly when its predecessor is still the one prepared against. */
    method CommitPolicyUpdate(update: Update, paths: Paths) returns (o: Outcome<PolicyError>)
      modifies this
      ensures o == CommitCheck(old(Current()), update, paths)
      ensures o.Pass? ==> document == Some(update.next) && old(Current()) == update.previous
      ensures o.Fail? ==> document == old(document)
    {
      var current := Current();
      if current != update.previous { return Fail(PolicyConflict); }
      if current.policyRevision == U64_MAX { return Fail(PolicyInvalid); }
      if update.next.policyRevision != current.policyRevision + 1 { return Fail(PolicyConflict); }
      :- Verify(update.next, paths);
      document := Some(update.next);
      return Pass;
    }
  }

  // ---------------------------------------------------------------- many writers, one step at a time

  /** `checked`: the comparison passed and the replacement has not happened yet. */
  datatype Writer = Writer(update: Option<Update>, checked: bool)

  datatype State = State(
    document: Option<Policy>,
    lock: Option<nat>,
    writers: map<nat, Writer>,
    committed: seq<Update>)

  datatype Action =
    | Prepare(writer: nat, change: Change, before: Paths, after: Paths)
    | Lock(writer: nat)
    | Check(writer: nat, paths: Paths)
    | Write(writer: nat)
    | Unlock(writer: nat)
    | Die(writer: nat)

  function CurrentOf(s: State): Policy {
    if s.document.Some? then s.document.value else DEFAULT_POLICY
  }

  function WriterOf(s: State, w: nat): Writer {
    if w in s.writers then s.writers[w] else Writer(None, false)
  }

  /** One step of one process; a step that is not enabled changes nothing. */
  function Step(s: State, action: Action): State {
    var w := action.writer;
    var me := WriterOf(s, w);
    match action
    case Prepare(_, change, before, after) =>
      var prepared := PrepareUpdate(CurrentOf(s), change, before, after);
      if me.checked || prepared.Err? then s
      else s.(writers := s.writers[w := Writer(Some(prepared.value), false)])
    case Lock(_) =>
      if s.lock.None? then s.(lock := Some(w)) else s
    case Check(_, paths) =>
      if s.lock == Some(w) && me.update.Some? && CommitCheck(CurrentOf(s), me.update.value, paths).Pass?
      then s.(writers := s.writers[w := me.(checked := true)]) else s
    case Write(_) =>
      if me.checked && me.update.Some?
      then s.(document := Some(me.update.value.next), committed := s.committed + [me.update.value],
              writers := s.writers[w := me.(checked := false)])
      else s
    case Unlock(_) =>
      if s.lock == Some(w) && !me.checked then s.(lock := None) else s
    case Die(_) =>
      s.(lock := if s.lock == Some(w) then None else s.lock, writers := s.writers - {w})
  }

  function Run(s: State, actions: seq<Action>): State
    decreases |actions|
  {
    if actions == [] then s else Run(Step(s, actions[0]), actions[1..])
  }

  /** An update is exactly what one change makes of its predecessor. */
  predicate WellFormed(u: Update) {
    Changed(u.previous, u.change) == Ok(u.next)
  }

  /** Each commit starts from the document the previous one wrote. */
  predicate Chain(start: Policy, committed: seq<Update>, end: Policy) {
    if committed == [] then end == start
    else
      var last := committed[|committed| - 1];
      WellFormed(last) && last.next == end && Chain(start, committed[..|committed| - 1], last.previous)
  }

  /** Only the lock holder can be between comparing and writing, and its comparison still holds. */
  predicate WritersWaitForLock(s: State) {
    && (forall w :: w in s.writers && s.writers[w].update.Some? ==> WellFormed(s.writers[w].update.value))
    && (forall w :: w in s.writers && s.writers[w].checked ==>
          s.lock == Some(w) && s.writers[w].update.Some? && s.writers[w].update.value.previous == CurrentOf(s))
  }

  predicate Inv(start: Policy, s: State) {
    Chain(start, s.committed, CurrentOf(s)) && WritersWaitForLock(s)
  }

  lemma StepKeepsWriters(s: State, action: Action)
    requires WritersWaitForLock(s)
    ensures WritersWaitForLock(Step(s, action))
  {
    var me := WriterOf(s, action.writer);
    match action {
      case Prepare(_, _, _, _) =>
      case Lock(_) =>
      case Check(_, _) =>
      case Write(_) =>
        if me.checked {
          assert forall w :: w in s.writers && s.writers[w].checked ==> w == action.writer;
        }
      case Unlock(_) =>
      case Die(_) =>
    }
  }

  lemma StepKeepsInv(start: Policy, s: State, action: Action)
    requires Inv(start, s)
    ensures Inv(start, Step(s, action))
  {
    StepKeepsWriters(s, action);
    var me := WriterOf(s, action.writer);
    if action.Write? && me.checked && me.update.Some? {
      assert (s.committed + [me.update.value])[..|s.committed|] == s.committed;
    }
  }

  lemma {:induction false} RunKeepsInv(start: Policy, s: State, actions: seq<Action>)
    requires Inv(start, s)
    ensures Inv(start, Run(s, actions))
    decreases |actions|
  {
    if actions != [] {
      StepKeepsInv(start, s, actions[0]);
      RunKeepsInv(start, Step(s, actions[0]), actions[1..]);
    }
  }

  /** What a committed change does to the revisions, to the part it names and to the part it does not. */
  predicate RevisionRules(u: Update) {
    && u.next.policyRevision == u.previous.policyRevision + 1
    && (u.change.ReplaceRoots? ==>
          && u.change.canonicalRoots.Some? && 1 <= u.change.requested <= 128
          && u.next.version == 1 && u.next.roots == u.change.canonicalRoots.value
          && u.next.rootsDigest == Some(DigestOf(u.change.canonicalRoots.value))
          && u.next.allowlistRevision == u.previous.allowlistRevision + 1 && u.next.bundleRoot == u.previous.bundleRoot)
    && (u.change.MoveBundle? ==>
          && u.next.version == u.previous.version
          && u.change.canonicalBundle.Some? && u.next.bundleRoot == u.change.canonicalBundle
          && u.next.allowlistRevision == u.previous.allowlistRevision
          && u.next.roots == u.previous.roots && u.next.rootsDigest == u.previous.rootsDigest)
  }

  lemma {:induction false} ChainLinks(start: Policy, committed: seq<Update>, end: Policy, i: nat)
    requires Chain(start, committed, end) && i < |committed|
    ensures RevisionRules(committed[i])
    ensures committed[i].previous.policyRevision == start.policyRevision + i
    ensures committed[i].previous == if i == 0 then start else committed[i - 1].next
    ensures end.policyRevision == start.policyRevision + |committed|
    decreases |committed|
  {
    var n := |committed| - 1;
    var shorter := committed[..n];
    if n > 0 {
      ChainLinks(start, shorter, committed[n].previous, if i < n then i else n - 1);
      assert shorter[n - 1] == committed[n - 1];
    }
  }

  /**
    For any interleaving of any number of writers with any of them dying at any
    point: every commit's predecessor is the document committed just before it,
    the revision counts the commits, and two updates prepared from the same
    document are never both committed.
   */
  lemma PolicyUpdatesFormAChain(document: Option<Policy>, actions: seq<Action>)
    ensures var s0 := State(document, None, map[], []);
      var start := CurrentOf(s0);
      var s := Run(s0, actions);
      && CurrentOf(s) == (if s.committed == [] then start else s.committed[|s.committed| - 1].next)
      && CurrentOf(s).policyRevision == start.policyRevision + |s.committed|
      && (forall i :: 0 <= i < |s.committed| ==> RevisionRules(s.committed[i]))
      && (forall i :: 0 <= i < |s.committed| ==>
            s.committed[i].previous == if i == 0 then start else s.committed[i - 1].next)
      && (forall i, j :: 0 <= i < j < |s.committed| ==> s.committed[i].previous != s.committed[j].previous)
  {
    var s0 := State(document, None, map[], []);
    var start := CurrentOf(s0);
    RunKeepsInv(start, s0, actions);
    var s := Run(s0, actions);
    var c := s.committed;
    forall i | 0 <= i < |c|
      ensures RevisionRules(c[i]) && c[i].previous.policyRevision == start.policyRevision + i
      ensures c[i].previous == if i == 0 then start else c[i - 1].next
    {
      ChainLinks(start, c, CurrentOf(s), i);
    }
    if c != [] { ChainLinks(start, c, CurrentOf(s), 0); }
  }

  // ---------------------------------------------------------------- what the document says

  /** The roots and digest of the last replacement, or those the chain started from. */
  function LastRoots(start: Policy, committed: seq<Update>): (seq<string>, Option<RootsDigest>) {
    if committed == [] then (start.roots, start.rootsDigest)
    else
      var last := committed[|committed| - 1].change;
      if last.ReplaceRoots? && last.canonicalRoots.Some?
      then (last.canonicalRoots.value, Some(DigestOf(last.canonicalRoots.value)))
      else LastRoots(start, committed[..|committed| - 1])
  }

  function LastBundle(start: Policy, committed: seq<Update>): Option<string> {
    if committed == [] then start.bundleRoot
    else
      var last := committed[|committed| - 1].change;
      if last.MoveBundle? then last.canonicalBundle else LastBundle(start, committed[..|committed| - 1])
  }

  function RootReplacements(committed: seq<Update>): nat {
    if committed == [] then 0
    else
      RootReplacements(committed[..|committed| - 1])
      + (if committed[|committed| - 1].change.ReplaceRoots? then 1 else 0)
  }

  lemma {:induction false} ChainDocument(start: Policy, committed: seq<Update>, end: Policy)
    requires Chain(start, committed, end)
    ensures (end.roots, end.rootsDigest) == LastRoots(start, committed)
    ensures end.bundleRoot == LastBundle(start, committed)
    ensures end.allowlistRevision == start.allowlistRevision + RootReplacements(committed)
    decreases |committed|
  {
    if committed != [] {
      var last := committed[|committed| - 1];
      ChainLinks(start, committed, end, |committed| - 1);
      ChainDocument(start, committed[..|committed| - 1], last.previous);
    }
  }

  /**
    At every point of every interleaving the document holds the roots of the last
    committed replacement and the bundle of the last committed move, and its allowlist
    revision counts the replacements.
   */
  lemma DocumentIsLastCommitted(document: Option<Policy>, actions: seq<Action>)
    ensures var s0 := State(document, None, map[], []);
      var start := CurrentOf(s0);
      var s := Run(s0, actions);
      && (CurrentOf(s).roots, CurrentOf(s).rootsDigest) == LastRoots(start, s.committed)
      && CurrentOf(s).bundleRoot == LastBundle(start, s.committed)
      && CurrentOf(s).allowlistRevision == start.allowlistRevision + RootReplacements(s.committed)
  {
    var s0 := State(document, None, map[], []);
    RunKeepsInv(CurrentOf(s0), s0, actions);
    var s := Run(s0, actions);
    ChainDocument(CurrentOf(s0), s.committed, CurrentOf(s));
  }

  // ---------------------------------------------------------------- which changes are made

  /** Known version, positive revisions, roots with exactly their digest, and a bundle that verifies. */
  predicate InOrder(p: Policy, paths: Paths) {
    && p.version == 1 && p.policyRevision > 0 && p.allowlistRevision > 0 && |p.roots| <= 128
    && p.rootsDigest == (if p.roots == [] then None else Some(DigestOf(p.roots)))
    && (p.roots == [] || paths.rootsCanonical) && (p.bundleRoot.None? || paths.bundleVerifies)
  }

  lemma VerifiesExactlyWhen(p: Policy, paths: Paths)
    ensures Verify(p, paths).Pass? <==> InOrder(p, paths)
  {}

  /** When new roots can be prepared: everything is in order, there is something to add, and no counter is used up. */
  lemma RootsPrepareExactlyWhen(p: Policy, requested: nat, canonical: Option<seq<string>>, before: Paths, after: Paths)
    ensures PrepareUpdate(p, ReplaceRoots(requested, canonical), before, after).Ok? <==>
      && InOrder(p, before) && 1 <= requested <= 128 && p.allowlistRevision < U64_MAX && p.policyRevision < U64_MAX
      && canonical.Some? && 0 < |canonical.value| <= 128 && after.rootsCanonical
      && (p.bundleRoot.None? || after.bundleVerifies)
  {}

  /** When a bundle can be prepared; only a managed migration may start from one that no longer verifies. */
  lemma BundlePreparesExactlyWhen(p: Policy, canonical: Option<string>, managed: bool, before: Paths, after: Paths)
    ensures PrepareUpdate(p, MoveBundle(canonical, managed), before, after).Ok? <==>
      && InOrder(if managed then p.(bundleRoot := None) else p, before)
      && canonical.Some? && p.policyRevision < U64_MAX && after.bundleVerifies
      && (p.roots == [] || after.rootsCanonical)
  {}

  /** When a prepared update commits: the document is still the one it was prepared from, and it still verifies. */
  lemma PreparedCommitsExactlyWhen(p: Policy, current: Policy, change: Change, before: Paths, after: Paths, now: Paths)
    requires PrepareUpdate(p, change, before, after).Ok?
    ensures var u := PrepareUpdate(p, change, before, after).value;
      && u.previous == p && u.change == change && RevisionRules(u)
      && (CommitCheck(current, u, now).Pass? <==> current == p && InOrder(u.next, now))
  {
    VerifiesExactlyWhen(PrepareUpdate(p, change, before, after).value.next, now);
  }

  /** A writer that is left alone gets its prepared update committed. */
  lemma LoneWriterCommits(s: State, w: nat, change: Change, before: Paths, after: Paths)
    requires s.lock.None? && w !in s.writers && PrepareUpdate(CurrentOf(s), change, before, after).Ok?
    ensures var u := PrepareUpdate(CurrentOf(s), change, before, after).value;
      var ready := Step(Step(s, Prepare(w, change, before, after)), Lock(w));
      var s' := Step(Step(Step(ready, Check(w, after)), Write(w)), Unlock(w));
      s'.document == Some(u.next) && s'.committed == s.committed + [u] && s'.lock.None?
  {
    VerifiesExactlyWhen(PrepareUpdate(CurrentOf(s), change, before, after).value.next, after);
  }

  /** The test of a commit, for any update: nothing came in between, the revision is the next one, and it verifies. */
  lemma CommitsExactlyWhen(current: Policy, update: Update, now: Paths)
    ensures CommitCheck(current, update, now).Pass? <==>
      && current == update.previous && update.next.policyRevision == current.policyRevision + 1
      && InOrder(update.next, now)
    ensures current != update.previous ==> CommitCheck(current, update, now) == Fail(PolicyConflict)
    ensures current == update.previous && current.policyRevision < U64_MAX
            && update.next.policyRevision != current.policyRevision + 1 ==>
      CommitCheck(current, update, now) == Fail(PolicyConflict)
    ensures current == update.previous && current.policyRevision == U64_MAX ==>
      CommitCheck(current, update, now) == Fail(PolicyInvalid)
  {}

  /** A writer that dies leaves the document alone and gives up its lock, so that another can go on. */
  lemma DeathFreesLock(s: State, w: nat, v: nat, change: Change, before: Paths, after: Paths)
    requires s.lock == Some(w) && v != w && v !in s.writers
    requires PrepareUpdate(CurrentOf(s), change, before, after).Ok?
    ensures var d := Step(s, Die(w));
      && d.document == s.document && d.committed == s.committed && d.lock.None? && w !in d.writers
      && var u := PrepareUpdate(CurrentOf(s), change, before, after).value;
         var ready := Step(Step(d, Prepare(v, change, before, after)), Lock(v));
         Step(Step(ready, Check(v, after)), Write(v)).document == Some(u.next)
  {
    LoneWriterCommits(Step(s, Die(w)), v, change, before, after);
  }

  /** A second writer neither takes a held lock nor passes the comparison without it. */
  lemma HeldLockExcludes(s: State, v: nat, paths: Paths)
    requires s.lock.Some? && s.lock.value != v
    ensures Step(s, Lock(v)) == s && Step(s, Check(v, paths)) == s && Step(s, Unlock(v)) == s
  {}
}
