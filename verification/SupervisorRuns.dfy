/** What every run of the Bridge supervisor keeps. */
module SupervisionRuns {
  import opened Wrappers
  import opened ProtocolText
  import opened Scheduling
  import opened Leases
  import opened BridgeProtocol
  import opened Supervision
  import Sequences = SequenceLedger

  // ---------------------------------------------------------------- the invariant

  predicate LeaseSound(s: State) {
    && s.lease.Bounded() && s.lease.GraceHasDeadline()
    && (s.lease.revoked ==> s.cancelled)
  }

  /** Stored permits carry the current generation and sequences never handed out again. */
  predicate PermitsSound(s: State) {
    && (forall q :: q in s.permits ==>
          && 1 <= q <= s.nextSequence
          && s.permits[q].permit.sequence == q
          && s.permits[q].permit.generation == s.lease.generation)
    && (forall q :: q in s.consumed ==> q <= s.nextSequence && q !in s.permits)
  }

  predicate GuardsSound(s: State, cfg: Config) {
    && Tracks(s.book, cfg.maxParallel, s.live)
    && (forall g :: g in s.live ==> GuardWithin(g, cfg.defaultTaskSpace))
  }

  /** Cancellation material is only kept for sequences that were reserved. */
  predicate RemoteSound(s: State) {
    forall k :: k in s.active ==> k.sequence <= s.highest
  }

  predicate Inv(s: State, cfg: Config) {
    LeaseSound(s) && PermitsSound(s) && GuardsSound(s, cfg) && RemoteSound(s)
  }

  lemma InitialInv(cfg: Config, generation: u64, now: u64, storage: Sequences.Storage)
    ensures Inv(InitialState(generation, now, storage), cfg)
  {
    assert KeysHeld({}) == {};
  }

  // ---------------------------------------------------------------- what a start does to each part

  /** Either no guard was added, or one for a scope confined to the dedicated Task Space. */
  predicate StartsConfined(s: State, s': State, cfg: Config, generation: u64, requestId: string, scope: RequestScope) {
    && Within(scope, cfg.defaultTaskSpace)
    && Acquire(s.book, cfg.maxParallel, generation, requestId, scope) == Ok(s'.book)
    && s'.live == s.live + {GuardFor(generation, requestId, scope)}
  }

  predicate SameGuards(s: State, s': State) {
    s'.book == s.book && s'.live == s.live
  }

  lemma StartKeepsGuards(s: State, s': State, cfg: Config, generation: u64, requestId: string, scope: RequestScope)
    requires GuardsSound(s, cfg) && StartsConfined(s, s', cfg, generation, requestId, scope)
    ensures GuardsSound(s', cfg)
  {
    AcquireRefines(s.book, cfg.maxParallel, s.live, generation, requestId, scope);
    GuardForWithin(generation, requestId, scope, cfg.defaultTaskSpace);
  }

  lemma RedeemKeepsRest(s: State, e: Envelope, key: Key, nowMs: u64)
    ensures var x := Redeem(s, e, key, nowMs);
      && x.0 == s.(permits := x.0.permits, consumed := x.0.consumed)
      && (PermitsSound(s) ==> PermitsSound(x.0))
      && (x.1.Ok? ==> e.sequence in s.permits && x.1.value == s.permits[e.sequence] && e.sequence !in x.0.permits)
  {}

  lemma ExecuteEffect(s: State, cfg: Config, e: Envelope, key: Key, nowMs: u64)
    ensures var x := BeginExecute(s, cfg, e, key, nowMs);
      var t := Redeem(s, e, key, nowMs).0;
      && x.0 == t.(book := x.0.book, live := x.0.live)
      && (x.1.Err? ==> x.0 == t)
      && (x.1.Ok? ==>
            && Redeem(s, e, key, nowMs).1.Ok? && e.inner.Some?
            && StartsConfined(t, x.0, cfg, e.generation, e.requestId, ScopeOf(e.inner.value)))
  {
    if BeginExecute(s, cfg, e, key, nowMs).1.Ok? { AcceptedScopeIsConfined(e.inner.value, cfg); }
  }

  lemma ExecuteKeepsInv(s: State, cfg: Config, e: Envelope, key: Key, nowMs: u64)
    requires Inv(s, cfg)
    ensures Inv(BeginExecute(s, cfg, e, key, nowMs).0, cfg)
  {
    var x := BeginExecute(s, cfg, e, key, nowMs);
    RedeemKeepsRest(s, e, key, nowMs);
    ExecuteEffect(s, cfg, e, key, nowMs);
    if x.1.Ok? {
      StartKeepsGuards(Redeem(s, e, key, nowMs).0, x.0, cfg, e.generation, e.requestId, ScopeOf(e.inner.value));
    }
  }

  lemma PrepareEffect(s: State, cfg: Config, e: Envelope, now: u64, fate: Sequences.Fate, chance: Chance)
    ensures var x := PrepareRemote(s, cfg, e, now, fate, chance);
      && x.0 == s.(highest := x.0.highest, storage := x.0.storage, book := x.0.book, live := x.0.live,
                   active := x.0.active, cancelled := x.0.cancelled)
      && (s.cancelled ==> x.0.cancelled)
      && s.highest <= x.0.highest && (x.1.Ok? ==> x.0.highest == e.sequence > s.highest)
      && (if x.1.Ok? && x.1.value.Running? then
            && AdmitRemote(s, cfg, e, now).Pass? && e.inner.Some? && x.0.cancelled == s.cancelled
            && x.1.value.guard == GuardFor(e.generation, e.requestId, ScopeOf(e.inner.value))
            && x.0.active == s.active[KeyOf(e) := ActiveRequest(false, e.sealedKey)]
            && StartsConfined(s, x.0, cfg, e.generation, e.requestId, ScopeOf(e.inner.value))
          else SameGuards(s, x.0) && x.0.active == s.active)
  {
    var x := PrepareRemote(s, cfg, e, now, fate, chance);
    if x.1.Ok? && x.1.value.Running? { AcceptedScopeIsConfined(e.inner.value, cfg); }
  }

  lemma PrepareKeepsInv(s: State, cfg: Config, e: Envelope, now: u64, fate: Sequences.Fate, chance: Chance)
    requires Inv(s, cfg)
    ensures Inv(PrepareRemote(s, cfg, e, now, fate, chance).0, cfg)
  {
    var x := PrepareRemote(s, cfg, e, now, fate, chance);
    PrepareEffect(s, cfg, e, now, fate, chance);
    if x.1.Ok? && x.1.value.Running? {
      StartKeepsGuards(s, x.0, cfg, e.generation, e.requestId, ScopeOf(e.inner.value));
    }
  }

  /** A request that passed the reservation is never mistaken for one already active. */
  lemma ReservedRequestIsNew(s: State, cfg: Config, e: Envelope, now: u64, fate: Sequences.Fate, chance: Chance)
    requires Inv(s, cfg)
    ensures AdmitRemote(s, cfg, e, now).Pass? ==>
      (PrepareRemote(s, cfg, e, now, fate, chance).1 == Err(Replayed) <==> e.sequence <= s.highest)
  {
    assert e.sequence > s.highest ==> KeyOf(e) !in s.active;
  }

  lemma IssueKeepsInv(s: State, cfg: Config, r: PermitRequest, now: u64, nowMs: u64, requestId: string, key: Key)
    requires Inv(s, cfg)
    ensures Inv(Issue(s, cfg, r, now, nowMs, requestId, key).0, cfg)
  {}

  predicate TouchesLease(c: Command) {
    c.DoUpdateLease? || c.DoRenewalFailed? || c.DoRevoke? || c.DoCancel? || c.DoResume? || c.DoActivate?
  }

  /** Control steps leave guards and reservations alone and keep or drop all permits together. */
  lemma ControlEffect(s: State, cfg: Config, c: Command)
    requires TouchesLease(c)
    ensures var x := Step(s, cfg, c);
      && x.1 == Nothing
      && x.0 == s.(lease := x.0.lease, cancelled := x.0.cancelled, permits := x.0.permits, consumed := x.0.consumed)
      && (|| (x.0.permits == map[] && x.0.consumed == {})
          || (x.0.permits == s.permits && x.0.consumed == s.consumed && x.0.lease.generation == s.lease.generation))
      && (c.DoRevoke? || (c.DoActivate? && Activate(s, c.generation, c.now).1.Pass?) ==> x.0.permits == map[])
      && (LeaseSound(s) ==> LeaseSound(x.0))
  {
    match c {
      case DoUpdateLease(_, _, _) =>
      case DoRenewalFailed(_, _) =>
      case DoRevoke =>
      case DoCancel =>
      case DoResume(_) =>
      case DoActivate(_, _) =>
    }
  }

  lemma EndKeepsInv(s: State, cfg: Config, guard: PermitGuard)
    requires Inv(s, cfg)
    ensures Inv(EndExecution(s, guard), cfg)
  {
    if guard in s.live { ReleaseTracks(s.book, cfg.maxParallel, s.live, guard); }
  }

  lemma TableStepKeepsInv(s: State, cfg: Config, c: Command)
    requires Inv(s, cfg) && (c.DoCancelRemote? || c.DoFinishRemote? || c.DoClearRemote?)
    ensures Inv(Step(s, cfg, c).0, cfg)
  {}

  lemma ControlKeepsInv(s: State, cfg: Config, c: Command)
    requires Inv(s, cfg) && TouchesLease(c)
    ensures Inv(Step(s, cfg, c).0, cfg)
  {
    ControlEffect(s, cfg, c);
  }

  lemma StepKeepsInv(s: State, cfg: Config, c: Command)
    requires Inv(s, cfg)
    ensures Inv(Step(s, cfg, c).0, cfg)
  {
    match c {
      case DoIssue(r, now, nowMs, requestId, key) => IssueKeepsInv(s, cfg, r, now, nowMs, requestId, key);
      case DoExecute(e, key, nowMs) => ExecuteKeepsInv(s, cfg, e, key, nowMs);
      case DoPrepare(e, now, fate, chance) => PrepareKeepsInv(s, cfg, e, now, fate, chance);
      case DoEnd(guard) => EndKeepsInv(s, cfg, guard);
      case DoCancelRemote(_, _) => TableStepKeepsInv(s, cfg, c);
      case DoFinishRemote(_) => TableStepKeepsInv(s, cfg, c);
      case DoClearRemote => TableStepKeepsInv(s, cfg, c);
      case _ => ControlKeepsInv(s, cfg, c);
    }
  }

  lemma {:induction false} RunKeepsInv(s: State, cfg: Config, commands: seq<Command>)
    requires Inv(s, cfg)
    ensures Inv(Run(s, cfg, commands), cfg)
    decreases |commands|
  {
    if commands != [] {
      StepKeepsInv(s, cfg, commands[0]);
      RunKeepsInv(Step(s, cfg, commands[0]).0, cfg, commands[1..]);
    }
  }

  // ---------------------------------------------------------------- single flight

  /**
    Whatever the parallelism limit and however permit and relay requests are
    mixed, at most one execution holds the scheduler at any point of any run.
   */
  lemma SingleFlight(cfg: Config, generation: u64, now: u64, storage: Sequences.Storage, commands: seq<Command>)
    ensures var s := Run(InitialState(generation, now, storage), cfg, commands);
      && s.book.active == |s.live| <= 1
      && s.lease.Bounded()
      && (s.lease.revoked ==> s.cancelled)
  {
    InitialInv(cfg, generation, now, storage);
    RunKeepsInv(InitialState(generation, now, storage), cfg, commands);
    var s := Run(InitialState(generation, now, storage), cfg, commands);
    ConfinedGuardsAreAlone(s.book, cfg.maxParallel, s.live, cfg.defaultTaskSpace);
  }

  // ---------------------------------------------------------------- revocation

  predicate Reactivates(s: State, c: Command) {
    c.DoActivate? && c.generation > s.lease.generation
  }

  /** Only a strictly larger generation ends a revocation. */
  lemma StepWhileRevoked(s: State, cfg: Config, c: Command)
    requires s.lease.revoked && s.cancelled
    ensures var x := Step(s, cfg, c);
      && x.1 == Nothing
      && (if Reactivates(s, c) then !x.0.lease.revoked && x.0.permits == map[]
          else x.0.lease.revoked && x.0.cancelled && x.0.lease.generation == s.lease.generation)
  {}

  /**
    After a revocation nothing is issued and nothing starts, through any sequence
    of renewals, reconnects, failures, cancels and requests, until a larger
    generation is activated.
   */
  lemma {:induction false} RevocationIsAbsorbing(s: State, cfg: Config, commands: seq<Command>)
    requires s.lease.revoked && s.cancelled
    requires forall c :: c in commands ==> !Reactivates(s, c)
    ensures forall e :: e in Events(s, cfg, commands) ==> e == Nothing
    ensures var s' := Run(s, cfg, commands);
      s'.lease.revoked && s'.cancelled && s'.lease.generation == s.lease.generation
    decreases |commands|
  {
    if commands != [] {
      assert commands[0] in commands;
      StepWhileRevoked(s, cfg, commands[0]);
      var s' := Step(s, cfg, commands[0]).0;
      forall c | c in commands[1..] ensures !Reactivates(s', c) { assert c in commands && !Reactivates(s, c); }
      RevocationIsAbsorbing(s', cfg, commands[1..]);
    }
  }

  // ---------------------------------------------------------------- permits

  /** A permit is spent exactly by a well-formed, matching, in-size request in an uncancelled generation. */
  lemma PermitSpentExactlyWhen(s: State, cfg: Config, e: Envelope, key: Key, nowMs: u64)
    ensures var s' := BeginExecute(s, cfg, e, key, nowMs).0;
      && (s'.permits != s.permits <==>
            && e.wellFormed && e.messageType.Execute? && e.isRequest
            && !s.cancelled && e.generation == s.lease.generation && !s.lease.revoked
            && e.sequence in s.permits && Redeems(s.permits[e.sequence], e, key)
            && e.payloadBytes <= s.permits[e.sequence].permit.maxPayloadBytes)
      && (s'.permits != s.permits ==> s'.permits == s.permits - {e.sequence})
  {
    ExecuteEffect(s, cfg, e, key, nowMs);
    if e.sequence in s.permits { assert e.sequence !in s.permits - {e.sequence}; }
  }

  /** What one step does to the permit store and to the sequence counter. */
  predicate PermitAccounting(s: State, s': State, e: Event) {
    && s.nextSequence <= s'.nextSequence
    && (forall q :: q in s'.permits ==>
          || (q in s.permits && s'.permits[q] == s.permits[q])
          || (e == PermitIssued(s'.permits[q].permit) && s.nextSequence < q <= s'.nextSequence))
    && (e.PermitIssued? ==>
          && s.nextSequence < e.permit.sequence <= s'.nextSequence && e.permit.generation == s.lease.generation)
    && (e.PermitRun? ==>
          && e.permit.sequence in s.permits && s.permits[e.permit.sequence].permit == e.permit
          && e.permit.sequence !in s'.permits && e.permit.generation == s.lease.generation)
  }

  lemma IssueAccounts(s: State, cfg: Config, r: PermitRequest, now: u64, nowMs: u64, requestId: string, key: Key)
    requires PermitsSound(s)
    ensures var x := Issue(s, cfg, r, now, nowMs, requestId, key);
      PermitAccounting(s, x.0, if x.1.Ok? then PermitIssued(x.1.value.permit) else Nothing)
  {}

  lemma ExecuteAccounts(s: State, cfg: Config, e: Envelope, key: Key, nowMs: u64)
    requires PermitsSound(s)
    ensures PermitAccounting(s, Step(s, cfg, DoExecute(e, key, nowMs)).0, Step(s, cfg, DoExecute(e, key, nowMs)).1)
  {
    RedeemKeepsRest(s, e, key, nowMs);
    ExecuteEffect(s, cfg, e, key, nowMs);
    assert Redeem(s, e, key, nowMs).0.permits == s.permits - {e.sequence} || Redeem(s, e, key, nowMs).0 == s;
  }

  lemma StepAccountsForPermits(s: State, cfg: Config, c: Command)
    requires PermitsSound(s)
    ensures PermitAccounting(s, Step(s, cfg, c).0, Step(s, cfg, c).1)
    ensures c.DoRevoke? || (c.DoActivate? && Activate(s, c.generation, c.now).1.Pass?) ==>
      Step(s, cfg, c).0.permits == map[]
  {
    match c {
      case DoExecute(e, key, nowMs) => ExecuteAccounts(s, cfg, e, key, nowMs);
      case DoPrepare(e, now, fate, chance) => PrepareEffect(s, cfg, e, now, fate, chance);
      case DoIssue(r, now, nowMs, requestId, key) => IssueAccounts(s, cfg, r, now, nowMs, requestId, key);
      case DoCancelRemote(_, _) =>
      case DoEnd(_) =>
      case DoFinishRemote(_) =>
      case DoClearRemote =>
      case _ => ControlEffect(s, cfg, c);
    }
  }

  /** Each permit is handed out once under a new sequence and starts at most one run. */
  predicate OneShot(s: State, events: seq<Event>) {
    && (forall i :: 0 <= i < |events| && events[i].PermitIssued? ==> s.nextSequence < events[i].permit.sequence)
    && (forall i, j :: 0 <= i < j < |events| && events[i].PermitIssued? && events[j].PermitIssued? ==>
          events[i].permit.sequence < events[j].permit.sequence)
    && (forall i, j :: 0 <= i < j < |events| && events[i].PermitRun? && events[j].PermitRun? ==>
          events[i].permit.sequence != events[j].permit.sequence)
    && (forall i :: 0 <= i < |events| && events[i].PermitRun? ==>
          || (events[i].permit.sequence in s.permits && s.permits[events[i].permit.sequence].permit == events[i].permit)
          || exists k :: 0 <= k < i && events[k] == PermitIssued(events[i].permit))
  }

  lemma {:induction false} PermitsAreOneShot(s: State, cfg: Config, commands: seq<Command>)
    requires Inv(s, cfg)
    ensures OneShot(s, Events(s, cfg, commands))
    decreases |commands|
  {
    if commands != [] {
      var s', e := Step(s, cfg, commands[0]).0, Step(s, cfg, commands[0]).1;
      StepKeepsInv(s, cfg, commands[0]);
      StepAccountsForPermits(s, cfg, commands[0]);
      PermitsAreOneShot(s', cfg, commands[1..]);
      OneShotExtends(s, s', e, Events(s', cfg, commands[1..]));
    }
  }

  lemma OneShotExtends(s: State, s': State, e: Event, rest: seq<Event>)
    requires PermitsSound(s) && PermitsSound(s') && PermitAccounting(s, s', e) && OneShot(s', rest)
    ensures OneShot(s, [e] + rest)
  {
    var events := [e] + rest;
    forall i | 0 <= i < |rest| && rest[i].PermitRun?
      ensures e.PermitRun? ==> e.permit.sequence != rest[i].permit.sequence
      ensures (rest[i].permit.sequence in s.permits && s.permits[rest[i].permit.sequence].permit == rest[i].permit)
              || exists k :: 0 <= k < i + 1 && events[k] == PermitIssued(rest[i].permit)
    {
      var p := rest[i].permit;
      if p.sequence in s'.permits && s'.permits[p.sequence].permit == p {
        if e == PermitIssued(p) { assert events[0] == PermitIssued(p); }
      } else {
        var k :| 0 <= k < i && rest[k] == PermitIssued(p);
        assert events[k + 1] == PermitIssued(p);
      }
    }
  }

  // ---------------------------------------------------------------- renewal grace

  predicate InGrace(s: State, deadline: u64) {
    !s.lease.revoked && s.lease.health.RenewalGrace? && s.lease.graceUntil == Some(deadline)
  }

  /** A granted renewal or a larger generation: the two ways out of a grace interval. */
  predicate Restores(generation: u64, c: Command) {
    || (c.DoUpdateLease? && c.generation == generation)
    || (c.DoActivate? && c.generation > generation)
  }

  predicate OnlyOldPermits(s: State, e: Event) {
    e == Nothing
    || (e.PermitRun? && e.permit.sequence in s.permits && s.permits[e.permit.sequence].permit == e.permit)
  }

  predicate FewerPermits(s: State, s': State) {
    forall q :: q in s'.permits ==> q in s.permits && s'.permits[q] == s.permits[q]
  }

  lemma StepInGrace(s: State, cfg: Config, c: Command, deadline: u64)
    requires PermitsSound(s) && InGrace(s, deadline) && !Restores(s.lease.generation, c)
    ensures var x := Step(s, cfg, c);
      && x.0.lease.generation == s.lease.generation
      && (InGrace(x.0, deadline) || (x.0.lease.revoked && x.0.cancelled))
      && OnlyOldPermits(s, x.1) && FewerPermits(s, x.0)
      && (c.DoRenewalFailed? && c.grace > 0 && c.now >= deadline ==> x.0.lease.revoked)
  {
    StepAccountsForPermits(s, cfg, c);
    match c {
      case DoExecute(e, key, nowMs) => RedeemKeepsRest(s, e, key, nowMs); ExecuteEffect(s, cfg, e, key, nowMs);
      case DoPrepare(e, now, fate, chance) => PrepareEffect(s, cfg, e, now, fate, chance);
      case _ =>
    }
  }

  /**
    Repeated failures never move the first deadline; until the lease is renewed
    nothing is issued and no relayed request starts; the first failure reported at
    or after the deadline revokes.
   */
  lemma {:induction false} GraceIsBoundedByFirstFailure(s: State, cfg: Config, commands: seq<Command>, deadline: u64)
    requires Inv(s, cfg) && InGrace(s, deadline)
    requires forall c :: c in commands ==> !Restores(s.lease.generation, c)
    ensures var s' := Run(s, cfg, commands);
      && (InGrace(s', deadline) || s'.lease.revoked)
      && ((exists c :: c in commands && c.DoRenewalFailed? && c.grace > 0 && c.now >= deadline) ==> s'.lease.revoked)
    ensures forall e :: e in Events(s, cfg, commands) ==> OnlyOldPermits(s, e)
    decreases |commands|
  {
    if commands == [] { return; }
    var c := commands[0];
    assert c in commands;
    StepInGrace(s, cfg, c, deadline);
    StepKeepsInv(s, cfg, c);
    var s' := Step(s, cfg, c).0;
    assert forall d :: d in commands[1..] ==> d in commands;
    if InGrace(s', deadline) {
      GraceIsBoundedByFirstFailure(s', cfg, commands[1..], deadline);
    } else {
      forall d | d in commands[1..] ensures !Reactivates(s', d) { assert !Restores(s.lease.generation, d); }
      RevocationIsAbsorbing(s', cfg, commands[1..]);
    }
  }

  /** The first failure opens the interval with the deadline it computed. */
  lemma FirstFailureOpensGrace(s: State, now: u64, grace: u64)
    requires !s.lease.revoked && s.lease.health.Healthy? && grace > 0
    requires now < s.lease.absoluteTtlUntil && now < SatAdd(now, grace)
    ensures RenewalFailed(s, now, grace).1.Pass? && InGrace(RenewalFailed(s, now, grace).0, SatAdd(now, grace))
  {}

  /**
    A permit issued before the failure is not affected by the grace interval:
    `execute` looks at revocation and generation, never at lease health.
   */
  lemma GraceDoesNotStopIssuedPermits(s: State, cfg: Config, e: Envelope, key: Key, nowMs: u64, deadline: u64)
    ensures var graced := s.(lease := s.lease.(health := RenewalGrace, graceUntil := Some(deadline)));
      BeginExecute(graced, cfg, e, key, nowMs).1 == BeginExecute(s, cfg, e, key, nowMs).1
  {
    var graced := s.(lease := s.lease.(health := RenewalGrace, graceUntil := Some(deadline)));
    assert Redeem(graced, e, key, nowMs).1 == Redeem(s, e, key, nowMs).1;
  }

  /** A stored permit that is valid now and fits this Bridge. */
  predicate Usable(issued: IssuedPermit, cfg: Config, nowMs: u64) {
    var p := issued.permit;
    && PermitValid(p, cfg, nowMs, 1) && IsDedicatedTaskSpace(cfg.defaultTaskSpace)
    && (p.mode != Binding ==> p.taskSpaceScope == Some(cfg.defaultTaskSpace))
  }

  /** A smallest request that redeems a permit. */
  function RequestFor(issued: IssuedPermit, cfg: Config): Envelope {
    var p := issued.permit;
    Envelope(true, Execute, true, p.bindingId, p.generation, p.sequence, p.requestId, 0, NoWrap, issued.key,
             Some(InnerRequest(true, 1, 1, "x", cfg.defaultTaskSpace, p.mode, p.taskSpaceScope, p.tabScope,
                               cfg.allowlistRevision, cfg.learningDigest)))
  }

  lemma UsablePermitMatches(issued: IssuedPermit, cfg: Config, nowMs: u64)
    requires Usable(issued, cfg, nowMs)
    ensures PermitRequestMatches(cfg, issued, RequestFor(issued, cfg), issued.key, nowMs)
  {
    DedicatedIsPlain(cfg.defaultTaskSpace);
    var p := issued.permit;
    assert Utf8Len("x") == 1;
    if p.mode == TaskSpaceTab {
      assert Trimmed(p.tabScope) == p.tabScope;
      assert ScopeTextValid(p.tabScope);
    }
  }

  lemma MatchingPermitIsUsable(issued: IssuedPermit, cfg: Config, e: Envelope, key: Key, nowMs: u64)
    requires PermitRequestMatches(cfg, issued, e, key, nowMs)
    ensures Usable(issued, cfg, nowMs)
  {
    DedicatedIsPlain(cfg.defaultTaskSpace);
  }

  /** Whether some request starts by redeeming a permit at this time. */
  ghost predicate SomePermitRuns(s: State, cfg: Config, nowMs: u64) {
    exists e: Envelope, key: Key :: Step(s, cfg, DoExecute(e, key, nowMs)).1 != Nothing
  }

  /**
    When a permit can still start a run, exactly, and so also what a grace interval
    lets through: a usable permit is stored, nothing is cancelled or running, and
    the lease is not revoked.  Lease health does not enter.
   */
  lemma PermitRunsExactlyWhen(s: State, cfg: Config, nowMs: u64)
    requires Inv(s, cfg)
    ensures SomePermitRuns(s, cfg, nowMs) <==>
      && !s.cancelled && !s.lease.revoked && s.live == {} && cfg.maxParallel > 0
      && exists q :: q in s.permits && Usable(s.permits[q], cfg, nowMs)
  {
    forall e: Envelope, key: Key | Step(s, cfg, DoExecute(e, key, nowMs)).1 != Nothing
      ensures e.sequence in s.permits && Usable(s.permits[e.sequence], cfg, nowMs)
      ensures !s.cancelled && !s.lease.revoked && s.live == {} && cfg.maxParallel > 0
    {
      RedeemKeepsRest(s, e, key, nowMs);
      MatchingPermitIsUsable(s.permits[e.sequence], cfg, e, key, nowMs);
      RunStartsAlone(s, cfg, e, key, nowMs);
    }
    if !s.cancelled && !s.lease.revoked && s.live == {} && cfg.maxParallel > 0 {
      forall q | q in s.permits && Usable(s.permits[q], cfg, nowMs)
        ensures Step(s, cfg, DoExecute(RequestFor(s.permits[q], cfg), s.permits[q].key, nowMs)).1 != Nothing
      {
        StoredPermitRuns(s, cfg, q, nowMs);
      }
    }
  }

  /** A run that starts finds the scheduler free. */
  lemma RunStartsAlone(s: State, cfg: Config, e: Envelope, key: Key, nowMs: u64)
    requires GuardsSound(s, cfg) && BeginExecute(s, cfg, e, key, nowMs).1.Ok?
    ensures s.live == {} && cfg.maxParallel > 0
  {
    var t := BeginExecute(s, cfg, e, key, nowMs).0;
    var scope := ScopeOf(e.inner.value);
    RedeemKeepsRest(s, e, key, nowMs);
    ExecuteEffect(s, cfg, e, key, nowMs);
    StartKeepsGuards(Redeem(s, e, key, nowMs).0, t, cfg, e.generation, e.requestId, scope);
    AcquireRefines(s.book, cfg.maxParallel, s.live, e.generation, e.requestId, scope);
    ConfinedGuardsAreAlone(t.book, cfg.maxParallel, t.live, cfg.defaultTaskSpace);
  }

  lemma StoredPermitRuns(s: State, cfg: Config, q: u64, nowMs: u64)
    requires Inv(s, cfg) && !s.cancelled && !s.lease.revoked && s.live == {} && cfg.maxParallel > 0
    requires q in s.permits && Usable(s.permits[q], cfg, nowMs)
    ensures var x := Step(s, cfg, DoExecute(RequestFor(s.permits[q], cfg), s.permits[q].key, nowMs));
      x.1 == PermitRun(s.permits[q].permit) && q !in x.0.permits && q in x.0.consumed
  {
    UsablePermitMatches(s.permits[q], cfg, nowMs);
    IdleSchedulerAdmits(s, cfg, s.permits[q]);
  }

  lemma IdleSchedulerAdmits(s: State, cfg: Config, issued: IssuedPermit)
    requires GuardsSound(s, cfg) && s.live == {} && cfg.maxParallel > 0
    ensures var p := issued.permit;
      forall scope :: Acquire(s.book, cfg.maxParallel, p.generation, p.requestId, scope).Ok?
  {
    var p := issued.permit;
    forall scope ensures Acquire(s.book, cfg.maxParallel, p.generation, p.requestId, scope).Ok? {
      AcquireRefines(s.book, cfg.maxParallel, s.live, p.generation, p.requestId, scope);
    }
  }

  // ---------------------------------------------------------------- what an issued permit is good for

  /** What a Bridge is configured with, and the identifiers it draws. */
  predicate Configured(cfg: Config, requestId: string) {
    ValidTextId(cfg.bindingId, 128) && ValidTextId(requestId, 128) && IsDedicatedTaskSpace(cfg.defaultTaskSpace)
  }

  lemma IssuedIsUsable(s: State, cfg: Config, r: PermitRequest, now: u64, nowMs: u64, requestId: string, key: Key,
                       later: u64)
    requires Configured(cfg, requestId) && s.lease.generation > 0
    ensures var x := Issue(s, cfg, r, now, nowMs, requestId, key);
      x.1.Ok? ==> (Usable(x.1.value, cfg, later) <==> later < SatAdd(nowMs, PERMIT_LIFETIME_MS))
  {
    NormalizedIsStable(r.mode, r.taskSpaceScope, r.tabScope);
  }

  /**
    An issued permit runs once: until it expires, the smallest request that redeems it
    starts a run on a free scheduler, and the same request is a replay afterwards.
   */
  lemma IssuedPermitRunsOnce(s: State, cfg: Config, r: PermitRequest, now: u64, nowMs: u64, requestId: string, key: Key,
                             later: u64, again: u64)
    requires Inv(s, cfg) && Configured(cfg, requestId) && s.lease.generation > 0
    requires s.live == {} && cfg.maxParallel > 0 && later < SatAdd(nowMs, PERMIT_LIFETIME_MS)
    ensures var x := Issue(s, cfg, r, now, nowMs, requestId, key);
      x.1.Ok? ==>
        var e := RequestFor(x.1.value, cfg);
        var y := Step(x.0, cfg, DoExecute(e, key, later));
        y.1 == PermitRun(x.1.value.permit) && BeginExecute(y.0, cfg, e, key, again) == (y.0, Err(Replayed))
  {
    var x := Issue(s, cfg, r, now, nowMs, requestId, key);
    IssueKeepsInv(s, cfg, r, now, nowMs, requestId, key);
    if x.1.Ok? {
      var q := x.1.value.permit.sequence;
      IssuedIsUsable(s, cfg, r, now, nowMs, requestId, key, later);
      StoredPermitRuns(x.0, cfg, q, later);
      SpentIsReplay(x.0, cfg, RequestFor(x.1.value, cfg), key, later, again);
    }
  }

  lemma SpentIsReplay(s: State, cfg: Config, e: Envelope, key: Key, nowMs: u64, again: u64)
    requires BeginExecute(s, cfg, e, key, nowMs).1.Ok?
    ensures var t := BeginExecute(s, cfg, e, key, nowMs).0;
      BeginExecute(t, cfg, e, key, again) == (t, Err(Replayed))
  {
    ExecuteEffect(s, cfg, e, key, nowMs);
  }

  lemma SessionNameIsDedicated(session: string)
    requires 0 < |session| <= 128 && forall i :: 0 <= i < |session| ==> SessionByte(session[i])
    ensures IsDedicatedTaskSpace(DEDICATED_PREFIX + session)
  {
    Utf8OfAscii(DEDICATED_PREFIX + session);
  }

  /** A Bridge with one binding permit issued, whose lease renewal then fails. */
  function GraceExample(session: string): (Config, State) {
    var cfg := Config("b", DEDICATED_PREFIX + session, 1, None, 1, None);
    var permit := Permit("b", 1, "r", 1, 20_000, MAX_PAYLOAD_BYTES, MAX_SCRIPT_BYTES, cfg.defaultTaskSpace, 1, None,
                         Binding, None, None);
    var s := InitialState(1, 0, Sequences.Storage(None, None));
    (cfg, s.(nextSequence := 1, permits := map[1 := IssuedPermit(permit, "k")],
             lease := s.lease.(health := RenewalGrace, graceUntil := Some(11))))
  }

  lemma GraceExampleIsReached(session: string)
    ensures var x := GraceExample(session);
      var issue := DoIssue(PermitRequest(true, None, 1, 1, "x", Binding, None, None), 0, 0, "r", "k");
      x.1 == Run(InitialState(1, 0, Sequences.Storage(None, None)), x.0, [issue, DoRenewalFailed(1, 10)])
  {
    var cfg, s0 := GraceExample(session).0, InitialState(1, 0, Sequences.Storage(None, None));
    var issue := DoIssue(PermitRequest(true, None, 1, 1, "x", Binding, None, None), 0, 0, "r", "k");
    var failed := DoRenewalFailed(1, 10);
    Utf8OfAscii("x");
    var s1 := Step(s0, cfg, issue).0;
    assert [issue, failed][1..] == [failed] && [failed][1..] == [];
    assert Run(s0, cfg, [issue, failed]) == Run(s1, cfg, [failed]) == Step(s1, cfg, failed).0;
  }

  /** A permit issued, a renewal failed within grace, and the permit still starts a run. */
  lemma GraceStillRunsAPermit()
    ensures var x := GraceExample("s");
      InGrace(x.1, 11) && SomePermitRuns(x.1, x.0, 1)
  {
    var session := "s";
    var x := GraceExample(session);
    SessionNameIsDedicated(session);
    Utf8OfAscii("b");
    Utf8OfAscii("r");
    assert KeysHeld({}) == {};
    assert Usable(x.1.permits[1], x.0, 1);
    PermitRunsExactlyWhen(x.1, x.0, 1);
  }

  // ---------------------------------------------------------------- relayed requests across process lives

  /** Neither a restart nor a power loss can bring the high-water mark below `floor`. */
  predicate StorageAtLeast(storage: Sequences.Storage, floor: u64) {
    floor <= Sequences.LoadRemoteSequence(storage.visible) && floor <= Sequences.LoadRemoteSequence(storage.durable)
  }

  /** The high-water mark after an event. */
  function Raised(floor: u64, e: Event): u64 {
    if e.RelayRun? then e.sequence else floor
  }

  lemma ReservationRaisesFloor(highest: u64, storage: Sequences.Storage, sequence: u64, fate: Sequences.Fate,
                               floor: u64)
    requires StorageAtLeast(storage, floor) && floor <= highest
    ensures var r := Sequences.Reserve(highest, storage, sequence, fate);
      && StorageAtLeast(r.1, floor) && floor <= r.0
      && (r.2.Pass? ==> StorageAtLeast(r.1, sequence) && sequence == r.0 > floor)
  {}

  lemma StepRaisesFloor(s: State, cfg: Config, c: Command, floor: u64)
    requires StorageAtLeast(s.storage, floor) && floor <= s.highest
    ensures var x := Step(s, cfg, c);
      && StorageAtLeast(x.0.storage, Raised(floor, x.1)) && Raised(floor, x.1) <= x.0.highest
      && (x.1.RelayRun? ==> x.1.sequence > floor)
  {
    match c {
      case DoExecute(e, key, nowMs) => RedeemKeepsRest(s, e, key, nowMs); ExecuteEffect(s, cfg, e, key, nowMs);
      case DoPrepare(e, now, fate, chance) => ReservationRaisesFloor(s.highest, s.storage, e.sequence, fate, floor);
      case DoIssue(_, _, _, _, _) =>
      case DoCancelRemote(_, _) =>
      case _ =>
    }
  }

  /** The sequences of the relayed requests that started. */
  function Relayed(events: seq<Event>): seq<u64> {
    if events == [] then []
    else (if events[0].RelayRun? then [events[0].sequence] else []) + Relayed(events[1..])
  }

  /** Strictly increasing and entirely above `floor`. */
  predicate Ascends(floor: u64, q: seq<u64>)
    decreases |q|
  {
    q != [] ==> floor < q[0] && Ascends(q[0], q[1..])
  }

  function Last(floor: u64, q: seq<u64>): u64 {
    if q == [] then floor else q[|q| - 1]
  }

  lemma {:induction false} LifeAscends(s: State, cfg: Config, commands: seq<Command>, floor: u64)
    requires StorageAtLeast(s.storage, floor) && floor <= s.highest
    ensures var q := Relayed(Events(s, cfg, commands));
      Ascends(floor, q) && StorageAtLeast(Run(s, cfg, commands).storage, Last(floor, q))
    decreases |commands|
  {
    if commands != [] {
      var x := Step(s, cfg, commands[0]);
      StepRaisesFloor(s, cfg, commands[0], floor);
      var rest := Events(x.0, cfg, commands[1..]);
      LifeAscends(x.0, cfg, commands[1..], Raised(floor, x.1));
      assert ([x.1] + rest)[1..] == rest;
      if x.1.RelayRun? { assert ([x.1.sequence] + Relayed(rest))[1..] == Relayed(rest); }
      else { assert Relayed([x.1] + rest) == Relayed(rest); }
    }
  }

  /** One process: how it starts, what it is asked, and how its end leaves the ledger. */
  datatype Life = Life(generation: u64, now: u64, commands: seq<Command>, powerLost: bool)

  function LifeState(life: Life, storage: Sequences.Storage): State {
    InitialState(life.generation, life.now, storage)
  }

  function StorageAfter(life: Life, cfg: Config, storage: Sequences.Storage): Sequences.Storage {
    var end := Run(LifeState(life, storage), cfg, life.commands).storage;
    if life.powerLost then Sequences.Storage(end.durable, end.durable) else end
  }

  function RelayedByLives(lives: seq<Life>, cfg: Config, storage: Sequences.Storage): seq<u64>
    decreases |lives|
  {
    if lives == [] then []
    else Relayed(Events(LifeState(lives[0], storage), cfg, lives[0].commands))
         + RelayedByLives(lives[1..], cfg, StorageAfter(lives[0], cfg, storage))
  }

  lemma {:induction false} AscendsAppend(floor: u64, a: seq<u64>, b: seq<u64>)
    requires Ascends(floor, a) && Ascends(Last(floor, a), b)
    ensures Ascends(floor, a + b)
    decreases |a|
  {
    if a == [] {
      assert a + b == b;
    } else {
      assert (a + b)[1..] == a[1..] + b;
      AscendsAppend(a[0], a[1..], b);
    }
  }

  /** No relayed request starts twice, in one process or across any restarts and power losses. */
  lemma {:induction false} NoReplayAcrossRestarts(lives: seq<Life>, cfg: Config, storage: Sequences.Storage, floor: u64)
    requires StorageAtLeast(storage, floor)
    ensures Ascends(floor, RelayedByLives(lives, cfg, storage))
    decreases |lives|
  {
    if lives != [] {
      var s := LifeState(lives[0], storage);
      LifeAscends(s, cfg, lives[0].commands, floor);
      var q := Relayed(Events(s, cfg, lives[0].commands));
      var next := StorageAfter(lives[0], cfg, storage);
      NoReplayAcrossRestarts(lives[1..], cfg, next, Last(floor, q));
      AscendsAppend(floor, q, RelayedByLives(lives[1..], cfg, next));
    }
  }
}
