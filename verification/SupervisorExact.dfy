/**
  What the Bridge supervisor admits, runs, answers and refuses, exactly, in terms of
  its state and the request alone (crates/local-bridge/src/supervisor_remote.rs,
  supervisor_control.rs, supervisor_execution.rs; crates/protocol/src/lease.rs, types.rs).
 */
module SupervisionExact {
  import opened Wrappers
  import opened ProtocolText
  import opened Scheduling
  import opened Leases
  import opened BridgeProtocol
  import opened Supervision
  import opened SupervisionRuns
  import Sequences = SequenceLedger

  // ---------------------------------------------------------------- the lease

  /** Twenty seconds of a healthy, unrevoked lease are left. */
  predicate LeaseAdmits(l: Lease, now: u64) {
    !l.revoked && l.health.Healthy? && now < l.absoluteTtlUntil && now + 20 <= l.leaseUntil
  }

  predicate LeaseOver(l: Lease, now: u64) {
    !l.revoked && (l.absoluteTtlUntil <= now || l.leaseUntil <= now)
  }

  lemma AdmitsExactlyWhen(l: Lease, now: u64)
    ensures l.Admit(now) == Allowed <==> LeaseAdmits(l, now)
    ensures l.Admit(now) == BindingRevoked <==> l.revoked
    ensures l.Admit(now) == AdmissionExpired <==> LeaseOver(l, now)
    ensures l.Admit(now) == RenewalRequired <==> !l.revoked && !LeaseOver(l, now) && !LeaseAdmits(l, now)
  {}

  /** A fresh lease admits for its first forty seconds and renews for eight hours. */
  lemma NewLeaseAdmits(generation: u64, now: u64, later: u64)
    requires now + 28_800 <= U64_MAX
    ensures var l := NewLease(generation, now);
      && l.generation == generation && l.Bounded()
      && (l.Admit(later) == Allowed <==> later <= now + 40)
      && (l.Renew(generation, later).1.Renewed? <==> later < now + 28_800)
  {}

  /** A granted renewal restores admission exactly up to the new times. */
  lemma RenewalRestores(s: State, generation: u64, until: u64, ttl: u64, later: u64)
    ensures var x := UpdateLease(s, generation, until, ttl, true);
      && (x.1.Pass? <==> generation > 0 && until > 0 && until <= ttl && generation == s.lease.generation)
      && (x.1.Fail? ==> x.0 == s)
      && (x.1.Fail? ==> x.1 == Fail(if generation > 0 && 0 < until <= ttl then Revoked else ProtocolViolation))
      && (x.1.Pass? ==>
            && x.0 == s.(lease := Lease(s.lease.generation, s.lease.activatedAt, until, ttl, Healthy, None,
                                      s.lease.revoked))
            && (x.0.lease.Admit(later) == Allowed <==> !s.lease.revoked && later < ttl && later + 20 <= until))
  {}

  /** An unhealthy report keeps the deadline that is set and admits nothing. */
  lemma UnhealthyReportAdmitsNothing(s: State, generation: u64, until: u64, ttl: u64, later: u64)
    ensures var x := UpdateLease(s, generation, until, ttl, false);
      && x.1 == UpdateLease(s, generation, until, ttl, true).1
      && (x.1.Pass? ==>
            && x.0 == s.(lease := x.0.lease)
            && x.0.lease.leaseUntil == until && x.0.lease.absoluteTtlUntil == ttl
            && x.0.lease.graceUntil == s.lease.graceUntil && x.0.lease.revoked == s.lease.revoked
            && x.0.lease.Admit(later) != Allowed)
  {}

  /** A larger generation starts afresh; anything else changes nothing. */
  lemma ActivationStartsAfresh(s: State, generation: u64, now: u64, later: u64)
    requires now + 28_800 <= U64_MAX
    ensures var x := Activate(s, generation, now);
      && (x.1.Pass? <==> generation > s.lease.generation)
      && (x.1.Fail? ==> x.0 == s)
      && (x.1.Pass? ==>
            && x.0 == s.(lease := x.0.lease, permits := map[], consumed := {}, cancelled := false)
            && x.0.lease.generation == generation
            && (x.0.lease.Admit(later) == Allowed <==> later <= now + 40))
  {}

  /** A reconnect lifts a cancellation exactly while the lease runs. */
  lemma ResumesExactlyWhen(s: State, now: u64)
    ensures var x := Resume(s, now);
      && (x.1.Pass? <==> !s.lease.revoked && now < s.lease.absoluteTtlUntil && now < s.lease.leaseUntil)
      && (x.1.Fail? ==> x.1 == Fail(if s.lease.revoked then Revoked else LeaseExpired))
      && x.0 == if x.1.Pass? then s.(cancelled := false) else s
  {}

  /** A failed renewal revokes exactly at the end of the binding or of the grace interval it runs in. */
  lemma FailureRevokesExactlyWhen(s: State, now: u64, grace: u64)
    requires LeaseSound(s) && now < U64_MAX
    ensures var x := RenewalFailed(s, now, grace);
      && (x.0.lease.revoked <==>
            || s.lease.revoked
            || (grace > 0 && (now >= s.lease.absoluteTtlUntil
                              || (s.lease.health.RenewalGrace? && now >= s.lease.graceUntil.value))))
      && (x.1.Pass? <==> grace > 0 && !x.0.lease.revoked)
      && (x.0.lease.revoked && !s.lease.revoked ==> x.0.cancelled && x.1 == Fail(LeaseExpired))
      && (grace == 0 ==> x == (s, Fail(ProtocolViolation)))
      && (grace > 0 && s.lease.revoked ==> x == (s, Fail(Revoked)))
      && (x.1.Pass? ==>
            && x.0 == s.(lease := x.0.lease) && x.0.lease.health.RenewalGrace?
            && x.0.lease.leaseUntil == s.lease.leaseUntil && x.0.lease.absoluteTtlUntil == s.lease.absoluteTtlUntil
            && x.0.lease.graceUntil.Some?
            && x.0.lease.graceUntil.value ==
               (if s.lease.health.RenewalGrace? then s.lease.graceUntil.value
                else if now + grace > U64_MAX then U64_MAX else now + grace))
  {}

  // ---------------------------------------------------------------- scopes and requests

  predicate PlainScope(text: Option<string>) {
    text.Some? && Trim(text.value) != "" && Utf8Len(Trim(text.value)) <= 256 && Printable(Trim(text.value))
    && '*' !in Trim(text.value)
  }

  /** The scope names one Task Space, or one tab in it; anything else locks the whole binding. */
  predicate Narrow(mode: Mode, taskSpace: Option<string>, tab: Option<string>) {
    !mode.Binding? && PlainScope(taskSpace) && (mode.TaskSpaceTab? ==> PlainScope(tab))
  }

  function TabOf(tab: Option<string>): Option<string> {
    if tab.Some? && Trim(tab.value) != "" then Some(Trim(tab.value)) else None
  }

  lemma NormalizesExactly(mode: Mode, taskSpace: Option<string>, tab: Option<string>)
    ensures Normalized(mode, taskSpace, tab) ==
      if Narrow(mode, taskSpace, tab) then RequestScope(mode, Some(Trim(taskSpace.value)), TabOf(tab))
      else RequestScope(Binding, None, None)
  {}

  /** A sealed request this Bridge may run. */
  predicate Acceptable(r: InnerRequest, cfg: Config) {
    && r.wellTyped && 1 <= r.scriptBytes <= 1_048_576 && 1 <= r.timeoutMs <= 120_000
    && r.cwdLabel != "" && Utf8Len(r.cwdLabel) <= 128 && Printable(r.cwdLabel) && !ContainsDots(r.cwdLabel)
    && r.defaultTaskSpace == cfg.defaultTaskSpace && IsDedicatedTaskSpace(cfg.defaultTaskSpace)
    && r.allowlistRevision == cfg.allowlistRevision && r.learningDigest == cfg.learningDigest
    && (!r.mode.Binding? ==> r.taskSpaceScope == Some(cfg.defaultTaskSpace))
    && (r.mode.TaskSpaceTab? ==>
          && r.tabScope.Some? && r.tabScope.value != "" && Utf8Len(r.tabScope.value) <= 256
          && Printable(r.tabScope.value) && '*' !in r.tabScope.value)
  }

  lemma AcceptsExactlyWhen(e: Envelope, cfg: Config)
    ensures RemoteRequestMatches(cfg, e) <==> e.inner.Some? && Acceptable(e.inner.value, cfg)
  {
    if IsDedicatedTaskSpace(cfg.defaultTaskSpace) { DedicatedIsPlain(cfg.defaultTaskSpace); }
  }

  // ---------------------------------------------------------------- relayed requests

  predicate RelayFormed(e: Envelope) {
    e.wellFormed && e.keyWrap.Wrap? && e.messageType.Execute? && e.isRequest
  }

  /** The envelope reaches this binding in its current, uncancelled generation. */
  predicate RelayCurrent(s: State, cfg: Config, e: Envelope) {
    RelayFormed(e) && !s.cancelled && e.bindingId == cfg.bindingId && e.generation == s.lease.generation
  }

  predicate RelayAdmitted(s: State, cfg: Config, e: Envelope, now: u64) {
    RelayCurrent(s, cfg, e) && LeaseAdmits(s.lease, now)
  }

  /** Its sequence is above the mark and has been made durable. */
  predicate RelayReserved(s: State, cfg: Config, e: Envelope, now: u64, fate: Sequences.Fate) {
    RelayAdmitted(s, cfg, e, now) && e.sequence > s.highest && fate.Written?
  }

  predicate RelayOpened(s: State, cfg: Config, e: Envelope, now: u64, fate: Sequences.Fate) {
    RelayReserved(s, cfg, e, now, fate) && e.keyWrap.opens == Some(e.sealedKey)
  }

  predicate RelayAccepted(s: State, cfg: Config, e: Envelope, now: u64, fate: Sequences.Fate) {
    RelayOpened(s, cfg, e, now, fate) && e.inner.Some? && Acceptable(e.inner.value, cfg)
  }

  predicate Idle(s: State, cfg: Config) {
    s.live == {} && cfg.maxParallel > 0
  }

  /** With guards confined to one Task Space the scheduler admits a confined scope exactly when it is idle. */
  lemma ConfinedAdmittedExactlyWhen(s: State, cfg: Config, generation: u64, requestId: string, scope: RequestScope)
    requires GuardsSound(s, cfg) && Within(scope, cfg.defaultTaskSpace)
    ensures Acquire(s.book, cfg.maxParallel, generation, requestId, scope).Ok? <==> Idle(s, cfg)
  {
    var r := Acquire(s.book, cfg.maxParallel, generation, requestId, scope);
    AcquireRefines(s.book, cfg.maxParallel, s.live, generation, requestId, scope);
    if r.Ok? {
      var guard := GuardFor(generation, requestId, scope);
      GuardForWithin(generation, requestId, scope, cfg.defaultTaskSpace);
      ConfinedGuardsAreAlone(r.value, cfg.maxParallel, s.live + {guard}, cfg.defaultTaskSpace);
      assert |s.live + {guard}| == |s.live| + 1;
    }
  }

  lemma AcceptedAdmittedExactlyWhen(s: State, cfg: Config, e: Envelope)
    requires GuardsSound(s, cfg) && RemoteRequestMatches(cfg, e)
    ensures Acquire(s.book, cfg.maxParallel, e.generation, e.requestId, ScopeOf(e.inner.value)).Ok? <==> Idle(s, cfg)
  {
    AcceptedScopeIsConfined(e.inner.value, cfg);
    ConfinedAdmittedExactlyWhen(s, cfg, e.generation, e.requestId, ScopeOf(e.inner.value));
  }

  /** Every refusal before the sealed request is looked at. */
  lemma RelayRefusals(s: State, cfg: Config, e: Envelope, now: u64, fate: Sequences.Fate, chance: Chance)
    requires Inv(s, cfg)
    ensures var r := PrepareRemote(s, cfg, e, now, fate, chance).1;
      && (!RelayFormed(e) ==> r == Err(ProtocolViolation))
      && (RelayFormed(e) && s.cancelled ==> r == Err(Revoked))
      && (RelayFormed(e) && !s.cancelled && e.bindingId != cfg.bindingId ==> r == Err(ProtocolViolation))
      && (RelayFormed(e) && !s.cancelled && e.bindingId == cfg.bindingId && e.generation != s.lease.generation ==>
            r == Err(Revoked))
      && (RelayCurrent(s, cfg, e) && LeaseOver(s.lease, now) ==> r == Err(LeaseExpired))
      && (RelayCurrent(s, cfg, e) && !LeaseOver(s.lease, now) && !LeaseAdmits(s.lease, now) ==>
            r == Err(LeaseRenewalRequired))
      && (RelayAdmitted(s, cfg, e, now) && e.sequence <= s.highest ==> r == Err(Replayed))
      && (RelayAdmitted(s, cfg, e, now) && e.sequence > s.highest && !fate.Written? ==> r == Err(LedgerFailed))
      && (RelayReserved(s, cfg, e, now, fate) && e.keyWrap.opens != Some(e.sealedKey) ==>
            r == Err(AuthenticationFailed))
  {
    AdmitsExactlyWhen(s.lease, now);
  }

  /** Every answer to a request that could be opened. */
  lemma RelayAnswers(s: State, cfg: Config, e: Envelope, now: u64, fate: Sequences.Fate, chance: Chance)
    requires Inv(s, cfg) && RelayOpened(s, cfg, e, now, fate)
    ensures var r := PrepareRemote(s, cfg, e, now, fate, chance).1;
      var accepted := e.inner.Some? && Acceptable(e.inner.value, cfg);
      && (accepted && Idle(s, cfg) && !chance.cancelled ==> r.Ok? && r.value.Running?)
      && (!accepted ==> r == if chance.seals then Ok(Answered(ProtocolRefused)) else Err(ProtocolViolation))
      && (accepted && !Idle(s, cfg) ==>
            r == if chance.seals then Ok(Answered(ConcurrencyRefused)) else Err(ProtocolViolation))
      && (accepted && Idle(s, cfg) && chance.cancelled ==>
            r == if chance.seals then Ok(Answered(RevokedMeanwhile)) else Err(ProtocolViolation))
  {
    AdmitsExactlyWhen(s.lease, now);
    AcceptsExactlyWhen(e, cfg);
    assert RequestKey(e.bindingId, e.generation, e.requestId, e.sequence) !in s.active;
    if RemoteRequestMatches(cfg, e) { AcceptedAdmittedExactlyWhen(s, cfg, e); }
  }

  /**
    A relayed request runs exactly when it is admitted, its sequence is new and durable,
    its key opens it, what it asks is acceptable, nothing cancels in between and nothing
    else runs.
   */
  lemma RelayRunsExactlyWhen(s: State, cfg: Config, e: Envelope, now: u64, fate: Sequences.Fate, chance: Chance)
    requires Inv(s, cfg)
    ensures var r := PrepareRemote(s, cfg, e, now, fate, chance).1;
      (r.Ok? && r.value.Running?) <==> RelayAccepted(s, cfg, e, now, fate) && !chance.cancelled && Idle(s, cfg)
  {
    RelayRefusals(s, cfg, e, now, fate, chance);
    if RelayOpened(s, cfg, e, now, fate) { RelayAnswers(s, cfg, e, now, fate, chance); }
    if s.lease.revoked { assert s.cancelled; }
  }

  /** What a preparation leaves behind: the reservation, the one run, or nothing. */
  lemma RelayLeaves(s: State, cfg: Config, e: Envelope, now: u64, fate: Sequences.Fate, chance: Chance)
    requires Inv(s, cfg)
    ensures var x := PrepareRemote(s, cfg, e, now, fate, chance);
      var k := RequestKey(e.bindingId, e.generation, e.requestId, e.sequence);
      && x.0.lease == s.lease && x.0.permits == s.permits && x.0.consumed == s.consumed
      && x.0.highest == (if RelayReserved(s, cfg, e, now, fate) then e.sequence else s.highest)
      && (if x.1.Ok? && x.1.value.Running?
          then x.0.live == {x.1.value.guard} && x.0.active == s.active[k := ActiveRequest(false, e.sealedKey)]
          else x.0.live == s.live && x.0.book == s.book && x.0.active == s.active)
  {
    PrepareEffect(s, cfg, e, now, fate, chance);
    AdmitsExactlyWhen(s.lease, now);
    RelayRunsExactlyWhen(s, cfg, e, now, fate, chance);
  }

  /** A Bridge for one session, just started, and a first request for it in the given mode. */
  function ExampleConfig(session: string): Config {
    Config("b", DEDICATED_PREFIX + session, 1, None, 1, None)
  }

  function ExampleState(): State {
    InitialState(1, 0, Sequences.Storage(None, None))
  }

  function ExampleRequest(cfg: Config, mode: Mode, name: string): Envelope {
    Envelope(true, Execute, true, "b", 1, 1, "r", 0, Wrap(Some("k")), "k",
             Some(InnerRequest(true, 1, 1, name, cfg.defaultTaskSpace, mode,
                               Some(cfg.defaultTaskSpace), Some(name), 1, None)))
  }

  lemma ExampleIsAccepted(mode: Mode, session: string, name: string)
    requires 0 < |session| <= 128 && forall i :: 0 <= i < |session| ==> SessionByte(session[i])
    requires 0 < |name| <= 128 && forall i :: 0 <= i < |name| ==> 'a' <= name[i] <= 'z'
    ensures var cfg := ExampleConfig(session);
      && Acceptable(ExampleRequest(cfg, mode, name).inner.value, cfg)
      && RelayAccepted(ExampleState(), cfg, ExampleRequest(cfg, mode, name), 0, Sequences.Written)
  {
    SessionNameIsDedicated(session);
    Utf8OfAscii(name);
  }

  /** In each of the three modes a first request runs. */
  lemma EveryModeRuns(mode: Mode, session: string, name: string)
    requires 0 < |session| <= 128 && forall i :: 0 <= i < |session| ==> SessionByte(session[i])
    requires 0 < |name| <= 128 && forall i :: 0 <= i < |name| ==> 'a' <= name[i] <= 'z'
    ensures var cfg := ExampleConfig(session);
      var e := ExampleRequest(cfg, mode, name);
      var r := PrepareRemote(ExampleState(), cfg, e, 0, Sequences.Written, Chance(false, true)).1;
      r.Ok? && r.value.Running?
  {
    var cfg := ExampleConfig(session);
    ExampleIsAccepted(mode, session, name);
    InitialInv(cfg, 1, 0, Sequences.Storage(None, None));
    var e := ExampleRequest(cfg, mode, name);
    RelayRunsExactlyWhen(ExampleState(), cfg, e, 0, Sequences.Written, Chance(false, true));
  }

  // ---------------------------------------------------------------- cancelling one request

  predicate CancelFormed(s: State, cfg: Config, e: Envelope) {
    && e.wellFormed && e.messageType.Cancel? && e.isRequest && e.keyWrap.NoWrap? && e.bindingId == cfg.bindingId
    && e.generation == s.lease.generation && !s.lease.revoked
  }

  /** A cancel marks exactly the entry it addresses, and only with that request's session key. */
  lemma CancelMarksExactlyWhen(s: State, cfg: Config, e: Envelope, repeats: bool)
    ensures var x := CancelRemote(s, cfg, e, repeats);
      var k := RequestKey(e.bindingId, e.generation, e.requestId, e.sequence);
      && (x.1 == Ok(true) <==>
            CancelFormed(s, cfg, e) && k in s.active && s.active[k].sessionKey == e.sealedKey && repeats)
      && (x.1 == Ok(false) <==> CancelFormed(s, cfg, e) && k !in s.active)
      && (x.1 == Err(AuthenticationFailed) <==>
            CancelFormed(s, cfg, e) && k in s.active && s.active[k].sessionKey != e.sealedKey)
      && (x.1 == Ok(true) ==> x.0 == s.(active := s.active[k := ActiveRequest(true, s.active[k].sessionKey)]))
      && (x.1 != Ok(true) ==> x.0 == s)
  {}

  // ---------------------------------------------------------------- permits

  /** What the caller of `issue_permit` must give. */
  predicate AskedProperly(r: PermitRequest, cfg: Config) {
    && r.wellTyped && 1 <= r.scriptBytes <= 1_048_576 && 1 <= r.timeoutMs <= 120_000
    && r.cwdLabel != "" && Utf8Len(r.cwdLabel) <= 128 && !ContainsDots(r.cwdLabel)
    && (match cfg.startupNonce
        case None => r.startupNonce.None?
        case Some(nonce) => r.startupNonce == Some(nonce) || (r.startupNonce.None? && nonce == ""))
  }

  /** The permit that a request for this scope gets. */
  function PermitAsked(s: State, cfg: Config, r: PermitRequest, nowMs: u64, requestId: string): Permit
    requires s.nextSequence < U64_MAX
  {
    var narrow := Narrow(r.mode, r.taskSpaceScope, r.tabScope);
    Permit(cfg.bindingId, s.lease.generation, requestId, s.nextSequence + 1,
           if nowMs + 20_000 > U64_MAX then U64_MAX else nowMs + 20_000,
           16 * 1_048_576, 1_048_576, cfg.defaultTaskSpace, cfg.allowlistRevision, cfg.learningDigest,
           if narrow then r.mode else Binding, if narrow then Some(Trim(r.taskSpaceScope.value)) else None,
           if narrow then TabOf(r.tabScope) else None)
  }

  /** A permit is issued exactly in a healthy, uncancelled lease for a scope within the dedicated Task Space. */
  lemma IssuesExactlyWhen(s: State, cfg: Config, r: PermitRequest, now: u64, nowMs: u64, requestId: string, key: Key)
    ensures var x := Issue(s, cfg, r, now, nowMs, requestId, key);
      && (x.1.Ok? <==>
            && AskedProperly(r, cfg) && !s.cancelled && LeaseAdmits(s.lease, now) && s.nextSequence < U64_MAX
            && (Narrow(r.mode, r.taskSpaceScope, r.tabScope) ==> Trim(r.taskSpaceScope.value) == cfg.defaultTaskSpace))
      && (x.1.Ok? ==>
            && x.1.value == IssuedPermit(PermitAsked(s, cfg, r, nowMs, requestId), key)
            && x.0 == s.(nextSequence := s.nextSequence + 1, permits := s.permits[s.nextSequence + 1 := x.1.value]))
      && (x.1.Err? ==> x.0 == s.(nextSequence := x.0.nextSequence))
  {
    AdmitsExactlyWhen(s.lease, now);
    NormalizesExactly(r.mode, r.taskSpaceScope, r.tabScope);
  }

  /** Every refusal to issue a permit, in order; only a refused scope spends a sequence. */
  lemma IssueRefusals(s: State, cfg: Config, r: PermitRequest, now: u64, nowMs: u64, requestId: string, key: Key)
    ensures var x := Issue(s, cfg, r, now, nowMs, requestId, key);
      var open := AskedProperly(r, cfg) && !s.cancelled && !s.lease.revoked;
      && (!AskedProperly(r, cfg) ==> x == (s, Err(ProtocolViolation)))
      && (AskedProperly(r, cfg) && !open ==> x == (s, Err(Revoked)))
      && (open && LeaseOver(s.lease, now) ==> x == (s, Err(LeaseExpired)))
      && (open && !LeaseOver(s.lease, now) && !LeaseAdmits(s.lease, now) ==> x == (s, Err(LeaseRenewalRequired)))
      && (open && LeaseAdmits(s.lease, now) && s.nextSequence == U64_MAX ==> x == (s, Err(ProtocolViolation)))
      && (open && LeaseAdmits(s.lease, now) && s.nextSequence < U64_MAX && x.1.Err? ==>
            x == (s.(nextSequence := s.nextSequence + 1), Err(ProtocolViolation)))
  {
    AdmitsExactlyWhen(s.lease, now);
  }

  /** A permit as this Bridge issues them. */
  predicate Standard(p: Permit, cfg: Config, q: u64) {
    && ValidTextId(p.bindingId, 128) && ValidTextId(p.requestId, 128) && p.bindingId == cfg.bindingId
    && p.generation > 0 && p.sequence == q > 0
    && p.maxPayloadBytes == 16 * 1_048_576 && p.maxScriptBytes == 1_048_576
    && p.defaultTaskSpace == cfg.defaultTaskSpace && IsDedicatedTaskSpace(cfg.defaultTaskSpace)
    && p.allowlistRevision == cfg.allowlistRevision && p.learningDigest == cfg.learningDigest
    && (if p.mode.Binding? then p.taskSpaceScope.None? && p.tabScope.None?
        else
          && p.taskSpaceScope == Some(cfg.defaultTaskSpace) && p.tabScope == TabOf(p.tabScope)
          && (p.mode.TaskSpaceTab? ==> PlainScope(p.tabScope)))
  }

  lemma IssuedIsStandard(s: State, cfg: Config, r: PermitRequest, now: u64, nowMs: u64, requestId: string, key: Key)
    requires Configured(cfg, requestId) && s.lease.generation > 0
    ensures var x := Issue(s, cfg, r, now, nowMs, requestId, key);
      x.1.Ok? ==> Standard(x.1.value.permit, cfg, s.nextSequence + 1)
  {
    IssuesExactlyWhen(s, cfg, r, now, nowMs, requestId, key);
    if r.taskSpaceScope.Some? { TrimIsIdempotent(r.taskSpaceScope.value); }
    if r.tabScope.Some? { TrimIsIdempotent(r.tabScope.value); }
  }

  /** Which permits pass their own check, whoever made them. */
  lemma ValidatesExactlyWhen(p: Permit, cfg: Config, nowMs: u64, scriptBytes: nat)
    ensures PermitValid(p, cfg, nowMs, scriptBytes) <==>
      && ValidTextId(p.bindingId, 128) && ValidTextId(p.requestId, 128) && p.generation > 0 && p.sequence > 0
      && nowMs < p.expiresAtMs && 1 <= p.maxPayloadBytes <= 16_777_216
      && 1 <= p.maxScriptBytes <= 1_048_576 && scriptBytes <= p.maxScriptBytes
      && IsDedicatedTaskSpace(p.defaultTaskSpace)
      && p.allowlistRevision == cfg.allowlistRevision && p.learningDigest == cfg.learningDigest
      && (if p.mode.Binding? then p.taskSpaceScope.None? && p.tabScope.None?
          else
            && p.taskSpaceScope == Some(p.defaultTaskSpace) && p.tabScope == TabOf(p.tabScope)
            && (p.mode.TaskSpaceTab? ==> PlainScope(p.tabScope)))
  {
    NormalizesExactly(p.mode, p.taskSpaceScope, p.tabScope);
    if IsDedicatedTaskSpace(p.defaultTaskSpace) { DedicatedIsPlain(p.defaultTaskSpace); }
    if p.tabScope.Some? { TrimIsIdempotent(p.tabScope.value); }
  }

  /** The envelope and key are those of the permit, and the current generation's. */
  predicate Presents(s: State, e: Envelope, key: Key) {
    && e.wellFormed && e.messageType.Execute? && e.isRequest && !s.cancelled && !s.lease.revoked
    && e.generation == s.lease.generation && e.sequence in s.permits
    && var p := s.permits[e.sequence].permit;
       && p.bindingId == e.bindingId && p.requestId == e.requestId && p.generation == e.generation
       && p.sequence == e.sequence && s.permits[e.sequence].key == key && e.payloadBytes <= p.maxPayloadBytes
  }

  /** The sealed request keeps to the scope of the permit. */
  predicate KeepsScope(r: InnerRequest, p: Permit) {
    r.mode == p.mode && (!r.mode.Binding? ==> TabOf(r.tabScope) == p.tabScope)
  }

  /** A standard permit runs exactly its own request, in time, within its scope, with nothing else running. */
  lemma ExecutesExactlyWhen(s: State, cfg: Config, e: Envelope, key: Key, nowMs: u64)
    requires Inv(s, cfg) && (e.sequence in s.permits ==> Standard(s.permits[e.sequence].permit, cfg, e.sequence))
    ensures BeginExecute(s, cfg, e, key, nowMs).1.Ok? <==>
      && Presents(s, e, key) && nowMs < s.permits[e.sequence].permit.expiresAtMs
      && e.sealedKey == key && e.inner.Some? && Acceptable(e.inner.value, cfg)
      && KeepsScope(e.inner.value, s.permits[e.sequence].permit) && Idle(s, cfg)
  {
    AcceptsExactlyWhen(e, cfg);
    if e.sequence in s.permits && RemoteRequestMatches(cfg, e) {
      AcceptedAdmittedExactlyWhen(s, cfg, e);
      ScopeMatchesExactlyWhen(e.inner.value, s.permits[e.sequence].permit, cfg, e.sequence);
    }
  }

  lemma ScopeMatchesExactlyWhen(r: InnerRequest, p: Permit, cfg: Config, q: u64)
    requires Acceptable(r, cfg) && Standard(p, cfg, q)
    ensures KeepsScope(r, p) <==>
      r.mode == p.mode && ScopeOf(r).taskSpace == p.taskSpaceScope && ScopeOf(r).tab == p.tabScope
    ensures Normalized(p.mode, p.taskSpaceScope, p.tabScope) == RequestScope(p.mode, p.taskSpaceScope, p.tabScope)
  {
    DedicatedIsPlain(cfg.defaultTaskSpace);
    NormalizesExactly(r.mode, r.taskSpaceScope, r.tabScope);
    NormalizesExactly(p.mode, p.taskSpaceScope, p.tabScope);
    if p.tabScope.Some? { TrimIsIdempotent(p.tabScope.value); }
  }

  /** Every refusal to redeem a permit, in order. */
  lemma RedeemRefusals(s: State, e: Envelope, key: Key, nowMs: u64)
    ensures var r := Redeem(s, e, key, nowMs).1;
      var formed := e.wellFormed && e.messageType.Execute? && e.isRequest;
      var current := formed && !s.cancelled && !s.lease.revoked && e.generation == s.lease.generation;
      && (!formed ==> r == Err(ProtocolViolation))
      && (formed && !current ==> r == Err(Revoked))
      && (current && e.sequence !in s.permits ==> r == Err(if e.sequence in s.consumed then Replayed else Revoked))
      && (Presents(s, e, key) ==>
            r == if s.permits[e.sequence].permit.expiresAtMs <= nowMs then Err(LeaseExpired)
                 else Ok(s.permits[e.sequence]))
      && (current && e.sequence in s.permits && !Presents(s, e, key) ==>
            r == Err(ProtocolViolation) || r == Err(FrameTooLarge))
  {}
}
