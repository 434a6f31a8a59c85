/**
  The Bridge supervisor (crates/local-bridge/src/supervisor_control.rs,
  supervisor_remote.rs, supervisor_execution.rs).

  Each public method is one atomic step of the state `View` collects.  The
  functions below specify the steps; the class performs them field by field.
 */
module Supervision {
  import opened Wrappers
  import opened ProtocolText
  import opened Scheduling
  import opened Leases
  import opened BridgeProtocol
  import Sequences = SequenceLedger

  datatype IssuedPermit = IssuedPermit(permit: Permit, key: Key)

  datatype RequestKey = RequestKey(bindingId: string, generation: u64, requestId: string, sequence: u64)

  datatype ActiveRequest = ActiveRequest(cancelled: bool, sessionKey: Key)

  /** `live` are the guards of running executions; the other fields are the supervisor's own. */
  datatype State = State(
    lease: Lease,
    cancelled: bool,
    nextSequence: u64,
    permits: map<u64, IssuedPermit>,
    consumed: set<u64>,
    highest: u64,
    storage: Sequences.Storage,
    active: map<RequestKey, ActiveRequest>,
    book: Ledger,
    live: set<PermitGuard>)

  /** What a step let through to execution or handed out. */
  datatype Event =
    | Nothing
    | PermitIssued(permit: Permit)
    | PermitRun(permit: Permit)
    | RelayRun(generation: u64, sequence: u64)

  function AdmissionError(a: Admission): BridgeError
    requires !a.Allowed?
  {
    match a
    case RenewalRequired => LeaseRenewalRequired
    case AdmissionExpired => LeaseExpired
    case BindingRevoked => Revoked
  }

  function KeyOf(e: Envelope): RequestKey {
    RequestKey(e.bindingId, e.generation, e.requestId, e.sequence)
  }

  // ---------------------------------------------------------------- control steps

  function Revoke(s: State): State {
    s.(lease := s.lease.Revoke(), permits := map[], consumed := {}, cancelled := true)
  }

  function Resume(s: State, now: u64): (State, Outcome<BridgeError>) {
    match s.lease.Admit(now)
    case AdmissionExpired => (s, Fail(LeaseExpired))
    case BindingRevoked => (s, Fail(Revoked))
    case _ => (s.(cancelled := false), Pass)
  }

  function Activate(s: State, generation: u64, now: u64): (State, Outcome<BridgeError>) {
    if generation == 0 || generation <= s.lease.generation then (s, Fail(ProtocolViolation))
    else (s.(lease := NewLease(generation, now), permits := map[], consumed := {}, cancelled := false), Pass)
  }

  function UpdateLease(s: State, generation: u64, leaseUntil: u64, absoluteTtlUntil: u64, healthy: bool)
    : (State, Outcome<BridgeError>)
  {
    if generation == 0 || leaseUntil == 0 || absoluteTtlUntil < leaseUntil then (s, Fail(ProtocolViolation))
    else if generation != s.lease.generation then (s, Fail(Revoked))
    else (s.(lease := s.lease.(leaseUntil := leaseUntil, absoluteTtlUntil := absoluteTtlUntil,
                               health := if healthy then Healthy else RenewalGrace,
                               graceUntil := if healthy then None else s.lease.graceUntil)), Pass)
  }

  /** The grace deadline a failed renewal runs against: the first one, once set. */
  function GraceDeadline(lease: Lease, now: u64, grace: u64): Option<u64> {
    if lease.health.RenewalGrace? then lease.graceUntil else Some(SatAdd(now, grace))
  }

  function RenewalFailed(s: State, now: u64, grace: u64): (State, Outcome<BridgeError>) {
    if grace == 0 then (s, Fail(ProtocolViolation))
    else if s.lease.revoked then (s, Fail(Revoked))
    else
      var deadline := GraceDeadline(s.lease, now, grace);
      if now >= s.lease.absoluteTtlUntil || (deadline.Some? && now >= deadline.value)
      then (s.(lease := s.lease.Revoke(), cancelled := true), Fail(LeaseExpired))
      else (s.(lease := s.lease.(health := RenewalGrace, graceUntil := deadline)), Pass)
  }

  // ---------------------------------------------------------------- permits

  predicate PermitRequestValid(cfg: Config, r: PermitRequest) {
    && r.wellTyped
    && (if cfg.startupNonce.Some? then OrEmpty(r.startupNonce) == cfg.startupNonce.value else r.startupNonce.None?)
    && 0 < r.scriptBytes <= MAX_SCRIPT_BYTES
    && 0 < r.timeoutMs <= MAX_EXECUTE_TIMEOUT_MS
    && r.cwdLabel != "" && Utf8Len(r.cwdLabel) <= 128 && !ContainsDots(r.cwdLabel)
  }

  function PermitFor(s: State, cfg: Config, r: PermitRequest, nowMs: u64, requestId: string, sequence: u64): Permit {
    var scope := Normalized(r.mode, r.taskSpaceScope, r.tabScope);
    Permit(cfg.bindingId, s.lease.generation, requestId, sequence, SatAdd(nowMs, PERMIT_LIFETIME_MS),
           MAX_PAYLOAD_BYTES, MAX_SCRIPT_BYTES, cfg.defaultTaskSpace, cfg.allowlistRevision, cfg.learningDigest,
           scope.mode, scope.taskSpace, scope.tab)
  }

  function Issue(s: State, cfg: Config, r: PermitRequest, now: u64, nowMs: u64, requestId: string, key: Key)
    : (State, Result<IssuedPermit, BridgeError>)
  {
    if !PermitRequestValid(cfg, r) then (s, Err(ProtocolViolation))
    else if s.cancelled then (s, Err(Revoked))
    else if !s.lease.Admit(now).Allowed? then (s, Err(AdmissionError(s.lease.Admit(now))))
    else if s.nextSequence == U64_MAX then (s, Err(ProtocolViolation))
    else
      var sequence := s.nextSequence + 1;
      var scope := Normalized(r.mode, r.taskSpaceScope, r.tabScope);
      if scope.mode != Binding && scope.taskSpace != Some(cfg.defaultTaskSpace)
      then (s.(nextSequence := sequence), Err(ProtocolViolation))
      else
        var issued := IssuedPermit(PermitFor(s, cfg, r, nowMs, requestId, sequence), key);
        (s.(nextSequence := sequence, permits := s.permits[sequence := issued]), Ok(issued))
  }

  /** The envelope and the session key are those the permit was issued for. */
  predicate Redeems(issued: IssuedPermit, e: Envelope, key: Key) {
    && issued.permit.bindingId == e.bindingId && issued.permit.generation == e.generation
    && issued.permit.requestId == e.requestId && issued.permit.sequence == e.sequence
    && issued.key == key
  }

  /** The permit lookup of `execute`: what it consumes, or why it refuses. */
  function Redeem(s: State, e: Envelope, key: Key, nowMs: u64): (State, Result<IssuedPermit, BridgeError>) {
    if !e.wellFormed || e.messageType != Execute || !e.isRequest then (s, Err(ProtocolViolation))
    else if s.cancelled || e.generation != s.lease.generation || s.lease.revoked then (s, Err(Revoked))
    else if e.sequence !in s.permits then (s, Err(if e.sequence in s.consumed then Replayed else Revoked))
    else
      var issued := s.permits[e.sequence];
      if !Redeems(issued, e, key) then (s, Err(ProtocolViolation))
      else if e.payloadBytes > issued.permit.maxPayloadBytes then (s, Err(FrameTooLarge))
      else if issued.permit.expiresAtMs <= nowMs then (s.(permits := s.permits - {e.sequence}), Err(LeaseExpired))
      else (s.(permits := s.permits - {e.sequence}, consumed := s.consumed + {e.sequence}), Ok(issued))
  }

  /** The request sealed in the envelope, once every check on it has passed. */
  predicate PermitRequestMatches(cfg: Config, issued: IssuedPermit, e: Envelope, key: Key, nowMs: u64) {
    && e.sealedKey == key && e.inner.Some?
    && InnerValid(e.inner.value, cfg) && e.inner.value.defaultTaskSpace == cfg.defaultTaskSpace
    && PermitValid(issued.permit, cfg, nowMs, e.inner.value.scriptBytes)
    && e.inner.value.mode == issued.permit.mode
    && ScopeOf(e.inner.value).taskSpace == issued.permit.taskSpaceScope
    && ScopeOf(e.inner.value).tab == issued.permit.tabScope
  }

  /** `execute` up to the point where its process runs under a scheduler guard. */
  function BeginExecute(s: State, cfg: Config, e: Envelope, key: Key, nowMs: u64)
    : (State, Result<PermitGuard, BridgeError>)
  {
    var redeemed := Redeem(s, e, key, nowMs);
    var t := redeemed.0;
    if redeemed.1.Err? then (t, Err(redeemed.1.error))
    else if !PermitRequestMatches(cfg, redeemed.1.value, e, key, nowMs) then (t, Err(ProtocolViolation))
    else
      var scope := ScopeOf(e.inner.value);
      var book := Acquire(t.book, cfg.maxParallel, e.generation, e.requestId, scope);
      if book.Err? then (t, Err(Concurrency))
      else
        var guard := GuardFor(e.generation, e.requestId, scope);
        (t.(book := book.value, live := t.live + {guard}), Ok(guard))
  }

  /** A guard goes when its process has been reaped. */
  function EndExecution(s: State, guard: PermitGuard): State {
    if guard in s.live then s.(book := Release(s.book, guard), live := s.live - {guard}) else s
  }

  // ---------------------------------------------------------------- relayed requests

  datatype Status = ProtocolRefused | ConcurrencyRefused | RevokedMeanwhile

  /** A relayed request that is answered at once, or runs under a guard. */
  datatype Remote = Answered(status: Status) | Running(guard: PermitGuard)

  /** Another task cancels between the first checks and the registration; an immediate answer can be sealed. */
  datatype Chance = Chance(cancelled: bool, seals: bool)

  function Answer(chance: Chance, status: Status): Result<Remote, BridgeError> {
    if chance.seals then Ok(Answered(status)) else Err(ProtocolViolation)
  }

  /** Checks before the sequence is reserved. */
  function AdmitRemote(s: State, cfg: Config, e: Envelope, now: u64): Outcome<BridgeError> {
    if !e.wellFormed || e.keyWrap.NoWrap? || e.messageType != Execute || !e.isRequest then Fail(ProtocolViolation)
    else if s.cancelled then Fail(Revoked)
    else if e.bindingId != cfg.bindingId then Fail(ProtocolViolation)
    else if e.generation != s.lease.generation || s.lease.revoked then Fail(Revoked)
    else if !s.lease.Admit(now).Allowed? then Fail(AdmissionError(s.lease.Admit(now)))
    else Pass
  }

  predicate RemoteRequestMatches(cfg: Config, e: Envelope) {
    e.inner.Some? && InnerValid(e.inner.value, cfg) && e.inner.value.defaultTaskSpace == cfg.defaultTaskSpace
  }

  function PrepareRemote(s: State, cfg: Config, e: Envelope, now: u64, fate: Sequences.Fate, chance: Chance)
    : (State, Result<Remote, BridgeError>)
  {
    var admitted := AdmitRemote(s, cfg, e, now);
    if admitted.Fail? then (s, Err(admitted.error)) else
      var reserved := Sequences.Reserve(s.highest, s.storage, e.sequence, fate);
      var t := s.(highest := reserved.0, storage := reserved.1);
      if reserved.2.Fail? then (t, Err(if reserved.2.error.Replay? then Replayed else LedgerFailed))
      else if !e.keyWrap.Wrap? || e.keyWrap.opens != Some(e.sealedKey) then (t, Err(AuthenticationFailed))
      else if !RemoteRequestMatches(cfg, e) then (t, Answer(chance, ProtocolRefused))
      else
        var scope := ScopeOf(e.inner.value);
        var book := Acquire(t.book, cfg.maxParallel, e.generation, e.requestId, scope);
        if book.Err? then (t, Answer(chance, ConcurrencyRefused))
        else if chance.cancelled then (t.(cancelled := true), Answer(chance, RevokedMeanwhile))
        else if KeyOf(e) in t.active then (t, Err(Replayed))
        else
          var guard := GuardFor(e.generation, e.requestId, scope);
          (t.(book := book.value, live := t.live + {guard},
              active := t.active[KeyOf(e) := ActiveRequest(false, e.sealedKey)]), Ok(Running(guard)))
  }

  /** `inner` of a cancel envelope repeats the identity it targets. */
  function CancelRemote(s: State, cfg: Config, e: Envelope, repeatsIdentity: bool): (State, Result<bool, BridgeError>) {
    if !e.wellFormed || e.messageType != Cancel || !e.isRequest || e.keyWrap.Wrap? || e.bindingId != cfg.bindingId
    then (s, Err(ProtocolViolation))
    else if e.generation != s.lease.generation || s.lease.revoked then (s, Err(Revoked))
    else if KeyOf(e) !in s.active then (s, Ok(false))
    else if s.active[KeyOf(e)].sessionKey != e.sealedKey then (s, Err(AuthenticationFailed))
    else if !repeatsIdentity then (s, Err(ProtocolViolation))
    else (s.(active := s.active[KeyOf(e) := s.active[KeyOf(e)].(cancelled := true)]), Ok(true))
  }

  function FinishRemote(s: State, key: RequestKey): State {
    s.(active := s.active - {key})
  }

  function ClearRemote(s: State): State {
    s.(active := map[])
  }

  // ---------------------------------------------------------------- steps and runs

  /** `DoUpdateLease` reports a healthy renewal, as both callers of that method do. */
  datatype Command =
    | DoIssue(request: PermitRequest, now: u64, nowMs: u64, requestId: string, key: Key)
    | DoExecute(envelope: Envelope, key: Key, nowMs: u64)
    | DoPrepare(envelope: Envelope, now: u64, fate: Sequences.Fate, chance: Chance)
    | DoEnd(guard: PermitGuard)
    | DoCancelRemote(envelope: Envelope, repeatsIdentity: bool)
    | DoFinishRemote(requestKey: RequestKey)
    | DoClearRemote
    | DoUpdateLease(generation: u64, leaseUntil: u64, absoluteTtlUntil: u64)
    | DoRenewalFailed(now: u64, grace: u64)
    | DoRevoke
    | DoCancel
    | DoResume(now: u64)
    | DoActivate(generation: u64, now: u64)

  function Step(s: State, cfg: Config, c: Command): (State, Event) {
    match c
    case DoIssue(r, now, nowMs, requestId, key) =>
      var x := Issue(s, cfg, r, now, nowMs, requestId, key);
      (x.0, if x.1.Ok? then PermitIssued(x.1.value.permit) else Nothing)
    case DoExecute(e, key, nowMs) =>
      var x := BeginExecute(s, cfg, e, key, nowMs);
      (x.0, if x.1.Ok? && e.sequence in s.permits then PermitRun(s.permits[e.sequence].permit) else Nothing)
    case DoPrepare(e, now, fate, chance) =>
      var x := PrepareRemote(s, cfg, e, now, fate, chance);
      (x.0, if x.1.Ok? && x.1.value.Running? then RelayRun(e.generation, e.sequence) else Nothing)
    case DoEnd(guard) => (EndExecution(s, guard), Nothing)
    case DoCancelRemote(e, repeats) => (CancelRemote(s, cfg, e, repeats).0, Nothing)
    case DoFinishRemote(key) => (FinishRemote(s, key), Nothing)
    case DoClearRemote => (ClearRemote(s), Nothing)
    case DoUpdateLease(generation, until, ttl) => (UpdateLease(s, generation, until, ttl, true).0, Nothing)
    case DoRenewalFailed(now, grace) => (RenewalFailed(s, now, grace).0, Nothing)
    case DoRevoke => (Revoke(s), Nothing)
    case DoCancel => (s.(cancelled := true), Nothing)
    case DoResume(now) => (Resume(s, now).0, Nothing)
    case DoActivate(generation, now) => (Activate(s, generation, now).0, Nothing)
  }

  function Run(s: State, cfg: Config, commands: seq<Command>): State
    decreases |commands|
  {
    if commands == [] then s else Run(Step(s, cfg, commands[0]).0, cfg, commands[1..])
  }

  function Events(s: State, cfg: Config, commands: seq<Command>): seq<Event>
    decreases |commands|
  {
    if commands == [] then []
    else [Step(s, cfg, commands[0]).1] + Events(Step(s, cfg, commands[0]).0, cfg, commands[1..])
  }

  function InitialState(generation: u64, now: u64, storage: Sequences.Storage): State {
    State(NewLease(generation, now), false, 0, map[], {}, Sequences.LoadRemoteSequence(storage.visible), storage,
          map[], EMPTY_LEDGER, {})
  }
}
