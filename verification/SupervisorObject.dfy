/** The supervisor object: every method performs one step of `Supervision`. */
module SupervisorObject {
  import opened Wrappers
  import opened ProtocolText
  import opened Scheduling
  import opened Leases
  import opened BridgeProtocol
  import opened Supervision
  import Sequences = SequenceLedger

  class BridgeSupervisor {
    const config: Config
    const scheduler: Scheduler
    const ledger: Sequences.LedgerFile
    var lease: Lease
    var cancelled: bool
    var nextSequence: u64
    var issuedPermits: map<u64, IssuedPermit>
    var consumedSequences: set<u64>
    var activeRemoteRequests: map<RequestKey, ActiveRequest>
    ghost var live: set<PermitGuard>

    ghost function View(): State
      reads this, scheduler, ledger
    {
      State(lease, cancelled, nextSequence, issuedPermits, consumedSequences, ledger.highest, ledger.storage,
            activeRemoteRequests, scheduler.Bookkeeping(), live)
    }

    ghost predicate Valid()
      reads this`live, scheduler
    {
      scheduler.maximum == config.maxParallel && Tracks(scheduler.Bookkeeping(), config.maxParallel, live)
    }

    constructor (config: Config, scheduler: Scheduler, ledger: Sequences.LedgerFile, generation: u64, now: u64)
      requires scheduler.maximum == config.maxParallel && scheduler.Bookkeeping() == EMPTY_LEDGER
      requires ledger.highest == Sequences.LoadRemoteSequence(ledger.storage.visible)
      ensures Valid() && this.config == config && this.scheduler == scheduler && this.ledger == ledger
      ensures View() == InitialState(generation, now, ledger.storage)
    {
      this.config, this.scheduler, this.ledger := config, scheduler, ledger;
      lease, cancelled, nextSequence := NewLease(generation, now), false, 0;
      issuedPermits, consumedSequences, activeRemoteRequests, live := map[], {}, map[], {};
      assert KeysHeld({}) == {};
    }

    method ClearPermits()
      modifies this`issuedPermits, this`consumedSequences
      ensures View() == old(View()).(permits := map[], consumed := {})
    {
      issuedPermits, consumedSequences := map[], {};
    }

    method RevokeBinding()
      modifies this
      ensures View() == Revoke(old(View()))
    {
      lease := lease.Revoke();
      ClearPermits();
      cancelled := true;
    }

    method CancelAll()
      modifies this`cancelled
      ensures View() == old(View()).(cancelled := true)
    {
      cancelled := true;
    }

    method ResumeAfterReconnect(now: u64) returns (o: Outcome<BridgeError>)
      modifies this`cancelled
      ensures (View(), o) == Resume(old(View()), now)
    {
      match lease.Admit(now) {
        case Allowed =>
        case RenewalRequired =>
        case AdmissionExpired => return Fail(LeaseExpired);
        case BindingRevoked => return Fail(Revoked);
      }
      cancelled := false;
      return Pass;
    }

    method ActivateGeneration(generation: u64, now: u64) returns (o: Outcome<BridgeError>)
      modifies this
      ensures (View(), o) == Activate(old(View()), generation, now)
    {
      if generation == 0 { return Fail(ProtocolViolation); }
      if generation <= lease.generation { return Fail(ProtocolViolation); }
      lease := NewLease(generation, now);
      ClearPermits();
      cancelled := false;
      return Pass;
    }

    method RenewLease(generation: u64, leaseUntil: u64, absoluteTtlUntil: u64, healthy: bool)
      returns (o: Outcome<BridgeError>)
      modifies this`lease
      ensures (View(), o) == UpdateLease(old(View()), generation, leaseUntil, absoluteTtlUntil, healthy)
    {
      if generation == 0 || leaseUntil == 0 || absoluteTtlUntil < leaseUntil { return Fail(ProtocolViolation); }
      if generation != lease.generation { return Fail(Revoked); }
      lease := lease.(leaseUntil := leaseUntil);
      lease := lease.(absoluteTtlUntil := absoluteTtlUntil);
      lease := lease.(health := if healthy then Healthy else RenewalGrace);
      if healthy { lease := lease.(graceUntil := None); }
      return Pass;
    }

    method MarkRenewalFailed(now: u64, failureGraceSeconds: u64) returns (o: Outcome<BridgeError>)
      modifies this`lease, this`cancelled
      ensures (View(), o) == RenewalFailed(old(View()), now, failureGraceSeconds)
    {
      if failureGraceSeconds == 0 { return Fail(ProtocolViolation); }
      if lease.revoked { return Fail(Revoked); }
      if now >= lease.absoluteTtlUntil {
        lease := lease.Revoke();
        cancelled := true;
        return Fail(LeaseExpired);
      }
      if !lease.health.RenewalGrace? {
        lease := lease.(health := RenewalGrace, graceUntil := Some(SatAdd(now, failureGraceSeconds)));
      }
      if lease.graceUntil.Some? && now >= lease.graceUntil.value {
        lease := lease.Revoke();
        cancelled := true;
        return Fail(LeaseExpired);
      }
      return Pass;
    }

    method NextSequence() returns (r: Result<u64, BridgeError>)
      modifies this`nextSequence
      ensures if old(nextSequence) == U64_MAX then r == Err(ProtocolViolation) && View() == old(View())
              else r == Ok(old(nextSequence) + 1) && View() == old(View()).(nextSequence := old(nextSequence) + 1)
    {
      if nextSequence == U64_MAX { return Err(ProtocolViolation); }
      nextSequence := nextSequence + 1;
      return Ok(nextSequence);
    }

    method IssuePermit(request: PermitRequest, now: u64, nowMs: u64, requestId: string, key: Key)
      returns (r: Result<IssuedPermit, BridgeError>)
      modifies this`nextSequence, this`issuedPermits
      ensures (View(), r) == Issue(old(View()), config, request, now, nowMs, requestId, key)
    {
      if !PermitRequestValid(config, request) { return Err(ProtocolViolation); }
      if cancelled { return Err(Revoked); }
      var admission := lease.Admit(now);
      if !admission.Allowed? { return Err(AdmissionError(admission)); }
      var sequence :- NextSequence();
      var scope := Normalized(request.mode, request.taskSpaceScope, request.tabScope);
      if scope.mode != Binding && scope.taskSpace != Some(config.defaultTaskSpace) {
        return Err(ProtocolViolation);
      }
      var permit := Permit(config.bindingId, lease.generation, requestId, sequence, SatAdd(nowMs, PERMIT_LIFETIME_MS),
                           MAX_PAYLOAD_BYTES, MAX_SCRIPT_BYTES, config.defaultTaskSpace, config.allowlistRevision,
                           config.learningDigest, scope.mode, scope.taskSpace, scope.tab);
      issuedPermits := issuedPermits[sequence := IssuedPermit(permit, key)];
      return Ok(IssuedPermit(permit, key));
    }

    /** The permit lookup: only a request that matches in every field spends the permit. */
    method RedeemPermit(e: Envelope, key: Key, nowMs: u64) returns (r: Result<IssuedPermit, BridgeError>)
      modifies this`issuedPermits, this`consumedSequences
      ensures (View(), r) == Redeem(old(View()), e, key, nowMs)
    {
      if !e.wellFormed || e.messageType != Execute || !e.isRequest { return Err(ProtocolViolation); }
      if cancelled { return Err(Revoked); }
      if e.generation != lease.generation || lease.revoked { return Err(Revoked); }
      if e.sequence !in issuedPermits {
        return Err(if e.sequence in consumedSequences then Replayed else Revoked);
      }
      var issued := issuedPermits[e.sequence];
      if !Redeems(issued, e, key) { return Err(ProtocolViolation); }
      if e.payloadBytes > issued.permit.maxPayloadBytes { return Err(FrameTooLarge); }
      issuedPermits := issuedPermits - {e.sequence};
      if issued.permit.expiresAtMs <= nowMs { return Err(LeaseExpired); }
      consumedSequences := consumedSequences + {e.sequence};
      return Ok(issued);
    }

    /** `execute` until its process runs; `ReapExecution` is what follows it. */
    method ExecutePermit(e: Envelope, key: Key, nowMs: u64) returns (r: Result<PermitGuard, BridgeError>)
      requires Valid()
      modifies this, scheduler
      ensures Valid() && (View(), r) == BeginExecute(old(View()), config, e, key, nowMs)
    {
      var issued :- RedeemPermit(e, key, nowMs);
      if !PermitRequestMatches(config, issued, e, key, nowMs) { return Err(ProtocolViolation); }
      AcquireRefines(scheduler.Bookkeeping(), config.maxParallel, live, e.generation, e.requestId,
        ScopeOf(e.inner.value));
      var acquired := scheduler.TryAcquire(e.generation, e.requestId, ScopeOf(e.inner.value));
      if acquired.Err? { return Err(Concurrency); }
      live := live + {acquired.value};
      return Ok(acquired.value);
    }

    method ReapExecution(guard: PermitGuard)
      requires Valid() && guard in live
      modifies this`live, scheduler
      ensures Valid() && View() == EndExecution(old(View()), guard)
    {
      ReleaseTracks(scheduler.Bookkeeping(), config.maxParallel, live, guard);
      scheduler.DropGuard(guard);
      live := live - {guard};
    }

    method PrepareRemoteExecution(e: Envelope, now: u64, tries: seq<Sequences.TemporaryFile>, chance: Chance)
      returns (r: Result<Remote, BridgeError>)
      requires Valid() && |tries| >= Sequences.PERSIST_ATTEMPTS
      modifies this, scheduler, ledger
      ensures Valid()
      ensures (View(), r) ==
        PrepareRemote(old(View()), config, e, now, Sequences.FateOf(tries, Sequences.PERSIST_ATTEMPTS), chance)
    {
      if !e.wellFormed || e.keyWrap.NoWrap? { return Err(ProtocolViolation); }
      if e.messageType != Execute || !e.isRequest { return Err(ProtocolViolation); }
      if cancelled { return Err(Revoked); }
      if e.bindingId != config.bindingId { return Err(ProtocolViolation); }
      if e.generation != lease.generation || lease.revoked { return Err(Revoked); }
      var admission := lease.Admit(now);
      if !admission.Allowed? { return Err(AdmissionError(admission)); }
      var reserved := ledger.ReserveRemoteSequence(e.sequence, tries);
      if reserved.Fail? { return Err(if reserved.error.Replay? then Replayed else LedgerFailed); }
      if e.keyWrap.opens != Some(e.sealedKey) { return Err(AuthenticationFailed); }
      if !RemoteRequestMatches(config, e) { return Answer(chance, ProtocolRefused); }
      r := StartRemote(e, chance);
    }

    /** Scheduler admission and registration of an accepted relayed request. */
    method StartRemote(e: Envelope, chance: Chance) returns (r: Result<Remote, BridgeError>)
      requires Valid() && e.inner.Some?
      modifies this, scheduler
      ensures Valid() && ledger.highest == old(ledger.highest) && ledger.storage == old(ledger.storage)
      ensures var t := old(View());
        var scope := ScopeOf(e.inner.value);
        var book := Acquire(t.book, config.maxParallel, e.generation, e.requestId, scope);
        (View(), r) ==
          if book.Err? then (t, Answer(chance, ConcurrencyRefused))
          else if chance.cancelled then (t.(cancelled := true), Answer(chance, RevokedMeanwhile))
          else if KeyOf(e) in t.active then (t, Err(Replayed))
          else (t.(book := book.value, live := t.live + {GuardFor(e.generation, e.requestId, scope)},
                   active := t.active[KeyOf(e) := ActiveRequest(false, e.sealedKey)]),
                Ok(Running(GuardFor(e.generation, e.requestId, scope))))
    {
      ReleaseUndoesAcquire(scheduler.Bookkeeping(), config.maxParallel, live, e.generation, e.requestId,
        ScopeOf(e.inner.value));
      var acquired := scheduler.TryAcquire(e.generation, e.requestId, ScopeOf(e.inner.value));
      if acquired.Err? { return Answer(chance, ConcurrencyRefused); }
      if chance.cancelled { CancelAll(); }
      if chance.cancelled {
        scheduler.DropGuard(acquired.value);
        return Answer(chance, RevokedMeanwhile);
      }
      if KeyOf(e) in activeRemoteRequests {
        scheduler.DropGuard(acquired.value);
        return Err(Replayed);
      }
      live := live + {acquired.value};
      activeRemoteRequests := activeRemoteRequests[KeyOf(e) := ActiveRequest(false, e.sealedKey)];
      return Ok(Running(acquired.value));
    }

    method CancelRemoteRequest(e: Envelope, repeatsIdentity: bool) returns (r: Result<bool, BridgeError>)
      modifies this`activeRemoteRequests
      ensures (View(), r) == CancelRemote(old(View()), config, e, repeatsIdentity)
    {
      if !e.wellFormed || e.messageType != Cancel || !e.isRequest || e.keyWrap.Wrap?
         || e.bindingId != config.bindingId {
        return Err(ProtocolViolation);
      }
      if e.generation != lease.generation || lease.revoked { return Err(Revoked); }
      var key := KeyOf(e);
      if key !in activeRemoteRequests { return Ok(false); }
      var active := activeRemoteRequests[key];
      if active.sessionKey != e.sealedKey { return Err(AuthenticationFailed); }
      if !repeatsIdentity { return Err(ProtocolViolation); }
      activeRemoteRequests := activeRemoteRequests[key := active.(cancelled := true)];
      return Ok(true);
    }

    method FinishRemoteRequest(key: RequestKey)
      modifies this`activeRemoteRequests
      ensures View() == FinishRemote(old(View()), key)
    {
      activeRemoteRequests := activeRemoteRequests - {key};
    }

    method ClearRemoteRequests()
      modifies this`activeRemoteRequests
      ensures View() == ClearRemote(old(View()))
    {
      activeRemoteRequests := map[];
    }
  }
}
