/**
  Device-identity rotation as a crash-recovery protocol
  (crates/device-client/src/registration.rs:464-552 over credential_store.rs).

  `ReportOf` is the specification of one attempt: which disk it leaves behind, what
  it answers and what it sent, for every crash point and every server reply.
  `DeviceRotate` is the imperative command, proved equal to it.
 */
module Rotation {
  import opened Wrappers
  import opened DeviceStore

  datatype Delivery = Unsent | ReplyLost | Delivered

  /** Everything one run of the command takes from outside the disk. */
  datatype Attempt = Attempt(
    budget: nat,
    drawnSigning: string,
    drawnEncryption: string,
    drawnIdempotencyKey: string,
    legacyEncryption: string,
    now: u64,
    delivery: Delivery,
    reply: Reply)

  /** What the control plane sees of a rotation request. */
  datatype Request = Request(signing: string, encryption: string, generation: u64, idempotencyKey: string)

  datatype Report = Report(disk: Disk, outcome: Outcome<StoreError>, request: Option<Request>)

  // ---------------------------------------------------------------- the pending record

  predicate ValidRecord(r: PendingRotation) {
    && r.currentGeneration != 0
    && r.targetGeneration == SatAdd(r.currentGeneration, 1)
    && r.previousCredentialRevision != 0
  }

  function ReadRotation(file: File<PendingRotation>): Result<Option<PendingRotation>, StoreError> {
    var found :- ReadOptional(file);
    if found.Some? && !ValidRecord(found.value) then Err(FileMalformed) else Ok(found)
  }

  function ReadPendingKey(file: File<KeyFile>, scope: Identity, drawn: string): Result<Option<Identity>, StoreError> {
    if file.Missing? then Ok(None) else
      var identity :- LoadIdentity(file, scope.deviceId, scope.releaseProfile, scope.credentialProfile, drawn);
      Ok(Some(identity))
  }

  predicate TargetIs(r: PendingRotation, identity: Identity) {
    && r.targetGeneration == identity.generation
    && r.targetSigning == Sha256(identity.signing)
    && r.targetEncryption == Sha256(identity.encryption)
  }

  predicate SourceIs(r: PendingRotation, identity: Identity) {
    && r.currentGeneration == identity.generation
    && r.oldSigning == Sha256(identity.signing)
    && r.oldEncryption == Sha256(identity.encryption)
  }

  predicate PendingRotationMatches(r: PendingRotation, current: Identity, next: Identity) {
    && r.deviceId == current.deviceId
    && TargetIs(r, next)
    && (SourceIs(r, current) || TargetIs(r, current))
  }

  function RecordFor(current: Identity, next: Identity, revision: u64, a: Attempt): PendingRotation {
    PendingRotation(current.deviceId, current.generation, next.generation, revision,
                    Sha256(current.signing), Sha256(current.encryption),
                    Sha256(next.signing), Sha256(next.encryption), a.drawnIdempotencyKey, a.now)
  }

  // ---------------------------------------------------------------- one attempt, as a function

  /** Whether only the record of a finished rotation is left to clear. */
  function FinishVerdict(d: Disk, current: Identity, previous: Credential, drawn: string): Result<bool, StoreError> {
    var found :- ReadRotation(d.rotation);
    if found.None? then Ok(false) else
      var r := found.value;
      var prepared :- ReadPendingKey(d.pendingKey, current, drawn);
      if prepared.Some? || r.deviceId != current.deviceId || !TargetIs(r, current)
         || previous.revision <= r.previousCredentialRevision
      then Ok(false) else
        var metadata :- Read(d.metadata);
        if metadata != MetadataOf(current, previous.serverUrl) then Err(RotationConflict)
        else match LoadActiveBinding(d.binding, current.deviceId)
          case Ok(_) => Err(RotationConflict)
          case Err(FileMissing) => Ok(true)
          case Err(e) => Err(e)
  }

  datatype Preparation =
    | OnlyRecordLeft
    | Submit(current: Identity, next: Identity, record: PendingRotation, previous: Credential,
             writesKey: bool, writesRecord: bool)

  function NextIdentity(current: Identity, a: Attempt): Result<Identity, StoreError> {
    if current.generation == U64_MAX then Err(RotationConflict)
    else Ok(Identity(current.deviceId, a.drawnSigning, a.drawnEncryption, current.generation + 1,
                     current.releaseProfile, current.credentialProfile, false))
  }

  /** The key a rotation installs next, and whether it is newly drawn. */
  function PreparedIdentity(file: File<KeyFile>, current: Identity, a: Attempt): Result<(Identity, bool), StoreError> {
    var prepared :- ReadPendingKey(file, current, a.legacyEncryption);
    match prepared
    case Some(pending) =>
      if SameKeys(pending, current) || (current.generation < U64_MAX && pending.generation == current.generation + 1)
      then Ok((pending, false)) else Err(RotationConflict)
    case None =>
      var next :- NextIdentity(current, a);
      Ok((next, true))
  }

  /** The record a request runs under, and whether it is new. */
  function Enlist(file: File<PendingRotation>, current: Identity, next: Identity, revision: u64, a: Attempt)
    : Result<(PendingRotation, bool), StoreError>
  {
    var sameScope := current.deviceId == next.deviceId && current.releaseProfile == next.releaseProfile
                     && current.credentialProfile == next.credentialProfile;
    var isSource := next.generation == SatAdd(current.generation, 1);
    if revision == 0 || !sameScope || (!isSource && !SameKeys(next, current)) then Err(RotationConflict) else
      var found :- ReadRotation(file);
      match found
      case Some(r) =>
        if PendingRotationMatches(r, current, next) && r.previousCredentialRevision <= revision
        then Ok((r, false)) else Err(RotationConflict)
      case None =>
        if isSource then Ok((RecordFor(current, next, revision, a), true)) else Err(RotationConflict)
  }

  function Prepare(d: Disk, a: Attempt): Result<Preparation, StoreError> {
    var previous :- LoadForRotation(d.credential);
    var current :- LoadIdentity(d.key, previous.deviceId, previous.releaseProfile, previous.credentialProfile,
                                a.legacyEncryption);
    var finished :- FinishVerdict(d, current, previous, a.legacyEncryption);
    if finished then Ok(OnlyRecordLeft) else
      var found :- ReadRotation(d.rotation);
      var prepared :- ReadPendingKey(d.pendingKey, current, a.legacyEncryption);
      if found.Some? && prepared.None? then Err(RotationConflict) else
        var bound :- (match LoadActiveBinding(d.binding, current.deviceId)
                      case Ok(_) => Ok(true)
                      case Err(FileMissing) => Ok(false)
                      case Err(e) => Err(e));
        if bound && found.None? && prepared.None? then Err(BindingMustStop) else
          var next :- if prepared.Some? then Ok(prepared.value) else NextIdentity(current, a);
          var record :- Enlist(d.rotation, current, next, previous.revision, a);
          Ok(Submit(current, next, record.0, previous, prepared.None?, record.1))
  }

  /** The disk after the first `k` durable steps before the request. */
  function PrepareStage(d: Disk, p: Preparation, k: nat): Disk
    requires p.Submit?
  {
    var keyDone := p.writesKey && k >= 1;
    var recordDone := p.writesRecord && k >= (if p.writesKey then 2 else 1);
    d.(pendingKey := if keyDone then Holds(EncodeIdentity(p.next)) else d.pendingKey,
       rotation := if recordDone then Holds(p.record) else d.rotation)
  }

  function PrepareSteps(p: Preparation): nat
    requires p.Submit?
  {
    (if p.writesKey then 1 else 0) + (if p.writesRecord then 1 else 0)
  }

  /** The disk after the first `k` durable steps of the commit. */
  function CommitStage(d: Disk, next: Identity, c: Credential, k: nat): Disk {
    d.(key := if k >= 1 then Holds(EncodeIdentity(next)) else d.key,
       metadata := if k >= 2 then Holds(MetadataOf(next, c.serverUrl)) else d.metadata,
       credential := if k >= 3 then Holds(c) else d.credential,
       binding := if k >= 4 then Missing else d.binding,
       pendingKey := if k >= 5 then Missing else d.pendingKey,
       rotation := if k >= 6 then Missing else d.rotation)
  }

  /** Steps the commit completes; a credential the store refuses ends it after two. */
  function CommitSteps(storable: bool, budget: nat): nat {
    Min(budget, if storable then 6 else 2)
  }

  function CommitOutcome(storable: bool, budget: nat): Outcome<StoreError> {
    if storable && budget >= 6 then Pass
    else if !storable && budget >= 2 then Fail(FileMalformed)
    else Fail(Stopped)
  }

  function AcceptReply(a: Attempt, p: Preparation): Result<Credential, StoreError>
    requires p.Submit?
  {
    var isTarget := SameKeys(p.current, p.next);
    var c :- CredentialFrom(a.reply, p.previous.serverUrl, p.next,
                            if isTarget then None else Some(p.previous.revision));
    if isTarget && c.revision < p.previous.revision then Err(RotationConflict) else Ok(c)
  }

  function RequestOf(p: Preparation): Request
    requires p.Submit?
  {
    Request(p.next.signing, p.next.encryption, p.next.generation, p.record.idempotencyKey)
  }

  function ReportOf(d: Disk, a: Attempt): Report {
    match Prepare(d, a)
    case Err(e) => Report(d, Fail(e), None)
    case Ok(OnlyRecordLeft) =>
      if a.budget == 0 then Report(d, Fail(Stopped), None) else Report(d.(rotation := Missing), Pass, None)
    case Ok(p) =>
      var steps := PrepareSteps(p);
      if a.budget < steps then Report(PrepareStage(d, p, a.budget), Fail(Stopped), None)
      else
        var ready := PrepareStage(d, p, steps);
        if a.delivery.Unsent? then Report(ready, Fail(LocalInputsUnavailable), None)
        else if a.delivery.ReplyLost? then Report(ready, Fail(NetworkFailure), Some(RequestOf(p)))
        else match AcceptReply(a, p)
          case Err(e) => Report(ready, Fail(e), Some(RequestOf(p)))
          case Ok(c) =>
            var left := a.budget - steps;
            Report(CommitStage(ready, p.next, c, CommitSteps(Storable(a.reply), left)),
                   CommitOutcome(Storable(a.reply), left), Some(RequestOf(p)))
  }

  // ---------------------------------------------------------------- the command

  method FinishInterruptedIdentityRotation(store: CredentialStore, current: Identity, previous: Credential,
                                           drawn: string)
    returns (r: Result<bool, StoreError>)
    modifies store
    ensures var verdict := FinishVerdict(old(store.Snapshot()), current, previous, drawn);
      if verdict == Ok(true) then
        DurableStep(old(store.Snapshot()), old(store.budget), old(store.Snapshot()).(rotation := Missing),
                    store.Snapshot(), store.budget, if r == Ok(true) then Pass else Fail(Stopped))
        && (r == Ok(true) || r == Err(Stopped))
      else
        r == verdict && store.Snapshot() == old(store.Snapshot()) && store.budget == old(store.budget)
  {
    var found :- ReadRotation(store.rotation);
    if found.None? { return Ok(false); }
    var record := found.value;
    var prepared :- ReadPendingKey(store.pendingKey, current, drawn);
    if prepared.Some? || record.deviceId != current.deviceId || !TargetIs(record, current)
       || previous.revision <= record.previousCredentialRevision {
      return Ok(false);
    }
    var metadata :- Read(store.metadata);
    if metadata != MetadataOf(current, previous.serverUrl) { return Err(RotationConflict); }
    match LoadActiveBinding(store.binding, current.deviceId) {
      case Ok(_) => return Err(RotationConflict);
      case Err(FileMissing) =>
      case Err(e) => return Err(e);
    }
    var cleared := store.ClearPendingRotationMetadata();
    if cleared.Fail? { return Err(cleared.error); }
    return Ok(true);
  }

  method PrepareIdentityRotation(store: CredentialStore, current: Identity, a: Attempt)
    returns (r: Result<Identity, StoreError>)
    modifies store
    ensures var plan := PreparedIdentity(old(store.pendingKey), current, a);
      if plan.Ok? && plan.value.1 then
        && DurableStep(old(store.Snapshot()), old(store.budget),
                       old(store.Snapshot()).(pendingKey := Holds(EncodeIdentity(plan.value.0))),
                       store.Snapshot(), store.budget, if r.Ok? then Pass else Fail(Stopped))
        && (r == Ok(plan.value.0) || r == Err(Stopped))
      else
        && store.Snapshot() == old(store.Snapshot()) && store.budget == old(store.budget)
        && r == (if plan.Ok? then Ok(plan.value.0) else Err(plan.error))
  {
    var prepared :- ReadPendingKey(store.pendingKey, current, a.legacyEncryption);
    match prepared {
      case Some(pending) =>
        var committed := SameKeys(pending, current);
        var isNext := current.generation < U64_MAX && pending.generation == current.generation + 1;
        if !committed && !isNext { return Err(RotationConflict); }
        return Ok(pending);
      case None =>
        var next :- NextIdentity(current, a);
        var saved := store.SavePendingKey(next);
        if saved.Fail? { return Err(saved.error); }
        return Ok(next);
    }
  }

  method LoadOrCreatePendingRotation(store: CredentialStore, current: Identity, next: Identity, revision: u64,
                                     a: Attempt)
    returns (r: Result<PendingRotation, StoreError>)
    modifies store
    ensures var plan := Enlist(old(store.rotation), current, next, revision, a);
      if plan.Ok? && plan.value.1 then
        && DurableStep(old(store.Snapshot()), old(store.budget),
                       old(store.Snapshot()).(rotation := Holds(plan.value.0)),
                       store.Snapshot(), store.budget, if r.Ok? then Pass else Fail(Stopped))
        && (r == Ok(plan.value.0) || r == Err(Stopped))
      else
        && store.Snapshot() == old(store.Snapshot()) && store.budget == old(store.budget)
        && r == (if plan.Ok? then Ok(plan.value.0) else Err(plan.error))
  {
    if revision == 0 { return Err(RotationConflict); }
    var sameScope := current.deviceId == next.deviceId && current.releaseProfile == next.releaseProfile
                     && current.credentialProfile == next.credentialProfile;
    var isSource := next.generation == SatAdd(current.generation, 1);
    if !sameScope || (!isSource && !SameKeys(next, current)) { return Err(RotationConflict); }
    var found :- ReadRotation(store.rotation);
    match found {
      case Some(existing) =>
        if !PendingRotationMatches(existing, current, next) || revision < existing.previousCredentialRevision {
          return Err(RotationConflict);
        }
        return Ok(existing);
      case None =>
        if !isSource { return Err(RotationConflict); }
        var record := RecordFor(current, next, revision, a);
        var saved := store.SavePendingRotation(record);
        if saved.Fail? { return Err(saved.error); }
        return Ok(record);
    }
  }

  method CommitIdentityRotation(store: CredentialStore, next: Identity, c: Credential, storable: bool, drawn: string)
    returns (o: Outcome<StoreError>)
    modifies store
    ensures var pending := LoadIdentity(old(store.pendingKey), next.deviceId, next.releaseProfile,
      next.credentialProfile, drawn);
      if pending.Err? then o == Fail(pending.error) && store.Snapshot() == old(store.Snapshot())
      else if !SameKeys(pending.value, next) || c.deviceId != next.deviceId
        || c.credentialProfile != next.credentialProfile
      then o == Fail(RotationConflict) && store.Snapshot() == old(store.Snapshot())
      else
        && store.Snapshot() == CommitStage(old(store.Snapshot()), next, c, CommitSteps(storable, old(store.budget)))
        && o == CommitOutcome(storable, old(store.budget))
  {
    var pending := LoadIdentity(store.pendingKey, next.deviceId, next.releaseProfile, next.credentialProfile, drawn);
    if pending.Err? { return Fail(pending.error); }
    if !SameKeys(pending.value, next) || c.deviceId != next.deviceId || c.credentialProfile != next.credentialProfile {
      return Fail(RotationConflict);
    }
    :- store.SaveIdentity(next);
    // Its fields are those of a stored credential, which obeys the same text rules.
    :- store.SaveIdentityMetadata(next, c.serverUrl, true);
    :- store.Save(c, storable);
    :- store.ClearActiveBinding();
    :- store.RemovePendingKey();
    o := store.ClearPendingRotationMetadata();
  }

  /** Everything before the request: recovery, key generation and the durable record. */
  method BeginRotation(store: CredentialStore, a: Attempt) returns (r: Result<Preparation, StoreError>)
    modifies store
    ensures match Prepare(old(store.Snapshot()), a)
      case Err(e) => r == Err(e) && store.Snapshot() == old(store.Snapshot())
      case Ok(OnlyRecordLeft) =>
        if old(store.budget) == 0 then r == Err(Stopped) && store.Snapshot() == old(store.Snapshot())
        else r == Ok(OnlyRecordLeft) && store.Snapshot() == old(store.Snapshot()).(rotation := Missing)
      case Ok(p) =>
        if old(store.budget) < PrepareSteps(p) then
          r == Err(Stopped) && store.Snapshot() == PrepareStage(old(store.Snapshot()), p, old(store.budget))
        else
          && r == Ok(p) && store.budget == old(store.budget) - PrepareSteps(p)
          && store.Snapshot() == PrepareStage(old(store.Snapshot()), p, PrepareSteps(p))
  {
    var previous :- LoadForRotation(store.credential);
    var current :- LoadIdentity(store.key, previous.deviceId, previous.releaseProfile, previous.credentialProfile,
                                a.legacyEncryption);
    var finished :- FinishInterruptedIdentityRotation(store, current, previous, a.legacyEncryption);
    if finished { return Ok(OnlyRecordLeft); }
    // The record was just read by the recovery check, so it reads again.
    var found := ReadRotation(store.rotation).value;
    var prepared :- ReadPendingKey(store.pendingKey, current, a.legacyEncryption);
    if found.Some? && prepared.None? { return Err(RotationConflict); }
    var binding := LoadActiveBinding(store.binding, current.deviceId);
    if binding.Err? && binding.error != FileMissing { return Err(binding.error); }
    if binding.Ok? && found.None? && prepared.None? { return Err(BindingMustStop); }
    var next: Identity;
    if prepared.Some? {
      next := prepared.value;
    } else {
      next :- PrepareIdentityRotation(store, current, a);
    }
    var record :- LoadOrCreatePendingRotation(store, current, next, previous.revision, a);
    return Ok(Submit(current, next, record, previous, prepared.None?, found.None?));
  }

  method DeviceRotate(store: CredentialStore, a: Attempt) returns (o: Outcome<StoreError>, request: Option<Request>)
    requires store.budget == a.budget
    modifies store
    ensures Report(store.Snapshot(), o, request) == ReportOf(old(store.Snapshot()), a)
  {
    var begun := BeginRotation(store, a);
    if begun.Err? { return Fail(begun.error), None; }
    if begun.value.OnlyRecordLeft? { return Pass, None; }
    var p := begun.value;
    var isTarget := SameKeys(p.current, p.next);
    if a.delivery.Unsent? { return Fail(LocalInputsUnavailable), None; }
    request := Some(RequestOf(p));
    if a.delivery.ReplyLost? { return Fail(NetworkFailure), request; }
    var c := CredentialFrom(a.reply, p.previous.serverUrl, p.next,
                            if isTarget then None else Some(p.previous.revision));
    if c.Err? { return Fail(c.error), request; }
    if isTarget && c.value.revision < p.previous.revision { return Fail(RotationConflict), request; }
    o := CommitIdentityRotation(store, p.next, c.value, Storable(a.reply), a.legacyEncryption);
  }
}
