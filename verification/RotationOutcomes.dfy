/**
  Which rotations go ahead, from any disk whatsoever, and what a stopped one leaves
  (crates/device-client/src/registration.rs:473-552, credential_store.rs:687-955).
 */
module RotationOutcomes {
  import opened Wrappers
  import opened DeviceStore
  import opened Rotation
  import opened RotationRuns
  import opened RotationTickets

  // ---------------------------------------------------------------- any disk

  /** The encryption key in use when this key file is loaded by this attempt. */
  function EncryptionOf(k: KeyFile, a: Attempt): string {
    if k.Egbkey2? then k.encryption else a.legacyEncryption
  }

  /** A usable credential and key; whatever is pending can be read. */
  predicate Legible(d: Disk) {
    && d.credential.Holds? && d.credential.value.revision > 0 && d.credential.value.expiresAt > 0
    && d.key.Holds? && d.key.value.generation > 0
    && !d.pendingKey.Malformed? && (d.pendingKey.Holds? ==> d.pendingKey.value.generation > 0)
    && !d.rotation.Malformed?
    && (d.rotation.Holds? ==>
          var r := d.rotation.value;
          && r.currentGeneration > 0 && r.previousCredentialRevision > 0
          && r.targetGeneration == (if r.currentGeneration == U64_MAX then U64_MAX else r.currentGeneration + 1))
  }

  predicate RecordNamesTarget(r: PendingRotation, k: KeyFile, a: Attempt) {
    && r.targetGeneration == k.generation && r.targetSigning == Sha256(k.signing)
    && r.targetEncryption == Sha256(EncryptionOf(k, a))
  }

  predicate RecordNamesSource(r: PendingRotation, k: KeyFile, a: Attempt) {
    && r.currentGeneration == k.generation && r.oldSigning == Sha256(k.signing)
    && r.oldEncryption == Sha256(EncryptionOf(k, a))
  }

  /** The pending key comes after the installed one; at the last generation there is no later one. */
  predicate PendingIsNext(d: Disk)
    requires d.key.Holds? && d.pendingKey.Holds?
  {
    d.pendingKey.value.generation == if d.key.value.generation == U64_MAX then U64_MAX else d.key.value.generation + 1
  }

  predicate PendingIsInstalled(d: Disk, a: Attempt)
    requires d.key.Holds? && d.pendingKey.Holds?
  {
    var k, p := d.key.value, d.pendingKey.value;
    p.generation == k.generation && p.signing == k.signing && EncryptionOf(p, a) == EncryptionOf(k, a)
  }

  /** Everything is installed and only the record is left. */
  predicate LeftoverRecord(d: Disk, a: Attempt) {
    && Legible(d) && d.pendingKey.Missing? && d.rotation.Holds? && d.binding.Missing?
    && var c, r := d.credential.value, d.rotation.value;
       && r.deviceId == c.deviceId && r.previousCredentialRevision < c.revision
       && RecordNamesTarget(r, d.key.value, a)
       && d.metadata == Holds(Metadata(c.deviceId, c.serverUrl, c.releaseProfile, c.credentialProfile))
  }

  /** A rotation can be begun, or the one on disk gone on with. */
  predicate MayGoAhead(d: Disk, a: Attempt) {
    && Legible(d)
    && (d.binding.Missing? || (d.binding.Holds? && d.binding.value.deviceId == d.credential.value.deviceId))
    && (if d.pendingKey.Missing? then d.rotation.Missing? && d.binding.Missing? && d.key.value.generation < U64_MAX
        else if d.rotation.Missing? then PendingIsNext(d)
        else
          var r := d.rotation.value;
          && (PendingIsNext(d) || PendingIsInstalled(d, a))
          && r.deviceId == d.credential.value.deviceId && r.previousCredentialRevision <= d.credential.value.revision
          && RecordNamesTarget(r, d.pendingKey.value, a)
          && (RecordNamesSource(r, d.key.value, a) || RecordNamesTarget(r, d.key.value, a)))
  }

  lemma LeftoverExactlyWhen(d: Disk, a: Attempt)
    ensures Prepare(d, a) == Ok(OnlyRecordLeft) <==> LeftoverRecord(d, a)
  {}

  lemma MustStopExactlyWhen(d: Disk, a: Attempt)
    ensures Prepare(d, a) == Err(BindingMustStop) <==>
      && Legible(d) && d.pendingKey.Missing? && d.rotation.Missing?
      && d.binding.Holds? && d.binding.value.deviceId == d.credential.value.deviceId
  {}

  lemma SubmitsExactlyWhen(d: Disk, a: Attempt)
    ensures Prepare(d, a).Ok? && Prepare(d, a).value.Submit? <==> MayGoAhead(d, a)
  {}

  /** From every disk: a rotation goes ahead exactly when it may, and a leftover record is all that is cleared. */
  lemma GoesAheadExactlyWhen(d: Disk, a: Attempt)
    ensures var plan := Prepare(d, a);
      && (plan.Ok? <==> MayGoAhead(d, a) || LeftoverRecord(d, a))
      && (plan == Ok(OnlyRecordLeft) <==> LeftoverRecord(d, a))
  {
    LeftoverExactlyWhen(d, a);
    SubmitsExactlyWhen(d, a);
  }

  /** Any other disk is left as it is, and nothing is sent. */
  lemma RefusedLeavesDisk(d: Disk, a: Attempt)
    requires !MayGoAhead(d, a) && !LeftoverRecord(d, a)
    ensures ReportOf(d, a).disk == d && ReportOf(d, a).outcome.Fail? && ReportOf(d, a).request.None?
  {
    GoesAheadExactlyWhen(d, a);
  }

  /** A leftover record is cleared by one durable step and nothing else is touched. */
  lemma LeftoverIsCleared(d: Disk, a: Attempt)
    requires LeftoverRecord(d, a)
    ensures ReportOf(d, a) ==
      if a.budget == 0 then Report(d, Fail(Stopped), None) else Report(d.(rotation := Missing), Pass, None)
  {
    LeftoverExactlyWhen(d, a);
  }

  // ---------------------------------------------------------------- the two files of a rotation

  /** The pending key is reused if installed or next, drawn if there is none, and refused otherwise. */
  lemma PreparesExactlyWhen(file: File<KeyFile>, current: Identity, a: Attempt)
    ensures var r := PreparedIdentity(file, current, a);
      && (r.Ok? && r.value.1 <==> file.Missing? && current.generation < U64_MAX)
      && (r.Ok? && !r.value.1 <==>
            && file.Holds? && file.value.generation > 0
            && (file.value.generation == current.generation + 1
                || (&& file.value.generation == current.generation && file.value.signing == current.signing
                    && EncryptionOf(file.value, a) == current.encryption)))
      && (r.Ok? ==>
            var n := r.value.0;
            && n.deviceId == current.deviceId && n.releaseProfile == current.releaseProfile
            && n.credentialProfile == current.credentialProfile
            && (if r.value.1 then
                  n.generation == current.generation + 1 && n.signing == a.drawnSigning
                  && n.encryption == a.drawnEncryption && !n.legacyEncryptionKey
                else
                  n.generation == file.value.generation && n.signing == file.value.signing
                  && n.encryption == EncryptionOf(file.value, a)))
  {}

  /** One key follows another, or is the same, for one device under the same profiles. */
  predicate NextOrSame(current: Identity, next: Identity) {
    && next.deviceId == current.deviceId && next.releaseProfile == current.releaseProfile
    && next.credentialProfile == current.credentialProfile
    && (next.generation == (if current.generation == U64_MAX then U64_MAX else current.generation + 1)
        || (&& next.generation == current.generation && next.signing == current.signing
            && next.encryption == current.encryption))
  }

  /** A record is taken up when it names both keys and no later revision; one is made only for a later key. */
  lemma EnlistsExactlyWhen(file: File<PendingRotation>, current: Identity, next: Identity, revision: u64, a: Attempt)
    ensures var r := Enlist(file, current, next, revision, a);
      && (r.Ok? && !r.value.1 <==>
            && revision > 0 && NextOrSame(current, next) && file.Holds? && r == Ok((file.value, false))
            && var q := file.value;
               && q.currentGeneration > 0 && 0 < q.previousCredentialRevision <= revision
               && q.targetGeneration == (if q.currentGeneration == U64_MAX then U64_MAX else q.currentGeneration + 1)
               && q.deviceId == current.deviceId
               && q.targetGeneration == next.generation && q.targetSigning == Sha256(next.signing)
               && q.targetEncryption == Sha256(next.encryption)
               && ((&& q.currentGeneration == current.generation && q.oldSigning == Sha256(current.signing)
                    && q.oldEncryption == Sha256(current.encryption))
                   || (&& q.targetGeneration == current.generation && q.targetSigning == Sha256(current.signing)
                       && q.targetEncryption == Sha256(current.encryption))))
      && (r.Ok? && r.value.1 <==>
            && revision > 0 && NextOrSame(current, next) && file.Missing?
            && next.generation == (if current.generation == U64_MAX then U64_MAX else current.generation + 1))
  {}

  // ---------------------------------------------------------------- before the request

  /** Durable steps before the request: the key, unless one is pending, and the record, unless one is there. */
  function StepsBefore(d: Disk): nat {
    (if d.pendingKey.Missing? then 1 else 0) + (if d.rotation.Missing? then 1 else 0)
  }

  /** A request is sent exactly after those steps, and the disk then holds key and record beside what it held before. */
  lemma SendsExactlyWhen(d: Disk, a: Attempt)
    ensures ReportOf(d, a).request.Some? <==>
      MayGoAhead(d, a) && a.budget >= StepsBefore(d) && !a.delivery.Unsent?
  {
    GoesAheadExactlyWhen(d, a);
  }

  /** An attempt that got no usable answer leaves exactly the key and the record it had time to write. */
  lemma UnansweredLeaves(d: Disk, a: Attempt)
    requires MayGoAhead(d, a) && (a.budget < StepsBefore(d) || !a.delivery.Delivered?)
    ensures var r := ReportOf(d, a);
      && r.outcome.Fail?
      && r.disk == d.(pendingKey := r.disk.pendingKey, rotation := r.disk.rotation)
      && (d.pendingKey.Holds? ==> r.disk.pendingKey == d.pendingKey)
      && (d.rotation.Holds? ==> r.disk.rotation == d.rotation)
      && (r.disk.pendingKey.Holds? <==> d.pendingKey.Holds? || a.budget >= 1)
      && (r.disk.rotation.Holds? <==> d.rotation.Holds? || a.budget >= StepsBefore(d))
      && (r.outcome == Fail(Stopped) <==> a.budget < StepsBefore(d))
  {
    GoesAheadExactlyWhen(d, a);
  }

  /** What a request carries: the pending key, or the one drawn, under the recorded operation, or a new one. */
  predicate Carries(d: Disk, a: Attempt, q: Request)
    requires d.key.Holds?
  {
    && q.idempotencyKey == (if d.rotation.Holds? then d.rotation.value.idempotencyKey else a.drawnIdempotencyKey)
    && (if d.pendingKey.Holds? then
          var k := d.pendingKey.value;
          q.generation == k.generation && q.signing == k.signing && q.encryption == EncryptionOf(k, a)
        else
          && q.generation == d.key.value.generation + 1
          && q.signing == a.drawnSigning && q.encryption == a.drawnEncryption)
  }

  lemma FreshPlanCarries(d: Disk, a: Attempt)
    requires MayGoAhead(d, a) && d.pendingKey.Missing? && Prepare(d, a).Ok? && Prepare(d, a).value.Submit?
    ensures Carries(d, a, RequestOf(Prepare(d, a).value))
  {}

  lemma KeyedPlanCarries(d: Disk, a: Attempt)
    requires MayGoAhead(d, a) && d.pendingKey.Holds? && d.rotation.Missing?
    requires Prepare(d, a).Ok? && Prepare(d, a).value.Submit?
    ensures Carries(d, a, RequestOf(Prepare(d, a).value))
  {}

  lemma RecordedPlanCarries(d: Disk, a: Attempt)
    requires MayGoAhead(d, a) && d.pendingKey.Holds? && d.rotation.Holds?
    requires Prepare(d, a).Ok? && Prepare(d, a).value.Submit?
    ensures Carries(d, a, RequestOf(Prepare(d, a).value))
  {}

  lemma RequestCarries(d: Disk, a: Attempt)
    requires ReportOf(d, a).request.Some?
    ensures MayGoAhead(d, a) && Carries(d, a, ReportOf(d, a).request.value)
  {
    SendsExactlyWhen(d, a);
    SubmitsExactlyWhen(d, a);
    if d.pendingKey.Missing? { FreshPlanCarries(d, a); }
    else if d.rotation.Missing? { KeyedPlanCarries(d, a); }
    else { RecordedPlanCarries(d, a); }
  }

  // ---------------------------------------------------------------- after the answer

  /** The credential the answer gives this device. */
  function CredentialGiven(d: Disk, a: Attempt): Credential
    requires d.credential.Holds?
  {
    d.credential.value.(token := a.reply.token, credentialId := a.reply.credentialId,
                        expiresAt := a.reply.expiresAt, revision := a.reply.revision)
  }

  /** Files change in this order only: key, metadata, credential, binding, pending key, record. */
  predicate InOrder(before: Disk, d: Disk, k: KeyFile, c: Credential) {
    && (d.key != before.key ==> d.key == Holds(k))
    && (d.metadata != before.metadata ==>
          && d.key == Holds(k)
          && d.metadata == Holds(Metadata(c.deviceId, c.serverUrl, c.releaseProfile, c.credentialProfile)))
    && (d.credential != before.credential ==>
          && d.key == Holds(k) && d.credential == Holds(c)
          && d.metadata == Holds(Metadata(c.deviceId, c.serverUrl, c.releaseProfile, c.credentialProfile)))
    && (d.binding != before.binding ==> d.binding.Missing? && d.credential == Holds(c))
    && (d.pendingKey != before.pendingKey ==>
          d.pendingKey.Missing? && d.binding.Missing? && d.credential == Holds(c))
    && (d.rotation != before.rotation ==>
          d.rotation.Missing? && d.pendingKey.Missing? && d.binding.Missing? && d.credential == Holds(c))
    && d.registration == before.registration
  }

  /** The disk a request is sent from. */
  function Ready(d: Disk, a: Attempt): Disk {
    ReportOf(d, a.(delivery := ReplyLost)).disk
  }

  /** What makes an answer acceptable: it repeats the request and moves the revision forward. */
  predicate Acceptable(d: Disk, a: Attempt)
    requires Legible(d)
  {
    && a.reply.echoesRequest && a.reply.revision > 0
    && (if d.pendingKey.Holds? && PendingIsInstalled(d, a) then a.reply.revision >= d.credential.value.revision
        else a.reply.revision > d.credential.value.revision)
  }

  /** The request was sent and answered. */
  predicate Answered(d: Disk, a: Attempt) {
    MayGoAhead(d, a) && a.budget >= StepsBefore(d) && a.delivery.Delivered?
  }

  /** What the plan of a submission takes from the disk. */
  predicate PlanFits(d: Disk, a: Attempt, p: Preparation, ready: Disk) {
    && p.Submit? && MayGoAhead(d, a)
    && p.previous == d.credential.value && PrepareSteps(p) == StepsBefore(d)
    && ready == PrepareStage(d, p, PrepareSteps(p)) && ready.pendingKey.Holds? && ready.rotation.Holds?
    && p.next.deviceId == p.previous.deviceId && p.next.releaseProfile == p.previous.releaseProfile
    && p.next.credentialProfile == p.previous.credentialProfile
    && (SameKeys(p.current, p.next) <==> d.pendingKey.Holds? && PendingIsInstalled(d, a))
  }

  lemma PlanOf(d: Disk, a: Attempt) returns (p: Preparation, ready: Disk)
    requires MayGoAhead(d, a)
    ensures Prepare(d, a) == Ok(p) && PlanFits(d, a, p, ready)
  {
    SubmitsExactlyWhen(d, a);
    p := Prepare(d, a).value;
    ready := PrepareStage(d, p, PrepareSteps(p));
  }

  /** What becomes of an answer to a request sent from `ready`. */
  function Settled(ready: Disk, a: Attempt, p: Preparation, left: nat): Report
    requires p.Submit?
  {
    match AcceptReply(a, p)
    case Err(e) => Report(ready, Fail(e), Some(RequestOf(p)))
    case Ok(c) =>
      Report(CommitStage(ready, p.next, c, CommitSteps(Storable(a.reply), left)),
             CommitOutcome(Storable(a.reply), left), Some(RequestOf(p)))
  }

  lemma AnsweredReport(d: Disk, a: Attempt) returns (p: Preparation, ready: Disk)
    requires Answered(d, a)
    ensures PlanFits(d, a, p, ready) && Ready(d, a) == ready
    ensures ReportOf(d, a) == Settled(ready, a, p, a.budget - StepsBefore(d))
  {
    p, ready := PlanOf(d, a);
    assert Prepare(d, a.(delivery := ReplyLost)) == Prepare(d, a);
  }

  lemma ReplyAcceptedExactlyWhen(d: Disk, a: Attempt, p: Preparation, ready: Disk)
    requires PlanFits(d, a, p, ready)
    ensures AcceptReply(a, p).Ok? <==> Acceptable(d, a)
    ensures Acceptable(d, a) ==> AcceptReply(a, p).value == CredentialGiven(d, a)
    ensures !Acceptable(d, a) ==>
      AcceptReply(a, p).error in (if a.reply.echoesRequest then {RevisionNotAdvanced, RotationConflict}
                                  else {CompatibilityMismatch})
  {}

  lemma CommitsInOrder(ready: Disk, next: Identity, c: Credential, storable: bool, left: nat)
    requires ready.pendingKey.Holds? && ready.rotation.Holds?
    requires c.deviceId == next.deviceId && c.releaseProfile == next.releaseProfile
    requires c.credentialProfile == next.credentialProfile
    ensures Committed(ready, CommitStage(ready, next, c, CommitSteps(storable, left)),
                      Egbkey2(next.generation, next.signing, next.encryption), c, storable, left,
                      CommitOutcome(storable, left))
  {}

  /** An answer that is not acceptable leaves the disk as it was when the request was sent. */
  lemma RefusedAnswerLeaves(d: Disk, a: Attempt)
    requires Answered(d, a) && !Acceptable(d, a)
    ensures var r := ReportOf(d, a);
      && r.disk == Ready(d, a) && r.outcome.Fail?
      && (!a.reply.echoesRequest ==> r.outcome == Fail(CompatibilityMismatch))
      && (a.reply.echoesRequest ==> r.outcome in {Fail(RevisionNotAdvanced), Fail(RotationConflict)})
  {
    var p, ready := AnsweredReport(d, a);
    ReplyAcceptedExactlyWhen(d, a, p, ready);
  }

  /** What a commit with `left` durable steps has done, for an answer the store takes or refuses. */
  predicate Committed(ready: Disk, d: Disk, k: KeyFile, c: Credential, storable: bool, left: nat,
                      o: Outcome<StoreError>)
  {
    && InOrder(ready, d, k, c)
    && (left == 0 ==> d == ready)
    && (left >= 1 ==> d.key == Holds(k))
    && (left >= 2 ==> d.metadata == Holds(Metadata(c.deviceId, c.serverUrl, c.releaseProfile, c.credentialProfile)))
    && (if storable then
          && (left >= 3 ==> d.credential == Holds(c))
          && (left >= 4 ==> d.binding.Missing?)
          && (left >= 5 ==> d.pendingKey.Missing?)
          && (left >= 6 <==> d.rotation.Missing?)
          && o == (if left >= 6 then Pass else Fail(Stopped))
        else
          && d == ready.(key := d.key, metadata := d.metadata)
          && o == Fail(if left >= 2 then FileMalformed else Stopped))
  }

  /** An acceptable answer is installed file by file, in order, as far as the process gets. */
  lemma AcceptedAnswerCommits(d: Disk, a: Attempt)
    requires Answered(d, a) && Acceptable(d, a)
    ensures var r := ReportOf(d, a);
      && r.request.Some?
      && Committed(Ready(d, a), r.disk, KeyOf(r.request.value), CredentialGiven(d, a),
                   a.reply.wellFormed && a.reply.expiresAt > 0, a.budget - StepsBefore(d), r.outcome)
  {
    var p, ready := AnsweredReport(d, a);
    ReplyAcceptedExactlyWhen(d, a, p, ready);
    CommitsInOrder(ready, p.next, CredentialGiven(d, a), Storable(a.reply), a.budget - StepsBefore(d));
  }
}
