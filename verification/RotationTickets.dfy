/**
  What a rotation takes from its own attempt and what it takes from the server
  (crates/device-client/src/credential_store.rs:777-818, registration.rs:531-546).
 */
module RotationTickets {
  import opened Wrappers
  import opened DeviceStore
  import opened Rotation
  import opened RotationRuns

  // ---------------------------------------------------------------- a new rotation is a new operation

  /** The pair of keys a request from this disk asks for, without a record: prepared before or drawn now. */
  function AskedKey(d: Disk, a: Attempt): KeyFile
    requires Enrolled(d) && d.key.value.generation < U64_MAX
  {
    if d.pendingKey.Holds? then d.pendingKey.value
    else Egbkey2(d.key.value.generation + 1, a.drawnSigning, a.drawnEncryption)
  }

  /** A record opened by this attempt, field by field. */
  predicate OpenedBy(r: PendingRotation, d: Disk, a: Attempt)
    requires Enrolled(d) && d.key.value.generation < U64_MAX
  {
    var c, k := d.credential.value, AskedKey(d, a);
    && r.idempotencyKey == a.drawnIdempotencyKey && r.createdAt == a.now
    && r.deviceId == c.deviceId && r.previousCredentialRevision == c.revision
    && r.currentGeneration == d.key.value.generation && r.targetGeneration == d.key.value.generation + 1
    && r.oldSigning == Sha256(d.key.value.signing)
    && r.oldEncryption == Sha256(if d.key.value.Egbkey2? then d.key.value.encryption else a.legacyEncryption)
    && k.Egbkey2? && r.targetSigning == Sha256(k.signing) && r.targetEncryption == Sha256(k.encryption)
  }

  /**
    Without a record on disk, a record that is left and a request that is sent are
    this attempt's own: its drawn operation key, its clock, the current credential.
   */
  lemma NewOperationIsDrawn(d: Disk, a: Attempt)
    requires InPhase(d) && d.rotation.Missing?
    ensures var report := ReportOf(d, a);
      && (report.disk.rotation.Holds? || report.request.Some? ==> d.key.value.generation < U64_MAX)
      && (report.disk.rotation.Holds? ==> OpenedBy(report.disk.rotation.value, d, a))
      && (report.request.Some? ==>
            && report.request.value.idempotencyKey == a.drawnIdempotencyKey
            && KeyOf(report.request.value) == AskedKey(d, a))
  {
    if Idle(d) { IdlePlan(d, a); } else { KeyedPlan(d, a); }
  }

  /** A completed rotation leaves no record. */
  lemma CompletionRests(d: Disk, a: Attempt)
    requires InPhase(d) && Completes(d, a)
    ensures InPhase(ReportOf(d, a).disk) && ReportOf(d, a).disk.rotation.Missing?
  {
    if Prepare(d, a).value.Submit? {
      SubmitIsRecorded(d, a);
    } else {
      OnlyRecordLeftIsSafe(d, a);
    }
  }

  // ---------------------------------------------------------------- over whole runs

  /** A request and the number of rotations completed before it. */
  datatype Ticket = Ticket(rotation: nat, request: Request)

  function Tickets(d: Disk, run: seq<Attempt>, done: nat): seq<Ticket>
    decreases |run|
  {
    if run == [] then []
    else
      var report := ReportOf(d, run[0]);
      (if report.request.Some? then [Ticket(done, report.request.value)] else [])
      + Tickets(report.disk, run[1..], if Completes(d, run[0]) then done + 1 else done)
  }

  function Draws(run: seq<Attempt>): set<string> {
    set a | a in run :: a.drawnIdempotencyKey
  }

  /** Random draws differ from each other and from the operation key already on record. */
  predicate DrawsDiffer(d: Disk, run: seq<Attempt>)
    decreases |run|
  {
    && (d.rotation.Holds? ==> d.rotation.value.idempotencyKey !in Draws(run))
    && DistinctDraws(run)
  }

  predicate DistinctDraws(run: seq<Attempt>) {
    run == [] || (run[0].drawnIdempotencyKey !in Draws(run[1..]) && DistinctDraws(run[1..]))
  }

  /** Where the operation key of a ticket comes from. */
  predicate Sourced(t: Ticket, d: Disk, run: seq<Attempt>, done: nat) {
    && t.rotation >= done
    && (if t.rotation == done && d.rotation.Holds?
        then t.request.idempotencyKey == d.rotation.value.idempotencyKey
        else t.request.idempotencyKey in Draws(run))
  }

  lemma DrawsSplit(run: seq<Attempt>)
    requires run != []
    ensures Draws(run) == {run[0].drawnIdempotencyKey} + Draws(run[1..])
  {
    assert run == [run[0]] + run[1..];
  }

  /** What one attempt does to the operation key in force. */
  predicate KeyInForce(d: Disk, a: Attempt) {
    var report := ReportOf(d, a);
    && (report.request.Some? ==>
          report.request.value.idempotencyKey
          == (if d.rotation.Holds? then d.rotation.value.idempotencyKey else a.drawnIdempotencyKey))
    && (if Completes(d, a) then report.disk.rotation.Missing?
        else
          && (d.rotation.Holds? ==> report.disk.rotation == d.rotation)
          && (report.disk.rotation.Holds? && !d.rotation.Holds? ==>
                report.disk.rotation.value.idempotencyKey == a.drawnIdempotencyKey)
          && (report.request.Some? ==> report.disk.rotation.Holds?))
  }

  lemma AttemptKeepsKey(d: Disk, a: Attempt)
    requires InPhase(d)
    ensures InPhase(ReportOf(d, a).disk) && KeyInForce(d, a)
  {
    EveryAttemptIsSafe(d, a);
    if d.rotation.Missing? { NewOperationIsDrawn(d, a); }
    if Completes(d, a) { CompletionRests(d, a); }
  }

  /** The disk after an attempt still has draws to spare. */
  lemma DrawsStillDiffer(d: Disk, run: seq<Attempt>)
    requires InPhase(d) && run != [] && DrawsDiffer(d, run) && KeyInForce(d, run[0])
    ensures DrawsDiffer(ReportOf(d, run[0]).disk, run[1..])
  {
    DrawsSplit(run);
  }

  lemma {:induction false} TicketsAreSourced(d: Disk, run: seq<Attempt>, done: nat)
    requires InPhase(d)
    ensures forall t :: t in Tickets(d, run, done) ==> Sourced(t, d, run, done)
    decreases |run|
  {
    if run != [] {
      var report := ReportOf(d, run[0]);
      var after := if Completes(d, run[0]) then done + 1 else done;
      AttemptKeepsKey(d, run[0]);
      DrawsSplit(run);
      TicketsAreSourced(report.disk, run[1..], after);
      forall t | t in Tickets(report.disk, run[1..], after) ensures Sourced(t, d, run, done) {
        assert Sourced(t, report.disk, run[1..], after);
      }
    }
  }

  /** Two tickets are of one rotation exactly when they carry one operation key. */
  predicate OneKeyEach(ts: seq<Ticket>) {
    forall t, u :: t in ts && u in ts ==>
      (t.rotation == u.rotation <==> t.request.idempotencyKey == u.request.idempotencyKey)
  }

  /**
    Over any run of any number of rotations: requests of one rotation share their
    operation key, and no two rotations ever send the same one.
   */
  lemma {:induction false} RotationsNeverShareKeys(d: Disk, run: seq<Attempt>, done: nat)
    requires InPhase(d) && DrawsDiffer(d, run)
    ensures OneKeyEach(Tickets(d, run, done))
    decreases |run|
  {
    if run != [] {
      var report := ReportOf(d, run[0]);
      var after := if Completes(d, run[0]) then done + 1 else done;
      var rest := Tickets(report.disk, run[1..], after);
      AttemptKeepsKey(d, run[0]);
      DrawsStillDiffer(d, run);
      DrawsSplit(run);
      RotationsNeverShareKeys(report.disk, run[1..], after);
      TicketsAreSourced(report.disk, run[1..], after);
      if report.request.Some? {
        var first := Ticket(done, report.request.value);
        forall t | t in rest
          ensures t.rotation == done <==> t.request.idempotencyKey == first.request.idempotencyKey
        {
          assert Sourced(t, report.disk, run[1..], after);
        }
        assert Tickets(d, run, done) == [first] + rest;
      } else {
        assert Tickets(d, run, done) == rest;
      }
    }
  }

  // ---------------------------------------------------------------- what the server's answer may do

  /** The answer may replace this credential: it repeats what was sent and moves the revision forward. */
  predicate Advances(reply: Reply, d: Disk)
    requires Enrolled(d)
  {
    && reply.echoesRequest && reply.wellFormed && reply.expiresAt > 0 && reply.revision > 0
    && (if d.key == d.pendingKey then reply.revision >= d.credential.value.revision
        else reply.revision > d.credential.value.revision)
  }

  /** A stored credential changes only into the delivered answer, for the same device, origin and profiles. */
  lemma CredentialFollowsReply(d: Disk, a: Attempt)
    requires InPhase(d)
    ensures var d' := ReportOf(d, a).disk;
      && d'.credential.Holds?
      && d'.credential.value.revision >= d.credential.value.revision
      && (d'.credential != d.credential ==>
            && a.delivery.Delivered? && Advances(a.reply, d)
            && d'.credential.value == d.credential.value.(token := a.reply.token, credentialId := a.reply.credentialId,
                                                          expiresAt := a.reply.expiresAt, revision := a.reply.revision))
  {
    if Idle(d) { IdlePlan(d, a); }
    else if Keyed(d) { KeyedPlan(d, a); }
    else if Recorded(d) && !Installed(d) { RecordedPlan(d, a); }
    else if Installed(d) { InstalledPlan(d, a); }
    else { CleaningPlan(d, a); }
  }
}
