/** Safety and convergence of rotation over whole runs of interrupted attempts. */
module RotationRuns {
  import opened Wrappers
  import opened DeviceStore
  import opened Rotation

  // ---------------------------------------------------------------- phases of one rotation

  predicate TargetKey(r: PendingRotation, k: KeyFile) {
    && k.Egbkey2?
    && r.targetGeneration == k.generation
    && r.targetSigning == Sha256(k.signing)
    && r.targetEncryption == Sha256(k.encryption)
  }

  predicate SourceKey(r: PendingRotation, k: KeyFile) {
    && r.currentGeneration == k.generation
    && r.oldSigning == Sha256(k.signing)
    && (k.Egbkey2? ==> r.oldEncryption == Sha256(k.encryption))
  }

  /** Credential and key present; the binding file, if any, is this device's own. */
  predicate Enrolled(d: Disk) {
    && d.credential.Holds? && d.credential.value.revision > 0 && d.credential.value.expiresAt > 0
    && d.key.Holds? && d.key.value.generation > 0
    && (d.binding.Missing? || (d.binding.Holds? && d.binding.value.deviceId == d.credential.value.deviceId))
  }

  predicate Idle(d: Disk) {
    Enrolled(d) && d.pendingKey.Missing? && d.rotation.Missing?
  }

  predicate Keyed(d: Disk) {
    && Enrolled(d) && d.pendingKey.Holds? && d.rotation.Missing?
    && d.pendingKey.value.Egbkey2? && d.pendingKey.value.generation == d.key.value.generation + 1
  }

  predicate RecordFits(d: Disk)
    requires Enrolled(d) && d.rotation.Holds?
  {
    var r := d.rotation.value;
    && ValidRecord(r)
    && r.targetGeneration == r.currentGeneration + 1
    && r.deviceId == d.credential.value.deviceId
    && r.previousCredentialRevision <= d.credential.value.revision
  }

  predicate Recorded(d: Disk) {
    && Enrolled(d) && d.pendingKey.Holds? && d.rotation.Holds? && RecordFits(d)
    && TargetKey(d.rotation.value, d.pendingKey.value)
    && SourceKey(d.rotation.value, d.key.value)
  }

  predicate Installed(d: Disk) {
    && Enrolled(d) && d.pendingKey.Holds? && d.rotation.Holds? && RecordFits(d)
    && TargetKey(d.rotation.value, d.pendingKey.value)
    && d.key == d.pendingKey
  }

  predicate Cleaning(d: Disk) {
    && Enrolled(d) && d.pendingKey.Missing? && d.rotation.Holds? && RecordFits(d)
    && TargetKey(d.rotation.value, d.key.value)
    && d.binding.Missing?
    && d.metadata == Holds(Metadata(d.credential.value.deviceId, d.credential.value.serverUrl,
                                    d.credential.value.releaseProfile, d.credential.value.credentialProfile))
  }

  predicate InPhase(d: Disk) {
    Idle(d) || Keyed(d) || Recorded(d) || Installed(d) || Cleaning(d)
  }

  /** A finished rotation whose saved credential did not advance past the recorded revision. */
  predicate Stranded(d: Disk) {
    Cleaning(d) && d.rotation.value.previousCredentialRevision == d.credential.value.revision
  }

  /** A legacy key whose redrawn encryption key is not the one on record. */
  predicate LostLegacySource(d: Disk, a: Attempt) {
    Recorded(d) && d.key.value.Egbkey1? && d.rotation.value.oldEncryption != Sha256(a.legacyEncryption)
  }

  /** A rotation may begin: nothing is bound and the generation counter is not exhausted. */
  predicate MayBegin(d: Disk) {
    Idle(d) ==> d.binding.Missing? && d.key.value.generation < U64_MAX
  }

  // ---------------------------------------------------------------- what an attempt plans in each phase

  function CurrentOf(d: Disk, a: Attempt): Identity
    requires Enrolled(d)
  {
    var c := d.credential.value;
    DecodeIdentity(d.key.value, c.deviceId, c.releaseProfile, c.credentialProfile, a.legacyEncryption).value
  }

  function PendingOf(d: Disk): Identity
    requires Enrolled(d) && d.pendingKey.Holds? && d.pendingKey.value.Egbkey2?
  {
    var c := d.credential.value;
    var k := d.pendingKey.value;
    Identity(c.deviceId, k.signing, k.encryption, k.generation, c.releaseProfile, c.credentialProfile, false)
  }

  lemma IdlePlan(d: Disk, a: Attempt)
    requires Idle(d)
    ensures MayBegin(d) ==>
      Prepare(d, a) == (
        var current := CurrentOf(d, a);
        var next := NextIdentity(current, a).value;
        Ok(Submit(current, next, RecordFor(current, next, d.credential.value.revision, a),
                  d.credential.value, true, true)))
    ensures !MayBegin(d) ==> Prepare(d, a).Err?
  {}

  lemma KeyedPlan(d: Disk, a: Attempt)
    requires Keyed(d)
    ensures Prepare(d, a) == (
        var current := CurrentOf(d, a);
        var next := PendingOf(d);
        Ok(Submit(current, next, RecordFor(current, next, d.credential.value.revision, a),
                  d.credential.value, false, true)))
  {}

  lemma RecordedPlan(d: Disk, a: Attempt)
    requires Recorded(d)
    ensures LostLegacySource(d, a) ==> Prepare(d, a) == Err(RotationConflict)
    ensures !LostLegacySource(d, a) ==>
      Prepare(d, a) == Ok(Submit(CurrentOf(d, a), PendingOf(d), d.rotation.value, d.credential.value, false, false))
  {}

  lemma InstalledPlan(d: Disk, a: Attempt)
    requires Installed(d)
    ensures CurrentOf(d, a) == PendingOf(d)
    ensures Prepare(d, a) == Ok(Submit(PendingOf(d), PendingOf(d), d.rotation.value, d.credential.value, false, false))
  {}

  lemma CleaningPlan(d: Disk, a: Attempt)
    requires Cleaning(d)
    ensures Prepare(d, a) == if Stranded(d) then Err(RotationConflict) else Ok(OnlyRecordLeft)
  {}

  // ---------------------------------------------------------------- one attempt keeps the protocol in phase

  /** A credential the commit may save over the one on disk. */
  predicate Succeeds(d: Disk, c: Credential)
    requires Enrolled(d) && d.rotation.Holds?
  {
    var old_ := d.credential.value;
    && c.revision > 0 && c.expiresAt > 0
    && c.deviceId == old_.deviceId && c.releaseProfile == old_.releaseProfile
    && c.credentialProfile == old_.credentialProfile
    && d.rotation.value.previousCredentialRevision <= c.revision
  }

  /** The generation the rotation in progress started from. */
  function BaseGeneration(d: Disk): nat
    requires Enrolled(d)
  {
    if d.rotation.Holds? then d.rotation.value.currentGeneration else d.key.value.generation
  }

  /** Every prefix of the six commit steps leaves a disk some phase recovers from. */
  lemma CommitKeepsPhase(d: Disk, c: Credential, k: nat)
    requires Recorded(d) || Installed(d)
    requires k <= 2 || (k <= 6 && Succeeds(d, c))
    ensures var d' := CommitStage(d, PendingOf(d), c, k);
      && (k == 0 ==> d' == d)
      && (1 <= k <= 4 ==> Installed(d'))
      && (k == 5 ==> Cleaning(d'))
      && (k == 6 ==> Idle(d') && d'.binding.Missing? && d'.key == d.pendingKey && d'.credential == Holds(c))
  {}

  /** The disk just before a request is always a recorded or an installed one. */
  lemma SubmitIsRecorded(d: Disk, a: Attempt)
    requires InPhase(d) && Prepare(d, a).Ok? && Prepare(d, a).value.Submit?
    ensures var p := Prepare(d, a).value;
      var ready := PrepareStage(d, p, PrepareSteps(p));
      && (Recorded(ready) || Installed(ready))
      && p.next == PendingOf(ready) && ready.rotation == Holds(p.record)
      && ready.key == d.key && ready.credential == d.credential && p.previous == d.credential.value
      && (d.rotation.Holds? ==> ready == d)
      && (SameKeys(p.current, p.next) ==> Installed(d))
    ensures var p := Prepare(d, a).value;
      forall k: nat :: k < PrepareSteps(p) ==>
        InPhase(PrepareStage(d, p, k)) && PrepareStage(d, p, k).rotation == d.rotation
  {
    if Idle(d) { IdlePlan(d, a); }
    else if Keyed(d) { KeyedPlan(d, a); }
    else if Recorded(d) { RecordedPlan(d, a); }
    else if Installed(d) { InstalledPlan(d, a); }
    else { CleaningPlan(d, a); }
  }

  lemma AcceptedSucceeds(d: Disk, a: Attempt)
    requires InPhase(d) && Prepare(d, a).Ok? && Prepare(d, a).value.Submit?
    requires AcceptReply(a, Prepare(d, a).value).Ok? && Storable(a.reply)
    ensures var p := Prepare(d, a).value;
      var ready := PrepareStage(d, p, PrepareSteps(p));
      Enrolled(ready) && ready.rotation.Holds? && Succeeds(ready, AcceptReply(a, p).value)
  {
    SubmitIsRecorded(d, a);
  }

  // ---------------------------------------------------------------- one target per rotation

  /** The record and the request name the same key, generation and operation. */
  predicate SameTicket(r: PendingRotation, q: Request) {
    && r.targetSigning == Sha256(q.signing) && r.targetEncryption == Sha256(q.encryption)
    && r.targetGeneration == q.generation && r.idempotencyKey == q.idempotencyKey
  }

  function KeyOf(q: Request): KeyFile {
    Egbkey2(q.generation, q.signing, q.encryption)
  }

  predicate Completes(d: Disk, a: Attempt) {
    ReportOf(d, a).outcome.Pass?
  }

  /** What any attempt keeps, whatever the crash point and whatever the server answers. */
  predicate AttemptSafe(d: Disk, a: Attempt)
    requires InPhase(d)
  {
    var report := ReportOf(d, a);
    var d' := report.disk;
    && InPhase(d')
    && (d.rotation.Holds? && !Completes(d, a) ==> d'.rotation == d.rotation)
    && (report.request.Some? ==>
          && (d.rotation.Holds? ==> SameTicket(d.rotation.value, report.request.value))
          && (!Completes(d, a) ==> d'.rotation.Holds? && SameTicket(d'.rotation.value, report.request.value)))
    && (d'.key == d.key || (report.request.Some? && d'.key == Holds(KeyOf(report.request.value))))
    && BaseGeneration(d') == BaseGeneration(d) + (if Completes(d, a) then 1 else 0)
    && d.key.value.generation <= d'.key.value.generation
    && BaseGeneration(d') <= d'.key.value.generation <= BaseGeneration(d') + 1
  }

  lemma EveryAttemptIsSafe(d: Disk, a: Attempt)
    requires InPhase(d)
    ensures AttemptSafe(d, a)
  {
    match Prepare(d, a) {
      case Err(_) =>
      case Ok(OnlyRecordLeft) => OnlyRecordLeftIsSafe(d, a);
      case Ok(p) =>
        if a.budget < PrepareSteps(p) {
          StoppedEarlyIsSafe(d, a);
        } else if a.delivery.Delivered? && AcceptReply(a, p).Ok? {
          CommitIsSafe(d, a);
        } else {
          UnansweredIsSafe(d, a);
        }
    }
  }

  lemma StoppedEarlyIsSafe(d: Disk, a: Attempt)
    requires InPhase(d) && Prepare(d, a).Ok? && Prepare(d, a).value.Submit?
    requires a.budget < PrepareSteps(Prepare(d, a).value)
    ensures AttemptSafe(d, a)
  {
    SubmitIsRecorded(d, a);
    assert InPhase(PrepareStage(d, Prepare(d, a).value, a.budget));
  }

  lemma UnansweredIsSafe(d: Disk, a: Attempt)
    requires InPhase(d) && Prepare(d, a).Ok? && Prepare(d, a).value.Submit?
    requires var p := Prepare(d, a).value;
      a.budget >= PrepareSteps(p) && (!a.delivery.Delivered? || AcceptReply(a, p).Err?)
    ensures AttemptSafe(d, a)
  {
    var p := Prepare(d, a).value;
    SubmitIsRecorded(d, a);
    assert InPhase(PrepareStage(d, p, PrepareSteps(p)));
  }

  lemma OnlyRecordLeftIsSafe(d: Disk, a: Attempt)
    requires InPhase(d) && Prepare(d, a) == Ok(OnlyRecordLeft)
    ensures AttemptSafe(d, a) && Cleaning(d)
    ensures a.budget > 0 ==> Idle(ReportOf(d, a).disk)
  {
    if Idle(d) { IdlePlan(d, a); }
    else if Keyed(d) { KeyedPlan(d, a); }
    else if Recorded(d) { RecordedPlan(d, a); }
    else if Installed(d) { InstalledPlan(d, a); }
  }

  /** The generation bookkeeping of every commit prefix. */
  lemma CommitGenerations(d: Disk, c: Credential, k: nat)
    requires Recorded(d) || Installed(d)
    requires k <= 2 || (k <= 6 && Succeeds(d, c))
    ensures var d' := CommitStage(d, PendingOf(d), c, k);
      && InPhase(d')
      && BaseGeneration(d') == BaseGeneration(d) + (if k == 6 then 1 else 0)
      && d.key.value.generation <= d'.key.value.generation
      && BaseGeneration(d') <= d'.key.value.generation <= BaseGeneration(d') + 1
  {
    CommitKeepsPhase(d, c, k);
  }

  lemma CommitIsSafe(d: Disk, a: Attempt)
    requires InPhase(d) && Prepare(d, a).Ok? && Prepare(d, a).value.Submit?
    requires var p := Prepare(d, a).value;
      a.budget >= PrepareSteps(p) && a.delivery.Delivered? && AcceptReply(a, p).Ok?
    ensures AttemptSafe(d, a)
  {
    var p := Prepare(d, a).value;
    var ready := PrepareStage(d, p, PrepareSteps(p));
    var k := CommitSteps(Storable(a.reply), a.budget - PrepareSteps(p));
    var c := AcceptReply(a, p).value;
    SubmitIsRecorded(d, a);
    if Storable(a.reply) { AcceptedSucceeds(d, a); }
    CommitGenerations(ready, c, k);
    assert BaseGeneration(ready) == BaseGeneration(d);
    assert ReportOf(d, a) == Report(CommitStage(ready, p.next, c, k),
                                    CommitOutcome(Storable(a.reply), a.budget - PrepareSteps(p)),
                                    Some(RequestOf(p)));
  }

  // ---------------------------------------------------------------- whole runs

  function RunDisk(d: Disk, run: seq<Attempt>): Disk
    decreases |run|
  {
    if run == [] then d else RunDisk(ReportOf(d, run[0]).disk, run[1..])
  }

  /** The requests a run sent, in order. */
  function Requests(d: Disk, run: seq<Attempt>): seq<Request>
    decreases |run|
  {
    if run == [] then []
    else
      var report := ReportOf(d, run[0]);
      (if report.request.Some? then [report.request.value] else []) + Requests(report.disk, run[1..])
  }

  function Completions(d: Disk, run: seq<Attempt>): nat
    decreases |run|
  {
    if run == [] then 0
    else (if Completes(d, run[0]) then 1 else 0) + Completions(ReportOf(d, run[0]).disk, run[1..])
  }

  /** The installed generation tracks the number of completed rotations exactly. */
  lemma {:induction false} GenerationsCountRotations(d: Disk, run: seq<Attempt>)
    requires InPhase(d)
    ensures var d' := RunDisk(d, run);
      && InPhase(d')
      && d.key.value.generation <= d'.key.value.generation
      && BaseGeneration(d') == BaseGeneration(d) + Completions(d, run)
      && BaseGeneration(d') <= d'.key.value.generation <= BaseGeneration(d') + 1
    decreases |run|
  {
    EveryAttemptIsSafe(d, if run == [] then Idler() else run[0]);
    if run != [] {
      GenerationsCountRotations(ReportOf(d, run[0]).disk, run[1..]);
    }
  }

  /** An attempt that stops before its first durable step. */
  function Idler(): Attempt {
    Attempt(0, "", "", "", "", 0, Unsent, Reply(false, false, "", "", 0, 0))
  }

  lemma {:induction false} RecordOutlastsRun(d: Disk, run: seq<Attempt>)
    requires InPhase(d) && d.rotation.Holds? && Completions(d, run) == 0
    ensures InPhase(RunDisk(d, run)) && RunDisk(d, run).rotation == d.rotation
    decreases |run|
  {
    if run != [] {
      EveryAttemptIsSafe(d, run[0]);
      RecordOutlastsRun(ReportOf(d, run[0]).disk, run[1..]);
    }
  }

  /** Whatever an uncompleted run sent is what the record it leaves behind names. */
  lemma {:induction false} RequestsFollowRecord(d: Disk, run: seq<Attempt>)
    requires InPhase(d) && Completions(d, run) == 0
    ensures var d' := RunDisk(d, run);
      InPhase(d') && forall q :: q in Requests(d, run) ==> d'.rotation.Holds? && SameTicket(d'.rotation.value, q)
    decreases |run|
  {
    if run != [] {
      var report := ReportOf(d, run[0]);
      EveryAttemptIsSafe(d, run[0]);
      RequestsFollowRecord(report.disk, run[1..]);
      if report.request.Some? { RecordOutlastsRun(report.disk, run[1..]); }
    }
  }

  lemma {:induction false} RunAppend(d: Disk, run: seq<Attempt>, last: Attempt)
    ensures RunDisk(d, run + [last]) == ReportOf(RunDisk(d, run), last).disk
    decreases |run|
  {
    if run == [] {
      assert [] + [last] == [last] && [last][1..] == [];
    } else {
      assert (run + [last])[1..] == run[1..] + [last];
      RunAppend(ReportOf(d, run[0]).disk, run[1..], last);
    }
  }

  function SentBy(d: Disk, a: Attempt): seq<Request> {
    var q := ReportOf(d, a).request;
    if q.Some? then [q.value] else []
  }

  lemma {:induction false} RequestsAppend(d: Disk, run: seq<Attempt>, last: Attempt)
    ensures Requests(d, run + [last]) == Requests(d, run) + SentBy(RunDisk(d, run), last)
    decreases |run|
  {
    if run == [] {
      assert [] + [last] == [last] && [last][1..] == [];
    } else {
      assert (run + [last])[1..] == run[1..] + [last];
      RequestsAppend(ReportOf(d, run[0]).disk, run[1..], last);
    }
  }

  /** An attempt that completes leaves the key it asked for, and the one on record. */
  lemma CompletionInstalls(d: Disk, a: Attempt)
    requires InPhase(d) && Completes(d, a)
    ensures var report := ReportOf(d, a);
      && report.disk.key.Holds?
      && (report.request.Some? ==> report.disk.key == Holds(KeyOf(report.request.value)))
      && (d.rotation.Holds? ==> TargetKey(d.rotation.value, report.disk.key.value))
  {
    if Prepare(d, a).value.Submit? {
      SubmitIsRecorded(d, a);
    } else {
      OnlyRecordLeftIsSafe(d, a);
    }
  }

  predicate AllSame(sent: seq<Request>) {
    forall q, q' :: q in sent && q' in sent ==> q == q'
  }

  /** The installed key is the one every request asked for. */
  predicate InstalledAsSent(d: Disk, sent: seq<Request>) {
    forall q :: q in sent ==> d.key == Holds(KeyOf(q))
  }

  /** The installed key is the old one or one that was asked for. */
  predicate OldOrSent(d: Disk, d': Disk, sent: seq<Request>) {
    d'.key == d.key || exists q :: q in sent && d'.key == Holds(KeyOf(q))
  }

  /** The record ties the next attempt's request to all that were sent before it. */
  predicate Follow(d: Disk, sent: seq<Request>) {
    forall q :: q in sent ==> d.rotation.Holds? && SameTicket(d.rotation.value, q)
  }

  lemma OneTicket(d: Disk, a: Attempt, sent: seq<Request>)
    requires InPhase(d) && Follow(d, sent)
    ensures AllSame(sent + SentBy(d, a))
  {
    EveryAttemptIsSafe(d, a);
    forall q, q' | q in sent + SentBy(d, a) && q' in sent + SentBy(d, a) ensures q == q' {
      if d.rotation.Holds? {
        assert SameTicket(d.rotation.value, q) && SameTicket(d.rotation.value, q');
      } else {
        assert q in SentBy(d, a) && q' in SentBy(d, a);
      }
    }
  }

  lemma CompletionLeavesTicket(d: Disk, a: Attempt, sent: seq<Request>)
    requires InPhase(d) && Follow(d, sent) && Completes(d, a)
    ensures InstalledAsSent(ReportOf(d, a).disk, sent + SentBy(d, a))
  {
    CompletionInstalls(d, a);
  }

  lemma RunsShareTicket(d: Disk, run: seq<Attempt>, last: Attempt)
    requires InPhase(d) && Completions(d, run) == 0
    ensures AllSame(Requests(d, run + [last]))
  {
    RequestsFollowRecord(d, run);
    RequestsAppend(d, run, last);
    OneTicket(RunDisk(d, run), last, Requests(d, run));
  }

  lemma CompletingRunInstalls(d: Disk, run: seq<Attempt>, last: Attempt)
    requires InPhase(d) && Completions(d, run) == 0 && Completes(RunDisk(d, run), last)
    ensures InstalledAsSent(RunDisk(d, run + [last]), Requests(d, run + [last]))
  {
    RequestsFollowRecord(d, run);
    RunAppend(d, run, last);
    RequestsAppend(d, run, last);
    CompletionLeavesTicket(RunDisk(d, run), last, Requests(d, run));
  }

  /**
    One rotation has one target.  Through any interrupted attempts and the one
    after them, completing or not, every request carries the same key, generation
    and idempotency key; the attempt that completes leaves exactly the requested
    key installed, and until then the installed key is the old one or that one.
   */
  lemma RotationHasOneTarget(d: Disk, run: seq<Attempt>, last: Attempt)
    requires InPhase(d) && Completions(d, run) == 0
    ensures var sent := Requests(d, run + [last]);
      var d' := RunDisk(d, run + [last]);
      && AllSame(sent) && OldOrSent(d, d', sent)
      && (Completes(RunDisk(d, run), last) ==> InstalledAsSent(d', sent))
  {
    RunsShareTicket(d, run, last);
    KeyIsOldOrRequested(d, run + [last]);
    if Completes(RunDisk(d, run), last) { CompletingRunInstalls(d, run, last); }
  }

  lemma {:induction false} KeyIsOldOrRequested(d: Disk, run: seq<Attempt>)
    requires InPhase(d)
    ensures OldOrSent(d, RunDisk(d, run), Requests(d, run))
    decreases |run|
  {
    if run != [] {
      var report := ReportOf(d, run[0]);
      EveryAttemptIsSafe(d, run[0]);
      KeyIsOldOrRequested(report.disk, run[1..]);
      if RunDisk(d, run).key == report.disk.key {
        if report.disk.key != d.key { assert report.request.value in Requests(d, run); }
      } else {
        var q :| q in Requests(report.disk, run[1..]) && RunDisk(d, run).key == Holds(KeyOf(q));
        assert q in Requests(d, run);
      }
    }
  }

  // ---------------------------------------------------------------- convergence

  /** The control plane gives one acceptable, advancing answer per idempotency key. */
  predicate Honest(answer: string -> Reply, d: Disk, a: Attempt) {
    match Prepare(d, a)
    case Ok(Submit(_, _, record, _, _, _)) =>
      && a.reply == answer(record.idempotencyKey)
      && a.reply.echoesRequest && Storable(a.reply)
      && a.reply.revision > record.previousCredentialRevision
    case _ => true
  }

  /** The stored credential is the recorded one or the answer to the recorded request. */
  predicate Answered(answer: string -> Reply, d: Disk)
    requires InPhase(d)
  {
    d.rotation.Holds? ==>
      var r := d.rotation.value;
      var reply := answer(r.idempotencyKey);
      && reply.revision > r.previousCredentialRevision
      && (Recorded(d) && !Installed(d) ==> d.credential.value.revision == r.previousCredentialRevision)
      && (Installed(d) ==> d.credential.value.revision in {r.previousCredentialRevision, reply.revision})
      && (Cleaning(d) ==> d.credential.value.revision == reply.revision)
  }

  /** Nothing interrupts the attempt: up to eight durable steps and a delivered reply. */
  predicate Uninterrupted(a: Attempt) {
    a.budget >= 8 && a.delivery.Delivered?
  }

  /** The end state the command promises. */
  predicate Rotated(d: Disk, target: KeyFile, recordedRevision: u64) {
    && d.key == Holds(target)
    && d.credential.Holds? && d.credential.value.revision > recordedRevision
    && d.binding.Missing? && d.pendingKey.Missing? && d.rotation.Missing?
  }

  /** The key the next uninterrupted attempt must end with. */
  function TargetOf(d: Disk, a: Attempt): KeyFile
    requires InPhase(d)
  {
    if d.pendingKey.Holds? then d.pendingKey.value
    else if d.rotation.Holds? || d.key.value.generation == U64_MAX then d.key.value
    else Egbkey2(d.key.value.generation + 1, a.drawnSigning, a.drawnEncryption)
  }

  function RecordedRevision(d: Disk): u64
    requires InPhase(d)
  {
    if d.rotation.Holds? then d.rotation.value.previousCredentialRevision else d.credential.value.revision
  }

  /** Exactly when an uninterrupted attempt finishes the rotation. */
  lemma CompletesExactlyWhen(answer: string -> Reply, d: Disk, a: Attempt)
    requires InPhase(d) && Answered(answer, d) && Honest(answer, d, a) && Uninterrupted(a)
    ensures Completes(d, a) <==> MayBegin(d) && !LostLegacySource(d, a)
    ensures Completes(d, a) ==> Rotated(ReportOf(d, a).disk, TargetOf(d, a), RecordedRevision(d))
    ensures !Completes(d, a) ==> ReportOf(d, a).disk == d
  {
    if Idle(d) { IdlePlan(d, a); }
    else if Keyed(d) { KeyedPlan(d, a); }
    else if Recorded(d) && !Installed(d) { RecordedPlan(d, a); }
    else if Installed(d) { InstalledPlan(d, a); }
    else { CleaningPlan(d, a); }
  }

  lemma ReadyIsAnswered(answer: string -> Reply, d: Disk, a: Attempt)
    requires InPhase(d) && Answered(answer, d) && Honest(answer, d, a)
    requires Prepare(d, a).Ok? && Prepare(d, a).value.Submit?
    ensures var p := Prepare(d, a).value;
      var ready := PrepareStage(d, p, PrepareSteps(p));
      InPhase(ready) && Answered(answer, ready)
  {
    SubmitIsRecorded(d, a);
    if Idle(d) { IdlePlan(d, a); }
    else if Keyed(d) { KeyedPlan(d, a); }
  }

  lemma CommitIsAnswered(answer: string -> Reply, d: Disk, c: Credential, k: nat)
    requires (Recorded(d) || Installed(d)) && Answered(answer, d) && Succeeds(d, c) && k <= 6
    requires c.revision == answer(d.rotation.value.idempotencyKey).revision
    ensures var d' := CommitStage(d, PendingOf(d), c, k);
      InPhase(d') && Answered(answer, d')
  {
    CommitKeepsPhase(d, c, k);
  }

  /** Interrupted attempts never lose the answer that recovery relies on. */
  lemma AnsweredKept(answer: string -> Reply, d: Disk, a: Attempt)
    requires InPhase(d) && Answered(answer, d) && Honest(answer, d, a)
    ensures InPhase(ReportOf(d, a).disk) && Answered(answer, ReportOf(d, a).disk)
  {
    match Prepare(d, a) {
      case Err(_) =>
      case Ok(OnlyRecordLeft) => OnlyRecordLeftIsSafe(d, a);
      case Ok(p) =>
        var steps := PrepareSteps(p);
        SubmitIsRecorded(d, a);
        ReadyIsAnswered(answer, d, a);
        if a.budget < steps {
          var d' := PrepareStage(d, p, a.budget);
          assert InPhase(d') && d'.rotation == d.rotation;
        } else if a.delivery.Delivered? && AcceptReply(a, p).Ok? {
          AcceptedSucceeds(d, a);
          CommitIsAnswered(answer, PrepareStage(d, p, steps), AcceptReply(a, p).value,
                           CommitSteps(Storable(a.reply), a.budget - steps));
        }
    }
  }

  predicate HonestRun(answer: string -> Reply, d: Disk, run: seq<Attempt>)
    decreases |run|
  {
    run != [] ==> Honest(answer, d, run[0]) && HonestRun(answer, ReportOf(d, run[0]).disk, run[1..])
  }

  lemma {:induction false} RunKeepsAnswered(answer: string -> Reply, d: Disk, run: seq<Attempt>)
    requires InPhase(d) && Answered(answer, d) && HonestRun(answer, d, run)
    ensures InPhase(RunDisk(d, run)) && Answered(answer, RunDisk(d, run))
    decreases |run|
  {
    if run != [] {
      AnsweredKept(answer, d, run[0]);
      RunKeepsAnswered(answer, ReportOf(d, run[0]).disk, run[1..]);
    }
  }

  /** A recorded rotation of a legacy key: something that can be read off the disk. */
  predicate LegacyInDoubt(d: Disk) {
    Recorded(d) && d.key.value.Egbkey1?
  }

  /** The key this attempt redraws is not the recorded one; random draws differ. */
  predicate DrawsAfresh(d: Disk, a: Attempt) {
    d.rotation.Holds? ==> d.rotation.value.oldEncryption != Sha256(a.legacyEncryption)
  }

  /**
    Convergence, exactly.  From every disk the protocol can be in and after any
    interrupted attempts, the next uninterrupted attempt finishes if and only if a
    rotation may begin and no redrawn legacy key contradicts the record.  It then
    installs the target key with a credential newer than the recorded one and
    leaves neither binding, pending key nor record; otherwise it changes nothing.
   */
  lemma RotationConverges(answer: string -> Reply, d: Disk, run: seq<Attempt>, last: Attempt)
    requires InPhase(d) && Answered(answer, d)
    requires HonestRun(answer, d, run) && Honest(answer, RunDisk(d, run), last) && Uninterrupted(last)
    ensures var before := RunDisk(d, run);
      var report := ReportOf(before, last);
      && InPhase(before)
      && (report.outcome.Pass? <==> MayBegin(before) && !LostLegacySource(before, last))
      && (DrawsAfresh(before, last) ==> (report.outcome.Pass? <==> MayBegin(before) && !LegacyInDoubt(before)))
      && (report.outcome.Pass? ==>
            && Rotated(report.disk, TargetOf(before, last), RecordedRevision(before))
            && report.disk.key.value.generation == BaseGeneration(d) + Completions(d, run) + 1
            && (Completions(d, run) == 0 ==> InstalledAsSent(report.disk, Requests(d, run + [last]))))
      && (report.outcome.Fail? ==> report.disk == before)
  {
    RunKeepsAnswered(answer, d, run);
    var before := RunDisk(d, run);
    CompletesExactlyWhen(answer, before, last);
    GenerationsCountRotations(d, run);
    EveryAttemptIsSafe(before, last);
    RunAppend(d, run, last);
    if Completes(before, last) && Completions(d, run) == 0 { CompletingRunInstalls(d, run, last); }
  }

  predicate Unbound(d: Disk) {
    Idle(d) ==> d.binding.Missing?
  }

  predicate ModernKey(d: Disk) {
    d.key.Holds? && d.key.value.Egbkey2?
  }

  lemma {:induction false} RunKeepsModern(d: Disk, run: seq<Attempt>)
    requires InPhase(d) && ModernKey(d) && Unbound(d)
    ensures var d' := RunDisk(d, run);
      InPhase(d') && ModernKey(d') && Unbound(d')
    decreases |run|
  {
    if run != [] {
      EveryAttemptIsSafe(d, run[0]);
      UnboundKept(d, run[0]);
      RunKeepsModern(ReportOf(d, run[0]).disk, run[1..]);
    }
  }

  /** A disk that returns to rest has no binding left over. */
  lemma UnboundKept(d: Disk, a: Attempt)
    requires InPhase(d) && Unbound(d)
    ensures Unbound(ReportOf(d, a).disk)
  {
    match Prepare(d, a) {
      case Err(_) =>
      case Ok(OnlyRecordLeft) => OnlyRecordLeftIsSafe(d, a);
      case Ok(p) => SubmitIsRecorded(d, a);
    }
  }

  /** From a self-contained key, unbound and with a generation to spare, rotation always converges. */
  lemma ModernRotationConverges(answer: string -> Reply, d: Disk, run: seq<Attempt>, last: Attempt)
    requires InPhase(d) && Answered(answer, d) && ModernKey(d) && Unbound(d)
    requires BaseGeneration(d) + Completions(d, run) < U64_MAX
    requires HonestRun(answer, d, run) && Honest(answer, RunDisk(d, run), last) && Uninterrupted(last)
    ensures ReportOf(RunDisk(d, run), last).outcome.Pass?
  {
    RunKeepsModern(d, run);
    GenerationsCountRotations(d, run);
    RotationConverges(answer, d, run, last);
  }

  // ---------------------------------------------------------------- where convergence fails

  /**
    A legacy key that is stopped between writing the record and installing the
    target is refused by every later attempt that redraws a different key: the
    disk never changes again.
   */
  lemma {:induction false} LegacyRotationNeverEnds(d: Disk, run: seq<Attempt>)
    requires Recorded(d) && d.key.value.Egbkey1?
    requires forall a :: a in run ==> d.rotation.value.oldEncryption != Sha256(a.legacyEncryption)
    ensures RunDisk(d, run) == d && Completions(d, run) == 0 && Requests(d, run) == []
    decreases |run|
  {
    if run != [] {
      assert run[0] in run;
      RecordedPlan(d, run[0]);
      LegacyRotationNeverEnds(d, run[1..]);
    }
  }

  /** A concrete disk, stopped attempt and retry that show the dead end is reached. */
  lemma LegacyRotationStrands()
    ensures exists d: Disk, stopped: Attempt, retry: Attempt ::
      && Idle(d) && MayBegin(d) && Uninterrupted(retry) && Storable(retry.reply) && retry.reply.echoesRequest
      && retry.reply.revision > d.credential.value.revision
      && LostLegacySource(ReportOf(d, stopped).disk, retry)
      && !Completes(ReportOf(d, stopped).disk, retry)
  {
    var c := Credential("device", "https://server", "egbc_1", "c1", "community-local-trust", "community_file", 10, 1);
    var d := Disk(Holds(Egbkey1(1, "old")), Missing, Holds(c), Missing, Missing, Missing, Missing);
    var stopped := Idler().(budget := 2, drawnSigning := "new", drawnEncryption := "newEnc",
      legacyEncryption := "first");
    var retry := Attempt(8, "x", "y", "z", "second", 0, Delivered, Reply(true, true, "egbc_2", "c2", 20, 2));
    IdlePlan(d, stopped);
    var d' := ReportOf(d, stopped).disk;
    assert d'.rotation.value.oldEncryption == Sha256("first");
    assert "first"[0] != "second"[0];
    RecordedPlan(d', retry);
    assert LostLegacySource(d', retry) && !Completes(d', retry);
  }
}
