/**
  The idempotent `ensure` command (crates/device-client/src/registration.rs:64-335)
  under crashes at any durable step and arbitrary server replies.

  `EnsureStep` is what one run guarantees about the disk it found and the disk it
  leaves; `EnsureDevice` is the command, proved to meet it from every disk.
 */
module Enrolment {
  import opened Wrappers
  import opened DeviceStore

  const COMMUNITY_PROFILE := "community-local-trust"
  const SUPPORTED_CREDENTIAL_PROFILE := "community_file"
  const FRESH_MARGIN_SECONDS: u64 := 300

  /** Arguments, clock samples, draws and replies of one run. */
  datatype Run = Run(
    server: Option<string>,
    releaseProfile: Option<string>,
    credentialProfile: Option<string>,
    reEnroll: bool,
    forceRefresh: bool,
    token: bool,
    loadedAt: u64,
    now: u64,
    ttl: u64,
    drawnDevice: string,
    drawnSigning: string,
    drawnEncryption: string,
    drawnRevivedKey: string,
    drawnOperationKey: string,
    legacyEncryption: string,
    metadataStorable: bool,
    inputsAvailable: bool,
    policyUpdate: bool,
    policyCommits: bool,
    reply: Option<Reply>)

  datatype Request = Request(deviceId: string, signing: string, encryption: string, generation: u64,
                             mode: EnrollmentMode, idempotencyKey: string)

  datatype Finish = AlreadyEnrolled | Registered

  predicate Expired(p: PendingRegistration, now: u64, ttl: u64) {
    p.createdAt + ttl > U64_MAX || now >= p.createdAt + ttl
  }

  /** The pending operation was opened for exactly this identity. */
  predicate Identifies(p: PendingRegistration, identity: Identity) {
    && p.deviceId == identity.deviceId && p.deviceGeneration == identity.generation
    && p.releaseProfile == identity.releaseProfile && p.credentialProfile == identity.credentialProfile
    && p.signing == Sha256(identity.signing) && p.encryption == Sha256(identity.encryption)
  }

  // ---------------------------------------------------------------- what a run found

  datatype Context = Context(
    pending: Option<PendingRegistration>,
    credential: Option<Credential>,
    metadata: Option<Metadata>,
    server: string,
    releaseProfile: string,
    credentialProfile: string)

  function LoadOptionalCredential(file: File<Credential>): Result<Option<Credential>, StoreError> {
    if file.Missing? then Ok(None) else
      var credential :- LoadForRotation(file);
      Ok(Some(credential))
  }

  function Or<T>(first: Option<T>, second: Option<T>): Option<T> {
    if first.Some? then first else second
  }

  function ContextOf(d: Disk, pending: Option<PendingRegistration>, run: Run): Result<Context, StoreError> {
    var credential :- LoadOptionalCredential(d.credential);
    var metadata :- ReadOptional(d.metadata);
    var fromCredential := if credential.Some? then Some(credential.value.serverUrl) else None;
    var fromPending := if pending.Some? then Some(pending.value.serverUrl) else None;
    var fromMetadata := if metadata.Some? then Some(metadata.value.serverUrl) else None;
    var server := Or(Or(run.server, fromPending), Or(fromCredential, fromMetadata));
    if server.None? then Err(FileMissing) else
      var release := Or(run.releaseProfile,
                        Or(if credential.Some? then Some(credential.value.releaseProfile) else None,
                           if metadata.Some? then Some(metadata.value.releaseProfile) else None));
      var profile := Or(run.credentialProfile, if metadata.Some? then Some(metadata.value.credentialProfile) else None);
      var c := Context(pending, credential, metadata, server.value,
                       if release.Some? then release.value else COMMUNITY_PROFILE,
                       if profile.Some? then profile.value else SUPPORTED_CREDENTIAL_PROFILE);
      if c.credentialProfile != SUPPORTED_CREDENTIAL_PROFILE then Err(CompatibilityMismatch)
      else if pending.None? && RequestedContext(c).Fail? then Err(RequestedContext(c).error)
      else Ok(c)
  }

  /** The requested origin and profiles must be those of any stored identity. */
  function RequestedContext(c: Context): Outcome<StoreError> {
    if (c.credential.Some? && c.credential.value.serverUrl != c.server)
       || (c.metadata.Some? && c.metadata.value.serverUrl != c.server)
    then Fail(OriginConflict)
    else if (c.credential.Some? && (c.credential.value.releaseProfile != c.releaseProfile
                                    || c.credential.value.credentialProfile != c.credentialProfile))
            || (c.metadata.Some? && (c.metadata.value.releaseProfile != c.releaseProfile
                                     || c.metadata.value.credentialProfile != c.credentialProfile))
    then Fail(CompatibilityMismatch)
    else Pass
  }

  predicate CredentialIsCurrent(c: Credential, identity: Identity, server: string, now: u64) {
    && c.deviceId == identity.deviceId && c.serverUrl == server
    && c.releaseProfile == identity.releaseProfile && c.credentialProfile == identity.credentialProfile
    && c.expiresAt > SatAdd(now, FRESH_MARGIN_SECONDS)
  }

  /** The identity the run speaks for: recovered, or drawn when the directory holds none. */
  function ChosenIdentity(d: Disk, c: Context, run: Run): Result<Identity, StoreError> {
    if c.pending.Some? then
      var p := c.pending.value;
      var identity :- LoadIdentity(d.key, p.deviceId, p.releaseProfile, p.credentialProfile, run.legacyEncryption);
      if p.serverUrl != c.server then Err(OriginConflict)
      else if !Identifies(p, identity) then Err(FileMalformed)
      else Ok(identity)
    else if c.credential.Some? then
      LoadIdentity(d.key, c.credential.value.deviceId, c.releaseProfile, c.credential.value.credentialProfile,
                   run.legacyEncryption)
    else if c.metadata.Some? then
      LoadIdentity(d.key, c.metadata.value.deviceId, c.metadata.value.releaseProfile,
                   c.metadata.value.credentialProfile, run.legacyEncryption)
    else if !d.key.Missing? then Err(FileMalformed)
    else Ok(Identity(run.drawnDevice, run.drawnSigning, run.drawnEncryption, 1,
                     c.releaseProfile, c.credentialProfile, false))
  }

  predicate DrawsIdentity(c: Context) {
    c.pending.None? && c.credential.None? && c.metadata.None?
  }

  /** The re-enroll branch: the only one that gives a pending operation a new key. */
  predicate Revives(p: PendingRegistration, run: Run) {
    Expired(p, run.now, run.ttl) || (run.reEnroll && p.mode.Ensure?)
  }

  // ---------------------------------------------------------------- what one run guarantees

  predicate IdentityKept(before: Disk, after: Disk) {
    && (!before.key.Missing? ==> after.key == before.key)
    && (after.key != before.key ==>
          before.credential.Missing? && before.metadata.Missing? && before.registration.Missing?)
    && after.binding == before.binding && after.pendingKey == before.pendingKey && after.rotation == before.rotation
  }

  predicate CredentialAdvances(before: Disk, after: Disk) {
    after.credential == before.credential
    || (after.credential.Holds?
        && (before.credential.Missing?
            || (before.credential.Holds? && before.credential.value.revision < after.credential.value.revision)))
  }

  /** Nothing but the note of its last error differs. */
  predicate SameRecord(p: PendingRegistration, q: PendingRegistration) {
    p.(lastError := None) == q.(lastError := None)
  }

  /** The run may give the operation it found a new key: explicit re-enroll, with a token. */
  predicate MayRevive(d: Disk, run: Run) {
    d.registration.Holds? && run.reEnroll && run.token && Revives(d.registration.value, run)
  }

  /** A pending operation stays what it is, except for the re-enroll branch. */
  predicate OperationKept(before: Disk, after: Disk, run: Run) {
    before.registration.Holds? && after.registration.Holds? ==>
      || SameRecord(after.registration.value, before.registration.value)
      || (MayRevive(before, run) && SameRecord(after.registration.value, Revived(before.registration.value, run)))
  }

  /** What is sent, also by a run that succeeds: the operation found, revived or newly opened. */
  predicate OperationSent(before: Disk, run: Run, request: Option<Request>) {
    request.Some? ==>
      if before.registration.Holds? then
        Names(if MayRevive(before, run) then Revived(before.registration.value, run) else before.registration.value,
              request.value)
      else request.value.idempotencyKey == run.drawnOperationKey
  }

  predicate Names(p: PendingRegistration, q: Request) {
    && p.deviceId == q.deviceId && p.signing == Sha256(q.signing) && p.encryption == Sha256(q.encryption)
    && p.deviceGeneration == q.generation && p.idempotencyKey == q.idempotencyKey && p.mode == q.mode
  }

  /** Whatever was sent is recorded until the run succeeds, and speaks for the key on disk. */
  predicate RequestRecorded(after: Disk, r: Result<Finish, StoreError>, request: Option<Request>) {
    request.Some? ==>
      && (r.Err? ==> after.registration.Holds? && Names(after.registration.value, request.value))
      && after.key.Holds?
      && after.key.value == Egbkey2(request.value.generation, request.value.signing, request.value.encryption)
  }

  /**
    The stored credential still serves: this device's, for the origin and profiles in
    force, good for more than five minutes, and nothing new was asked for.
   */
  predicate CredentialServes(before: Disk, after: Disk, run: Run)
    requires after.metadata.Holds?
  {
    var m := after.metadata.value;
    && before.credential.Holds?
    && before.credential.value.expiresAt > run.now + 300
    && before.credential.value.deviceId == m.deviceId && before.credential.value.serverUrl == m.serverUrl
    && before.credential.value.releaseProfile == m.releaseProfile
    && before.credential.value.credentialProfile == m.credentialProfile
    && !run.policyUpdate && !run.reEnroll && (before.registration.Holds? || !run.forceRefresh)
  }

  /** A successful run speaks for the origin that was asked for, or else the one already known. */
  predicate OriginHeld(before: Disk, after: Disk, run: Run)
    requires after.metadata.Holds?
  {
    var m := after.metadata.value;
    && (run.server.Some? ==> m.serverUrl == run.server.value)
    && (before.registration.Holds? ==> m.serverUrl == before.registration.value.serverUrl)
    && (before.registration.Missing? && before.credential.Holds? ==> m.serverUrl == before.credential.value.serverUrl)
    && (before.registration.Missing? && before.metadata.Holds? ==> m.serverUrl == before.metadata.value.serverUrl)
    && (before.registration.Missing? ==> m.credentialProfile == "community_file")
  }

  predicate FinishEarned(before: Disk, after: Disk, run: Run, r: Result<Finish, StoreError>, request: Option<Request>) {
    && (r.Ok? ==> after.registration.Missing? && after.credential.Holds? && after.metadata.Holds? && after.key.Holds?)
    && (r.Ok? ==> (r == Ok(AlreadyEnrolled) <==> CredentialServes(before, after, run)))
    && (r.Ok? ==> (request.None? <==> r == Ok(AlreadyEnrolled)))
    && (r == Ok(AlreadyEnrolled) ==> after.credential == before.credential)
    && (r == Ok(Registered) ==>
          && request.Some? && run.reply.Some?
          && run.reply.value.echoesRequest && run.reply.value.wellFormed && run.reply.value.revision > 0
          && after.credential.value == Credential(request.value.deviceId, after.metadata.value.serverUrl,
                                                  run.reply.value.token, run.reply.value.credentialId,
                                                  after.metadata.value.releaseProfile,
                                                  after.metadata.value.credentialProfile,
                                                  run.reply.value.expiresAt, run.reply.value.revision))
    && (before.registration.Holds? && r.Err? ==> after.registration.Holds?)
  }

  /** An expired operation is never used without an explicit re-enroll; a revived or new one is used as asked. */
  predicate OperationUsable(before: Disk, run: Run, request: Option<Request>) {
    request.Some? ==>
      && run.token && run.inputsAvailable
      && (before.registration.Holds? ==>
            && (run.now < before.registration.value.createdAt + run.ttl || run.reEnroll)
            && (request.value.mode == before.registration.value.mode || (run.reEnroll && request.value.mode.ReEnroll?)))
      && (before.registration.Missing? ==>
            request.value.mode == (if run.reEnroll then ReEnroll
                                   else if before.credential.Holds? || before.metadata.Holds? then EnrollmentMode.Ensure
                                   else Initial))
      && (before.key.Missing? ==>
            && request.value.deviceId == run.drawnDevice && request.value.generation == 1
            && request.value.signing == run.drawnSigning && request.value.encryption == run.drawnEncryption)
      && (before.registration.Missing? && before.credential.Holds? ==>
            request.value.deviceId == before.credential.value.deviceId)
  }

  predicate EnsureStep(before: Disk, after: Disk, run: Run, r: Result<Finish, StoreError>, request: Option<Request>) {
    && IdentityKept(before, after)
    && CredentialAdvances(before, after)
    && OperationKept(before, after, run)
    && OperationSent(before, run, request)
    && RequestRecorded(after, r, request)
    && FinishEarned(before, after, run, r, request)
  }

  /** An operation that has run out, or one merely ensured when re-enrolment is asked for, takes a new key. */
  predicate TakesNewKey(p: PendingRegistration, run: Run) {
    run.reEnroll && run.token
    && (run.now >= p.createdAt + run.ttl || p.createdAt + run.ttl > U64_MAX || p.mode.Ensure?)
  }

  /** A renewed operation differs in its key, mode, time and note, and in nothing else. */
  predicate Renewed(p: PendingRegistration, q: PendingRegistration, run: Run) {
    && q.idempotencyKey == run.drawnRevivedKey && q.mode.ReEnroll? && q.createdAt == run.now
    && q.(idempotencyKey := p.idempotencyKey, mode := p.mode, createdAt := p.createdAt, lastError := p.lastError) == p
  }

  /** A record left behind is the one found, that one renewed, or one opened now under the drawn operation key. */
  predicate RecordAsAsked(pending: Option<PendingRegistration>, q: PendingRegistration, key: File<KeyFile>, run: Run) {
    match pending
    case None =>
      && key.Holds? && key.value.Egbkey2? && q.deviceGeneration == key.value.generation
      && q.signing == Sha256(key.value.signing) && q.encryption == Sha256(key.value.encryption)
      && q.idempotencyKey == run.drawnOperationKey && q.createdAt == run.now && (q.mode.ReEnroll? <==> run.reEnroll)
    case Some(p) => q.(lastError := p.lastError) == p || (TakesNewKey(p, run) && Renewed(p, q, run))
  }

  /** A new operation is for the origin asked for, or the stored one, and for the device already known. */
  predicate OpenedForOrigin(before: Disk, q: PendingRegistration, run: Run) {
    && (run.server.Some? ==> q.serverUrl == run.server.value)
    && (run.releaseProfile.Some? ==> q.releaseProfile == run.releaseProfile.value)
    && (before.credential.Holds? ==>
          q.serverUrl == before.credential.value.serverUrl && q.deviceId == before.credential.value.deviceId)
    && (before.credential.Missing? && before.metadata.Holds? ==>
          q.serverUrl == before.metadata.value.serverUrl && q.deviceId == before.metadata.value.deviceId)
  }

  function KeyAsAsked(pending: Option<PendingRegistration>, run: Run): string {
    match pending
    case None => run.drawnOperationKey
    case Some(p) => if TakesNewKey(p, run) then run.drawnRevivedKey else p.idempotencyKey
  }

  /** The run did what its arguments and the disk it found call for, and nothing else. */
  predicate AsAsked(before: Disk, after: Disk, run: Run, r: Result<Finish, StoreError>, request: Option<Request>) {
    && (r.Ok? && after.metadata.Holds? ==> OriginHeld(before, after, run))
    && OperationUsable(before, run, request)
    && var pending := if before.registration.Holds? then Some(before.registration.value) else None;
       && (request.Some? ==> request.value.idempotencyKey == KeyAsAsked(pending, run))
       && (after.registration.Holds? && !before.registration.Malformed? ==>
             RecordAsAsked(pending, after.registration.value, after.key, run))
       && (after.registration.Holds? && before.registration.Missing? ==>
             OpenedForOrigin(before, after.registration.value, run))
  }

  // ---------------------------------------------------------------- when a run succeeds

  predicate SameProfiles(c: Context, identity: Identity) {
    identity.releaseProfile == c.releaseProfile && identity.credentialProfile == c.credentialProfile
  }

  /** A pending operation that must be revived may be. */
  predicate ResumeAllowed(c: Context, identity: Identity, run: Run) {
    c.pending.Some? && Revives(c.pending.value, run) ==>
      run.reEnroll && run.token && SameProfiles(c, identity) && RequestedContext(c).Pass?
  }

  /** The fresh-credential exit: nothing is asked of the server. */
  predicate ExitsEarly(c: Context, identity: Identity, run: Run) {
    && c.credential.Some? && CredentialIsCurrent(c.credential.value, identity, c.server, run.now)
    && !run.policyUpdate && !run.reEnroll && (c.pending.Some? || !run.forceRefresh)
  }

  predicate ReplyAccepted(c: Context, resumed: bool, identity: Identity, run: Run) {
    && run.reply.Some? && Storable(run.reply.value) && run.metadataStorable && (run.policyUpdate ==> run.policyCommits)
    && var recovery := resumed && run.policyUpdate;
       var candidate := CredentialFrom(run.reply.value, c.server, identity,
                                       if recovery || c.credential.None? then None
                                       else Some(c.credential.value.revision));
       candidate.Ok? && (recovery ==> ReplayedCredentialValid(c.credential, candidate.value))
  }

  /** Nothing but a crash keeps this run from succeeding. */
  predicate IdentityAdmitted(c: Context, identity: Identity, run: Run) {
    && (c.pending.None? ==> SameProfiles(c, identity)) && !identity.legacyEncryptionKey
    && ResumeAllowed(c, identity, run) && run.metadataStorable && run.inputsAvailable
    && (ExitsEarly(c, identity, run) || (run.token && ReplyAccepted(c, c.pending.Some?, identity, run)))
  }

  predicate Admitted(d: Disk, run: Run) {
    var pending := ReadOptional(d.registration);
    && pending.Ok? && (pending.value.Some? && Expired(pending.value.value, run.loadedAt, run.ttl) ==> run.reEnroll)
    && var c := ContextOf(d, pending.value, run);
       c.Ok? && ChosenIdentity(d, c.value, run).Ok?
         && IdentityAdmitted(c.value, ChosenIdentity(d, c.value, run).value, run)
  }

  /** Durable steps of a successful run once its identity is on disk. */
  function StepsFor(c: Context, identity: Identity, run: Run): nat {
    (if c.pending.Some? && Revives(c.pending.value, run) then 1 else 0) + 1
    + (if ExitsEarly(c, identity, run) then (if c.pending.Some? then 1 else 0) else (if c.pending.Some? then 3 else 4))
  }

  function StepsNeeded(d: Disk, run: Run): nat
    requires Admitted(d, run)
  {
    var c := ContextOf(d, ReadOptional(d.registration).value, run).value;
    (if DrawsIdentity(c) then 1 else 0) + StepsFor(c, ChosenIdentity(d, c, run).value, run)
  }

  // ---------------------------------------------------------------- the command

  /** Pending state, unless it expired without an explicit re-enroll. */
  method LoadPending(store: CredentialStore, run: Run) returns (r: Result<Option<PendingRegistration>, StoreError>)
    modifies store
    ensures r.Ok? ==> store.Snapshot() == old(store.Snapshot()) && store.budget == old(store.budget)
                      && r == ReadOptional(store.registration)
    ensures r.Err? <==>
      var found := ReadOptional(old(store.registration));
      found.Err? || (found.value.Some? && Expired(found.value.value, run.loadedAt, run.ttl) && !run.reEnroll)
    ensures r.Err? ==>
      store.Snapshot() == old(store.Snapshot())
      || (old(store.registration).Holds?
          && store.Snapshot() == old(store.Snapshot()).(
               registration := Holds(old(store.registration).value.(lastError := Some(PendingExpired)))))
  {
    var found :- ReadOptional(store.registration);
    if found.Some? && Expired(found.value, run.loadedAt, run.ttl) && !run.reEnroll {
      var _ := store.SavePendingRegistration(found.value.(lastError := Some(PendingExpired)));
      return Err(PendingExpired);
    }
    return Ok(found);
  }

  method EstablishIdentity(store: CredentialStore, c: Context, run: Run) returns (r: Result<Identity, StoreError>)
    modifies store
    ensures var chosen := ChosenIdentity(old(store.Snapshot()), c, run);
      if chosen.Ok? && DrawsIdentity(c) then
        && DurableStep(old(store.Snapshot()), old(store.budget),
                       old(store.Snapshot()).(key := Holds(EncodeIdentity(chosen.value))),
                       store.Snapshot(), store.budget, if r.Ok? then Pass else Fail(Stopped))
        && (r == chosen || r == Err(Stopped))
      else
        r == chosen && store.Snapshot() == old(store.Snapshot()) && store.budget == old(store.budget)
  {
    var identity :- ChosenIdentity(store.Snapshot(), c, run);
    if DrawsIdentity(c) {
      var saved := store.SaveIdentity(identity);
      if saved.Fail? { return Err(saved.error); }
    }
    return Ok(identity);
  }

  /** Explicit recovery: a new operation key for an identity that was just proved. */
  method ReviveOperation(store: CredentialStore, c: Context, identity: Identity, run: Run)
    returns (r: Result<Option<PendingRegistration>, StoreError>)
    requires c.pending.Some? ==> store.registration == Holds(c.pending.value)
    modifies store
    ensures store.Snapshot() == old(store.Snapshot())
            || (&& c.pending.Some? && run.reEnroll && run.token && Revives(c.pending.value, run)
                && store.Snapshot() == old(store.Snapshot()).(registration := Holds(Revived(c.pending.value, run))))
    ensures r.Ok? ==>
      && r.value == (if store.registration.Holds? && c.pending.Some? then Some(store.registration.value) else c.pending)
      && (c.pending.Some? ==> store.registration.Holds?)
      && store.budget == old(store.budget) - (if c.pending.Some? && Revives(c.pending.value, run) then 1 else 0)
    ensures r.Ok? ==>
      if c.pending.Some? && Revives(c.pending.value, run)
      then store.Snapshot() == old(store.Snapshot()).(registration := Holds(Revived(c.pending.value, run)))
      else store.Snapshot() == old(store.Snapshot())
    ensures r.Ok? <==>
      ResumeAllowed(c, identity, run) && (c.pending.Some? && Revives(c.pending.value, run) ==> old(store.budget) > 0)
  {
    if c.pending.None? || !Revives(c.pending.value, run) { return Ok(c.pending); }
    if !run.reEnroll { return Err(PendingExpired); }
    if !run.token { return Err(TokenRequired); }
    if identity.releaseProfile != c.releaseProfile || identity.credentialProfile != c.credentialProfile {
      return Err(CompatibilityMismatch);
    }
    var requested := RequestedContext(c);
    if requested.Fail? { return Err(requested.error); }
    var revived := Revived(c.pending.value, run);
    var saved := store.SavePendingRegistration(revived);
    if saved.Fail? { return Err(saved.error); }
    return Ok(Some(revived));
  }

  function Revived(p: PendingRegistration, run: Run): PendingRegistration {
    p.(mode := ReEnroll, idempotencyKey := run.drawnRevivedKey, createdAt := run.now, lastError := None)
  }

  function NewOperation(c: Context, identity: Identity, run: Run): PendingRegistration {
    PendingRegistration(identity.deviceId, identity.generation, c.server, identity.releaseProfile,
                        identity.credentialProfile, ModeOf(c, run), Sha256(identity.signing),
                        Sha256(identity.encryption), run.drawnOperationKey, run.now, None)
  }

  function ModeOf(c: Context, run: Run): EnrollmentMode {
    if run.reEnroll then ReEnroll
    else if c.credential.Some? || c.metadata.Some? then EnrollmentMode.Ensure
    else Initial
  }

  /** A candidate may repeat the stored credential exactly, never fall behind it. */
  predicate ReplayedCredentialValid(previous: Option<Credential>, candidate: Credential) {
    previous.Some? ==>
      previous.value.revision <= candidate.revision
      && (candidate.revision == previous.value.revision ==> candidate == previous.value)
  }

  /** The exchange with the control plane and the steps that follow it. */
  method Exchange(store: CredentialStore, c: Context, resumed: bool, operation: PendingRegistration,
                  identity: Identity, run: Run)
    returns (r: Result<Finish, StoreError>)
    requires store.registration == Holds(operation)
    requires c.credential == (if store.credential.Holds? then Some(store.credential.value) else None)
    requires !store.credential.Malformed?
    modifies store
    ensures store.key == old(store.key) && store.binding == old(store.binding)
            && store.pendingKey == old(store.pendingKey) && store.rotation == old(store.rotation)
    ensures CredentialAdvances(old(store.Snapshot()), store.Snapshot())
    ensures r.Ok? <==> ReplyAccepted(c, resumed, identity, run) && old(store.budget) >= 3
    ensures r.Err? ==> store.registration.Holds? && SameRecord(store.registration.value, operation)
    ensures r.Ok? ==>
      && r == Ok(Registered) && store.registration.Missing? && run.reply.Some?
      && store.metadata == Holds(MetadataOf(identity, c.server))
      && run.reply.value.echoesRequest && run.reply.value.wellFormed && run.reply.value.revision > 0
      && store.credential == Holds(Credential(identity.deviceId, c.server, run.reply.value.token,
                                              run.reply.value.credentialId, identity.releaseProfile,
                                              identity.credentialProfile, run.reply.value.expiresAt,
                                              run.reply.value.revision))
  {
    if run.reply.None? {
      var _ := store.SavePendingRegistration(operation.(lastError := Some(NetworkFailure)));
      return Err(NetworkFailure);
    }
    var recovery := resumed && run.policyUpdate;
    var previous := if recovery || c.credential.None? then None else Some(c.credential.value.revision);
    var credential :- CredentialFrom(run.reply.value, c.server, identity, previous);
    if recovery && !ReplayedCredentialValid(c.credential, credential) { return Err(CompatibilityMismatch); }
    var saved := store.Save(credential, Storable(run.reply.value));
    if saved.Fail? { return Err(saved.error); }
    if run.policyUpdate && !run.policyCommits { return Err(LocalInputsUnavailable); }
    saved := store.SaveIdentityMetadata(identity, c.server, run.metadataStorable);
    if saved.Fail? { return Err(saved.error); }
    saved := store.ClearPendingRegistration();
    if saved.Fail? { return Err(saved.error); }
    return Ok(Registered);
  }

  /** The pending operation of this run: the resumed one, or a new one made durable first. */
  method OpenOperation(store: CredentialStore, c: Context, pending: Option<PendingRegistration>, identity: Identity,
                       run: Run)
    returns (r: Result<PendingRegistration, StoreError>)
    requires pending.Some? ==> store.registration == Holds(pending.value)
    modifies store
    ensures pending.Some? ==>
      && store.Snapshot() == old(store.Snapshot()) && store.budget == old(store.budget)
      && r == (if Identifies(pending.value, identity) then Ok(pending.value) else Err(FileMalformed))
    ensures pending.None? ==>
      && DurableStep(old(store.Snapshot()), old(store.budget),
                     old(store.Snapshot()).(registration := Holds(NewOperation(c, identity, run))),
                     store.Snapshot(), store.budget, if r.Ok? then Pass else Fail(Stopped))
      && (r == Ok(NewOperation(c, identity, run)) || r == Err(Stopped))
  {
    if pending.Some? {
      if !Identifies(pending.value, identity) { return Err(FileMalformed); }
      return Ok(pending.value);
    }
    var operation := NewOperation(c, identity, run);
    var saved := store.SavePendingRegistration(operation);
    if saved.Fail? { return Err(saved.error); }
    return Ok(operation);
  }

  /** What is sent and what is stored are this identity's, under this origin. */
  predicate SpeaksFor(identity: Identity, c: Context, run: Run, after: Disk, r: Result<Finish, StoreError>,
                      request: Option<Request>)
  {
    && (r.Ok? ==> after.metadata == Holds(Metadata(identity.deviceId, c.server, identity.releaseProfile,
                                                   identity.credentialProfile)))
    && (r.Ok? || request.Some? ==> c.pending.Some? || SameProfiles(c, identity))
    && (after.registration.Holds? ==> RecordAsAsked(c.pending, after.registration.value, after.key, run))
    && (after.registration.Holds? && c.pending.None? ==>
          && after.registration.value.serverUrl == c.server && after.registration.value.deviceId == identity.deviceId
          && after.registration.value.releaseProfile == identity.releaseProfile)
    && (request.Some? ==> request.value.idempotencyKey == KeyAsAsked(c.pending, run))
    && (request.Some? ==>
          var q := request.value;
          && run.token && run.inputsAvailable
          && q.deviceId == identity.deviceId && q.generation == identity.generation
          && q.signing == identity.signing && q.encryption == identity.encryption
          && (c.pending.Some? ==>
                && (run.now < c.pending.value.createdAt + run.ttl || run.reEnroll)
                && (q.mode == c.pending.value.mode || (run.reEnroll && q.mode.ReEnroll?)))
          && (c.pending.None? ==>
                q.mode == (if run.reEnroll then ReEnroll
                           else if c.credential.Some? || c.metadata.Some? then EnrollmentMode.Ensure
                           else Initial)))
  }

  /** What a run leaves and sends under a given operation. */
  predicate Follows(before: Disk, after: Disk, c: Context, operation: PendingRegistration, identity: Identity, run: Run,
                    r: Result<Finish, StoreError>, request: Option<Request>)
  {
    && after.key == before.key && after.binding == before.binding
    && after.pendingKey == before.pendingKey && after.rotation == before.rotation
    && CredentialAdvances(before, after)
    && (request.Some? ==>
          && run.token && run.inputsAvailable
          && request.value == Request(identity.deviceId, identity.signing, identity.encryption, identity.generation,
                                      operation.mode, operation.idempotencyKey))
    && (r.Err? ==>
          || (after.registration == before.registration && request.None?)
          || (after.registration.Holds? && SameRecord(after.registration.value, operation)))
    && (r.Ok? ==>
          && after.registration.Missing? && (request.None? <==> r == Ok(AlreadyEnrolled))
          && after.metadata == Holds(MetadataOf(identity, c.server)) && after.credential.Holds?)
    && (r == Ok(AlreadyEnrolled) ==> after.credential == before.credential)
    && (r == Ok(Registered) ==>
          && run.reply.Some? && run.reply.value.echoesRequest && run.reply.value.wellFormed
          && run.reply.value.revision > 0
          && after.credential.value == Credential(identity.deviceId, c.server, run.reply.value.token,
                                                  run.reply.value.credentialId, identity.releaseProfile,
                                                  identity.credentialProfile, run.reply.value.expiresAt,
                                                  run.reply.value.revision))
  }

  /** The request under the resumed or newly opened operation, and what follows it. */
  method SubmitOperation(store: CredentialStore, c: Context, pending: Option<PendingRegistration>, identity: Identity,
                         run: Run)
    returns (r: Result<Finish, StoreError>, request: Option<Request>)
    requires pending.Some? ==> store.registration == Holds(pending.value) && Identifies(pending.value, identity)
    requires c.credential == (if store.credential.Holds? then Some(store.credential.value) else None)
    requires !store.credential.Malformed?
    modifies store
    ensures Follows(old(store.Snapshot()), store.Snapshot(), c,
                    if pending.Some? then pending.value else NewOperation(c, identity, run), identity, run, r, request)
    ensures r.Ok? ==> r == Ok(Registered)
    ensures r.Ok? <==>
      && run.inputsAvailable && run.token && ReplyAccepted(c, pending.Some?, identity, run)
      && old(store.budget) >= (if pending.Some? then 3 else 4)
  {
    request := None;
    var operation := OpenOperation(store, c, pending, identity, run);
    if operation.Err? { return Err(operation.error), None; }
    if !run.inputsAvailable { return Err(LocalInputsUnavailable), None; }
    if !run.token { return Err(TokenRequired), None; }
    request := Some(Request(identity.deviceId, identity.signing, identity.encryption, identity.generation,
                            operation.value.mode, operation.value.idempotencyKey));
    r := Exchange(store, c, pending.Some?, operation.value, identity, run);
  }

  /** Everything once the operation is fixed: the metadata, the fresh-credential exit, or the request. */
  method FinishIdentity(store: CredentialStore, c: Context, pending: Option<PendingRegistration>, identity: Identity,
                        run: Run)
    returns (r: Result<Finish, StoreError>, request: Option<Request>)
    requires pending.Some? ==> store.registration == Holds(pending.value) && Identifies(pending.value, identity)
    requires pending.None? ==> store.registration.Missing?
    requires c.pending.Some? <==> pending.Some?
    requires c.credential == (if store.credential.Holds? then Some(store.credential.value) else None)
    requires !store.credential.Malformed?
    modifies store
    ensures Follows(old(store.Snapshot()), store.Snapshot(), c,
                    if pending.Some? then pending.value else NewOperation(c, identity, run), identity, run, r, request)
    ensures var left := old(store.budget) - 1;
      r.Ok? <==>
        && run.metadataStorable && run.inputsAvailable
        && (if ExitsEarly(c, identity, run) then left >= if pending.Some? then 1 else 0
            else
              && run.token && ReplyAccepted(c, pending.Some?, identity, run)
              && left >= if pending.Some? then 3 else 4)
    ensures r.Ok? ==> (r == Ok(AlreadyEnrolled) <==> ExitsEarly(c, identity, run))
  {
    request := None;
    var saved := store.SaveIdentityMetadata(identity, c.server, run.metadataStorable);
    if saved.Fail? { return Err(saved.error), None; }
    if c.credential.Some? && CredentialIsCurrent(c.credential.value, identity, c.server, run.now) {
      if !run.inputsAvailable { return Err(LocalInputsUnavailable), None; }
      if !run.policyUpdate && !run.reEnroll && (pending.Some? || !run.forceRefresh) {
        if pending.Some? {
          saved := store.ClearPendingRegistration();
          if saved.Fail? { return Err(saved.error), None; }
        }
        return Ok(AlreadyEnrolled), None;
      }
    }
    r, request := SubmitOperation(store, c, pending, identity, run);
  }

  /** The operation a run goes on under. */
  function OperationOf(c: Context, identity: Identity, run: Run): PendingRegistration {
    if c.pending.None? then NewOperation(c, identity, run)
    else if Revives(c.pending.value, run) then Revived(c.pending.value, run)
    else c.pending.value
  }

  /** Following the right operation is all that a run guarantees. */
  lemma FollowedIsStep(before: Disk, found: Disk, after: Disk, c: Context, identity: Identity, run: Run,
                       r: Result<Finish, StoreError>, request: Option<Request>)
    requires c.pending == (if before.registration.Holds? then Some(before.registration.value) else None)
    requires c.credential == (if before.credential.Holds? then Some(before.credential.value) else None)
    requires !before.registration.Malformed? && before.key == Holds(EncodeIdentity(identity))
    requires c.pending.Some? ==> Identifies(c.pending.value, identity)
    requires ResumeAllowed(c, identity, run) && (c.pending.None? ==> SameProfiles(c, identity))
    requires found == if c.pending.None? then before
                      else before.(registration := Holds(OperationOf(c, identity, run)))
    requires Follows(found, after, c, OperationOf(c, identity, run), identity, run, r, request)
    requires r.Ok? ==> (r == Ok(AlreadyEnrolled) <==> ExitsEarly(c, identity, run))
    ensures EnsureStep(before, after, run, r, request) && SpeaksFor(identity, c, run, after, r, request)
  {}

  /** Everything once the identity is fixed; it never touches the key file. */
  method EnsureIdentity(store: CredentialStore, c: Context, identity: Identity, run: Run)
    returns (r: Result<Finish, StoreError>, request: Option<Request>)
    requires c.pending == (if store.registration.Holds? then Some(store.registration.value) else None)
    requires c.credential == (if store.credential.Holds? then Some(store.credential.value) else None)
    requires !store.credential.Malformed? && !store.registration.Malformed?
    requires store.key.Holds? && (!identity.legacyEncryptionKey ==> store.key.value == EncodeIdentity(identity))
    requires c.pending.Some? ==> Identifies(c.pending.value, identity)
    modifies store
    ensures EnsureStep(old(store.Snapshot()), store.Snapshot(), run, r, request)
    ensures r.Ok? <==> IdentityAdmitted(c, identity, run) && old(store.budget) >= StepsFor(c, identity, run)
    ensures r.Ok? ==> (r == Ok(AlreadyEnrolled) <==> ExitsEarly(c, identity, run))
    ensures SpeaksFor(identity, c, run, store.Snapshot(), r, request)
  {
    request := None;
    if c.pending.None?
       && (identity.releaseProfile != c.releaseProfile || identity.credentialProfile != c.credentialProfile) {
      return Err(CompatibilityMismatch), None;
    }
    if identity.legacyEncryptionKey { return Err(FileMalformed), None; }
    var revived := ReviveOperation(store, c, identity, run);
    if revived.Err? { return Err(revived.error), None; }
    ghost var found := store.Snapshot();
    r, request := FinishIdentity(store, c, revived.value, identity, run);
    FollowedIsStep(old(store.Snapshot()), found, store.Snapshot(), c, identity, run, r, request);
  }

  method EnsureDevice(store: CredentialStore, run: Run)
    returns (r: Result<Finish, StoreError>, request: Option<Request>)
    modifies store
    ensures EnsureStep(old(store.Snapshot()), store.Snapshot(), run, r, request)
    ensures AsAsked(old(store.Snapshot()), store.Snapshot(), run, r, request)
    ensures var p := old(store.registration);
      request.Some? && p.Holds? ==> run.loadedAt < p.value.createdAt + run.ttl || run.reEnroll
    ensures var d := old(store.Snapshot());
      r.Ok? <==> Admitted(d, run) && old(store.budget) >= StepsNeeded(d, run)
  {
    request := None;
    var pending := LoadPending(store, run);
    if pending.Err? { return Err(pending.error), None; }
    var c := ContextOf(store.Snapshot(), pending.value, run);
    if c.Err? { return Err(c.error), None; }
    r, request := EnsureContext(store, c.value, run);
  }

  method EnsureContext(store: CredentialStore, c: Context, run: Run)
    returns (r: Result<Finish, StoreError>, request: Option<Request>)
    requires ReadOptional(store.registration) == Ok(c.pending)
    requires ContextOf(store.Snapshot(), c.pending, run) == Ok(c)
    modifies store
    ensures EnsureStep(old(store.Snapshot()), store.Snapshot(), run, r, request)
    ensures AsAsked(old(store.Snapshot()), store.Snapshot(), run, r, request)
    ensures var chosen := ChosenIdentity(old(store.Snapshot()), c, run);
      r.Ok? <==>
        && chosen.Ok? && IdentityAdmitted(c, chosen.value, run)
        && old(store.budget) >= (if DrawsIdentity(c) then 1 else 0) + StepsFor(c, chosen.value, run)
  {
    request := None;
    var identity := EstablishIdentity(store, c, run);
    if identity.Err? { return Err(identity.error), None; }
    ghost var found := store.Snapshot();
    r, request := EnsureIdentity(store, c, identity.value, run);
    StepAfterKey(old(store.Snapshot()), found, store.Snapshot(), run, r, request);
    SpokenAsAsked(old(store.Snapshot()), store.Snapshot(), c, identity.value, run, r, request);
  }

  lemma SpokenAsAsked(before: Disk, after: Disk, c: Context, identity: Identity, run: Run,
                      r: Result<Finish, StoreError>, request: Option<Request>)
    requires ReadOptional(before.registration) == Ok(c.pending) && ContextOf(before, c.pending, run) == Ok(c)
    requires ChosenIdentity(before, c, run) == Ok(identity) && SpeaksFor(identity, c, run, after, r, request)
    ensures AsAsked(before, after, run, r, request)
  {}

  /** Writing a first key before the rest of a run does not change what the run guarantees. */
  lemma StepAfterKey(before: Disk, found: Disk, after: Disk, run: Run, r: Result<Finish, StoreError>,
                     request: Option<Request>)
    requires EnsureStep(found, after, run, r, request) && found == before.(key := found.key)
    requires found.key != before.key ==>
      before.key.Missing? && before.credential.Missing? && before.metadata.Missing? && before.registration.Missing?
    requires !found.key.Missing?
    ensures EnsureStep(before, after, run, r, request)
  {}

  // ---------------------------------------------------------------- any series of runs

  datatype Event = Event(run: Run, result: Result<Finish, StoreError>, request: Option<Request>, after: Disk)

  /** Consecutive runs, each starting from the disk the previous one left. */
  predicate Series(start: Disk, events: seq<Event>)
    decreases |events|
  {
    events != [] ==>
      && EnsureStep(start, events[0].after, events[0].run, events[0].result, events[0].request)
      && Series(events[0].after, events[1..])
  }

  function EndOf(start: Disk, events: seq<Event>): Disk {
    if events == [] then start else events[|events| - 1].after
  }

  /**
    Key bytes once on disk never change, and a stored credential only ever gives
    way to one of a strictly higher revision.
   */
  lemma {:induction false} EnrolmentNeverReplacesIdentity(start: Disk, events: seq<Event>)
    requires Series(start, events)
    ensures !start.key.Missing? ==> EndOf(start, events).key == start.key
    ensures start.credential.Holds? ==>
      var end := EndOf(start, events).credential;
      end == start.credential || (end.Holds? && start.credential.value.revision < end.value.revision)
    decreases |events|
  {
    if events != [] {
      EnrolmentNeverReplacesIdentity(events[0].after, events[1..]);
    }
  }

  function Sent(events: seq<Event>): seq<Request> {
    if events == [] then []
    else (if events[0].request.Some? then [events[0].request.value] else []) + Sent(events[1..])
  }

  /** No run revives the operation it finds, and only the last may succeed. */
  predicate Retries(start: Disk, events: seq<Event>)
    decreases |events|
  {
    events != [] ==>
      && !MayRevive(start, events[0].run)
      && (|events| > 1 ==> events[0].result.Err?)
      && Retries(events[0].after, events[1..])
  }

  /** Every request names the operation found, the request of the run that succeeds included. */
  lemma {:induction false} RequestsNameTheOperation(start: Disk, events: seq<Event>)
    requires Series(start, events) && start.registration.Holds? && Retries(start, events)
    ensures forall q :: q in Sent(events) ==> Names(start.registration.value, q)
    decreases |events|
  {
    if |events| > 1 {
      RequestsNameTheOperation(events[0].after, events[1..]);
    } else if events != [] {
      assert events[1..] == [];
    }
  }

  /** The same device, keys, generation, mode and idempotency key. */
  predicate SameOperation(a: Request, b: Request) {
    && a.deviceId == b.deviceId && a.signing == b.signing && a.encryption == b.encryption
    && a.generation == b.generation && a.mode == b.mode && a.idempotencyKey == b.idempotencyKey
  }

  /** Up to and including the run that succeeds, an enrolment that is not revived is one operation for one identity. */
  lemma {:induction false} RetriesAreOneOperation(start: Disk, events: seq<Event>)
    requires Series(start, events) && Retries(start, events)
    ensures forall i, j :: 0 <= i < j < |Sent(events)| ==> SameOperation(Sent(events)[i], Sent(events)[j])
    decreases |events|
  {
    if |events| <= 1 {
      if events != [] { assert events[1..] == []; }
      return;
    }
    var e := events[0];
    var rest := Sent(events[1..]);
    RetriesAreOneOperation(e.after, events[1..]);
    if e.request.Some? {
      RequestsNameTheOperation(e.after, events[1..]);
      assert Sent(events) == [e.request.value] + rest;
      forall j | 0 <= j < |rest| ensures SameOperation(e.request.value, rest[j]) {
        assert rest[j] in rest;
      }
    } else {
      assert Sent(events) == rest;
    }
  }
}
