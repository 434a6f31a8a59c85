/**
  Which runs of `ensure` succeed, on disks and arguments as they are found
  (crates/device-client/src/registration.rs:64-335).
 */
module EnrolmentOutcomes {
  import opened Wrappers
  import opened DeviceStore
  import opened Enrolment

  /** The caller gives what a registration needs, and the local policy does not stand in its way. */
  predicate Equipped(run: Run) {
    && run.token && run.inputsAvailable && run.metadataStorable && (run.policyUpdate ==> run.policyCommits)
    && run.credentialProfile in {None, Some("community_file")}
  }

  /** The server answers what was asked, in storable form, above the given revision. */
  predicate AnswersAbove(run: Run, revision: nat) {
    && run.reply.Some? && run.reply.value.echoesRequest && run.reply.value.wellFormed
    && run.reply.value.expiresAt > 0 && run.reply.value.revision > revision
  }

  /** A device that was never enrolled. */
  predicate Empty(d: Disk) {
    d.key.Missing? && d.metadata.Missing? && d.credential.Missing? && d.registration.Missing?
  }

  /** A self-contained key with its metadata, and nothing pending. */
  predicate KnownDevice(d: Disk) {
    && d.key.Holds? && d.key.value.Egbkey2? && d.key.value.generation > 0
    && d.metadata.Holds? && d.metadata.value.credentialProfile == "community_file" && d.registration.Missing?
  }

  /** A stored credential that is usable as such and agrees with the metadata. */
  predicate CredentialAgrees(d: Disk)
    requires d.metadata.Holds?
  {
    var m := d.metadata.value;
    && d.credential.Holds? && d.credential.value.revision > 0 && d.credential.value.expiresAt > 0
    && d.credential.value.deviceId == m.deviceId && d.credential.value.serverUrl == m.serverUrl
    && d.credential.value.releaseProfile == m.releaseProfile
    && d.credential.value.credentialProfile == m.credentialProfile
  }

  /** The arguments name no other origin or release profile than the stored ones. */
  predicate SameContext(d: Disk, run: Run)
    requires d.metadata.Holds?
  {
    && run.server in {None, Some(d.metadata.value.serverUrl)}
    && run.releaseProfile in {None, Some(d.metadata.value.releaseProfile)}
  }

  /** A first enrolment succeeds, in six durable steps. */
  lemma FirstEnrolmentSucceeds(d: Disk, run: Run)
    requires Empty(d) && Equipped(run) && AnswersAbove(run, 0) && run.server.Some?
    ensures Admitted(d, run) && StepsNeeded(d, run) == 6
  {}

  /** Without an origin, a first enrolment is refused. */
  lemma FirstEnrolmentNeedsOrigin(d: Disk, run: Run)
    requires Empty(d) && run.server.None?
    ensures !Admitted(d, run)
  {}

  /** A key whose device and origin are unknown is refused, whatever the arguments. */
  lemma UnprovenKeyIsRefused(d: Disk, run: Run)
    requires !d.key.Missing? && d.metadata.Missing? && d.credential.Missing? && d.registration.Missing?
    ensures !Admitted(d, run)
  {}

  /**
    For a known device with a credential that agrees, no re-enrolment and no policy
    change: the run succeeds exactly when the credential serves, or it is equipped and
    the server answers above the stored revision.
   */
  lemma RefreshSucceedsExactlyWhen(d: Disk, run: Run)
    requires KnownDevice(d) && CredentialAgrees(d) && SameContext(d, run) && !run.reEnroll && !run.policyUpdate
    requires run.metadataStorable && run.credentialProfile in {None, Some("community_file")}
    ensures var serves := d.credential.value.expiresAt > run.now + 300 && !run.forceRefresh;
      && (Admitted(d, run) <==>
            run.inputsAvailable && (serves || (run.token && AnswersAbove(run, d.credential.value.revision))))
      && (Admitted(d, run) ==> StepsNeeded(d, run) == if serves then 1 else 5)
  {}

  /** Another origin than the stored one is refused for a known device. */
  lemma ForeignOriginIsRefused(d: Disk, run: Run)
    requires KnownDevice(d) && run.server.Some? && run.server.value != d.metadata.value.serverUrl
    ensures !Admitted(d, run)
  {}

  /** A pending operation for the key on disk. */
  predicate PendingAgrees(d: Disk) {
    && d.key.Holds? && d.key.value.Egbkey2? && d.key.value.generation > 0 && d.registration.Holds?
    && d.credential.Missing? && !d.metadata.Malformed?
    && var p := d.registration.value;
       && p.deviceGeneration == d.key.value.generation
       && p.signing == Sha256(d.key.value.signing) && p.encryption == Sha256(d.key.value.encryption)
  }

  /**
    An interrupted first enrolment is resumed exactly until it expires, under its own
    origin; afterwards only an explicit re-enrolment goes on with it.
   */
  lemma ResumeSucceedsExactlyWhen(d: Disk, run: Run)
    requires PendingAgrees(d) && !run.reEnroll && Equipped(run) && AnswersAbove(run, 0) && run.loadedAt <= run.now
    requires d.metadata.Holds? ==> d.metadata.value.credentialProfile == "community_file"
    requires var p := d.registration.value; p.createdAt + run.ttl <= U64_MAX && run.server in {None, Some(p.serverUrl)}
    ensures Admitted(d, run) <==> run.now < d.registration.value.createdAt + run.ttl
    ensures Admitted(d, run) ==> StepsNeeded(d, run) == 4
  {}

  // ---------------------------------------------------------------- every disk and every run

  /** Stored state can be read, and a stored credential carries a revision and an expiry. */
  predicate Readable(d: Disk) {
    && !d.registration.Malformed? && !d.metadata.Malformed? && !d.credential.Malformed?
    && (d.credential.Holds? ==> d.credential.value.revision > 0 && d.credential.value.expiresAt > 0)
  }

  /** The origin a run speaks to: the one given, else that of the operation, credential or metadata found. */
  function Origin(d: Disk, run: Run): Option<string> {
    if run.server.Some? then run.server
    else if d.registration.Holds? then Some(d.registration.value.serverUrl)
    else if d.credential.Holds? then Some(d.credential.value.serverUrl)
    else if d.metadata.Holds? then Some(d.metadata.value.serverUrl)
    else None
  }

  function Release(d: Disk, run: Run): string {
    if run.releaseProfile.Some? then run.releaseProfile.value
    else if d.credential.Holds? then d.credential.value.releaseProfile
    else if d.metadata.Holds? then d.metadata.value.releaseProfile
    else "community-local-trust"
  }

  /** Only one credential profile is supported, whoever names it. */
  predicate ProfileSupported(d: Disk, run: Run) {
    if run.credentialProfile.Some? then run.credentialProfile.value == "community_file"
    else d.metadata.Holds? ==> d.metadata.value.credentialProfile == "community_file"
  }

  /** What is stored is of the origin and profiles in force. */
  predicate StoredAgrees(d: Disk, run: Run) {
    && (d.credential.Holds? ==>
          && Some(d.credential.value.serverUrl) == Origin(d, run)
          && d.credential.value.releaseProfile == Release(d, run)
          && d.credential.value.credentialProfile == "community_file")
    && (d.metadata.Holds? ==>
          && Some(d.metadata.value.serverUrl) == Origin(d, run)
          && d.metadata.value.releaseProfile == Release(d, run)
          && d.metadata.value.credentialProfile == "community_file")
  }

  /** A self-contained key is on disk. */
  predicate ModernKey(d: Disk) {
    d.key.Holds? && d.key.value.Egbkey2? && d.key.value.generation > 0
  }

  /** What the server's answer must be. */
  predicate AnswerFits(d: Disk, run: Run, given: Credential) {
    && run.reply.Some? && run.reply.value.echoesRequest && run.reply.value.wellFormed
    && run.reply.value.expiresAt > 0 && run.reply.value.revision > 0
    && (run.policyUpdate ==> run.policyCommits)
    && (d.credential.Holds? ==>
          if d.registration.Holds? && run.policyUpdate
          then run.reply.value.revision > d.credential.value.revision || given == d.credential.value
          else run.reply.value.revision > d.credential.value.revision)
  }

  /** The credential an answer gives under this origin and these profiles. */
  function Given(deviceId: string, server: string, release: string, profile: string, run: Run): Credential
    requires run.reply.Some?
  {
    var r := run.reply.value;
    Credential(deviceId, server, r.token, r.credentialId, release, profile, r.expiresAt, r.revision)
  }

  // ------------------------------------------------ without a pending operation

  /** The credential on disk serves a run that found no operation. */
  predicate ServesPlain(d: Disk, run: Run) {
    && d.credential.Holds? && d.credential.value.expiresAt > run.now + 300
    && !run.policyUpdate && !run.reEnroll && !run.forceRefresh
  }

  function DeviceOf(d: Disk, run: Run): string {
    if d.credential.Holds? then d.credential.value.deviceId
    else if d.metadata.Holds? then d.metadata.value.deviceId
    else run.drawnDevice
  }

  /** A first enrolment finds no key; any other finds a self-contained one. */
  predicate KeyExpected(d: Disk) {
    if d.credential.Holds? || d.metadata.Holds? then ModernKey(d) else d.key.Missing?
  }

  /** What a run without a pending operation needs. */
  predicate PlainFits(d: Disk, run: Run) {
    && Readable(d) && Origin(d, run).Some? && ProfileSupported(d, run) && StoredAgrees(d, run) && KeyExpected(d)
    && run.metadataStorable && run.inputsAvailable
    && (ServesPlain(d, run)
        || (&& run.token && run.reply.Some?
            && AnswerFits(d, run, Given(DeviceOf(d, run), Origin(d, run).value, Release(d, run),
                                        "community_file", run))))
  }

  /** What a run without a pending operation finds. */
  function PlainContext(d: Disk, run: Run): Context
    requires Origin(d, run).Some?
  {
    Context(None, if d.credential.Holds? then Some(d.credential.value) else None,
            if d.metadata.Holds? then Some(d.metadata.value) else None,
            Origin(d, run).value, Release(d, run), "community_file")
  }

  lemma PlainContextIsFound(d: Disk, run: Run)
    requires !d.registration.Holds? && Readable(d) && Origin(d, run).Some?
    requires ProfileSupported(d, run) && StoredAgrees(d, run)
    ensures ContextOf(d, None, run) == Ok(PlainContext(d, run))
  {}

  /** The identity such a run speaks for. */
  predicate PlainIdentity(d: Disk, run: Run, identity: Identity) {
    && identity.deviceId == DeviceOf(d, run) && identity.releaseProfile == Release(d, run)
    && identity.credentialProfile == "community_file" && !identity.legacyEncryptionKey
  }

  lemma PlainIdentityIsChosen(d: Disk, run: Run)
    requires !d.registration.Holds? && Readable(d) && Origin(d, run).Some? && StoredAgrees(d, run) && KeyExpected(d)
    ensures var chosen := ChosenIdentity(d, PlainContext(d, run), run);
      chosen.Ok? && PlainIdentity(d, run, chosen.value)
  {}

  lemma PlainIdentityIsAdmitted(d: Disk, run: Run, identity: Identity)
    requires !d.registration.Holds? && PlainFits(d, run) && PlainIdentity(d, run, identity)
    ensures IdentityAdmitted(PlainContext(d, run), identity, run)
  {}

  lemma PlainSuffices(d: Disk, run: Run)
    requires !d.registration.Holds? && PlainFits(d, run)
    ensures Admitted(d, run)
  {
    PlainContextIsFound(d, run);
    PlainIdentityIsChosen(d, run);
    PlainIdentityIsAdmitted(d, run, ChosenIdentity(d, PlainContext(d, run), run).value);
  }

  lemma PlainIsNeeded(d: Disk, run: Run)
    requires !d.registration.Holds? && Admitted(d, run)
    ensures PlainFits(d, run)
  {}

  /** Without a pending operation, from every disk and for every run: success but for a crash, exactly when. */
  lemma PlainSucceedsExactlyWhen(d: Disk, run: Run)
    requires !d.registration.Holds?
    ensures Admitted(d, run) <==> PlainFits(d, run)
  {
    if PlainFits(d, run) { PlainSuffices(d, run); }
    if Admitted(d, run) { PlainIsNeeded(d, run); }
  }

  lemma PlainSteps(d: Disk, run: Run)
    requires !d.registration.Holds? && Admitted(d, run)
    ensures StepsNeeded(d, run) == (if d.key.Missing? then 1 else 0) + if ServesPlain(d, run) then 1 else 5
  {}

  // ------------------------------------------------ with a pending operation

  /** The operation has run out, or re-enrolment was asked for a merely ensured one: it needs a new key. */
  predicate NeedsRenewal(p: PendingRegistration, run: Run) {
    run.now >= p.createdAt + run.ttl || p.createdAt + run.ttl > U64_MAX || (run.reEnroll && p.mode.Ensure?)
  }

  /** The key on disk is the one the operation was opened for. */
  predicate KeyOfOperation(p: PendingRegistration, d: Disk) {
    && ModernKey(d) && d.key.value.generation == p.deviceGeneration
    && p.signing == Sha256(d.key.value.signing) && p.encryption == Sha256(d.key.value.encryption)
  }

  predicate ServesOperation(p: PendingRegistration, d: Disk, run: Run) {
    && d.credential.Holds? && d.credential.value.expiresAt > run.now + 300 && !run.policyUpdate && !run.reEnroll
    && d.credential.value.deviceId == p.deviceId && d.credential.value.serverUrl == p.serverUrl
    && d.credential.value.releaseProfile == p.releaseProfile
    && d.credential.value.credentialProfile == p.credentialProfile
  }

  /** A pending operation may be gone on with, by itself or after an explicit renewal. */
  predicate OperationGoesOn(p: PendingRegistration, d: Disk, run: Run) {
    && (run.loadedAt < p.createdAt + run.ttl <= U64_MAX || run.reEnroll)
    && Origin(d, run) == Some(p.serverUrl)
    && (NeedsRenewal(p, run) ==>
          && run.reEnroll && run.token && StoredAgrees(d, run)
          && p.releaseProfile == Release(d, run) && p.credentialProfile == "community_file")
  }

  /** With a pending operation, likewise. */
  lemma PendingSucceedsExactlyWhen(d: Disk, run: Run)
    requires d.registration.Holds?
    ensures var p := d.registration.value;
      Admitted(d, run) <==>
        && Readable(d) && ProfileSupported(d, run) && KeyOfOperation(p, d) && OperationGoesOn(p, d, run)
        && run.metadataStorable && run.inputsAvailable
        && (ServesOperation(p, d, run)
            || (&& run.token && run.reply.Some?
                && AnswerFits(d, run, Given(p.deviceId, p.serverUrl, p.releaseProfile, p.credentialProfile, run))))
  {}

  lemma PendingSteps(d: Disk, run: Run)
    requires d.registration.Holds? && Admitted(d, run)
    ensures var p := d.registration.value;
      StepsNeeded(d, run) == (if NeedsRenewal(p, run) then 1 else 0) + if ServesOperation(p, d, run) then 2 else 4
  {}
}
