/**
  The owner-only device directory: one file per durable fact, each replaced or
  removed atomically (crates/device-client/src/lib.rs:844-885).

  A process may stop between any two durable steps.  `CredentialStore.budget` is
  the number of durable steps the running process still completes; a step asked
  for beyond it fails with `Stopped` and changes nothing.  An I/O error behaves
  like a stop just before or just after the step it hits.
 */
module DeviceStore {
  import opened Wrappers

  /** A file is absent, present but refused by its validator, or holds a valid value. */
  datatype File<+T> = Missing | Malformed | Holds(value: T)

  /** SHA-256 as an ideal, injective function. */
  datatype Digest = Sha256(preimage: string)

  /** Key bytes. The public values stand for the key pairs they belong to. */
  datatype KeyFile =
    | Egbkey1(generation: u64, signing: string)
    | Egbkey2(generation: u64, signing: string, encryption: string)

  datatype Identity = Identity(
    deviceId: string,
    signing: string,
    encryption: string,
    generation: u64,
    releaseProfile: string,
    credentialProfile: string,
    legacyEncryptionKey: bool)

  datatype Credential = Credential(
    deviceId: string,
    serverUrl: string,
    token: string,
    credentialId: string,
    releaseProfile: string,
    credentialProfile: string,
    expiresAt: u64,
    revision: u64)

  datatype Metadata = Metadata(
    deviceId: string,
    serverUrl: string,
    releaseProfile: string,
    credentialProfile: string)

  datatype ActiveBinding = ActiveBinding(bindingId: string, generation: u64, deviceId: string)

  datatype PendingRotation = PendingRotation(
    deviceId: string,
    currentGeneration: u64,
    targetGeneration: u64,
    previousCredentialRevision: u64,
    oldSigning: Digest,
    oldEncryption: Digest,
    targetSigning: Digest,
    targetEncryption: Digest,
    idempotencyKey: string,
    createdAt: u64)

  datatype EnrollmentMode = Initial | Ensure | ReEnroll | Rotate

  datatype PendingRegistration = PendingRegistration(
    deviceId: string,
    deviceGeneration: u64,
    serverUrl: string,
    releaseProfile: string,
    credentialProfile: string,
    mode: EnrollmentMode,
    signing: Digest,
    encryption: Digest,
    idempotencyKey: string,
    createdAt: u64,
    lastError: Option<StoreError>)

  datatype StoreError =
    | Stopped
    | FileMissing
    | FileMalformed
    | RotationConflict
    | CompatibilityMismatch
    | OriginConflict
    | BindingMustStop
    | RevisionNotAdvanced
    | PendingExpired
    | TokenRequired
    | LocalInputsUnavailable
    | NetworkFailure

  /** Everything that survives a crash. */
  datatype Disk = Disk(
    key: File<KeyFile>,
    metadata: File<Metadata>,
    credential: File<Credential>,
    binding: File<ActiveBinding>,
    pendingKey: File<KeyFile>,
    rotation: File<PendingRotation>,
    registration: File<PendingRegistration>)

  function Read<T>(file: File<T>): Result<T, StoreError> {
    match file
    case Missing => Err(FileMissing)
    case Malformed => Err(FileMalformed)
    case Holds(value) => Ok(value)
  }

  /** A stored credential must carry a positive revision and expiry. */
  function LoadForRotation(file: File<Credential>): Result<Credential, StoreError> {
    var credential :- Read(file);
    if credential.revision == 0 || credential.expiresAt == 0 then Err(FileMalformed) else Ok(credential)
  }

  function ReadOptional<T>(file: File<T>): Result<Option<T>, StoreError> {
    match file
    case Missing => Ok(None)
    case Malformed => Err(FileMalformed)
    case Holds(value) => Ok(Some(value))
  }

  /**
    Decodes key bytes. The EGBKEY1 form carries no encryption key, so every load
    draws a fresh one (`drawn`).
   */
  function DecodeIdentity(bytes: KeyFile, deviceId: string, releaseProfile: string,
                          credentialProfile: string, drawn: string): Result<Identity, StoreError>
  {
    if bytes.generation == 0 then Err(FileMalformed)
    else match bytes
      case Egbkey1(generation, signing) =>
        Ok(Identity(deviceId, signing, drawn, generation, releaseProfile, credentialProfile, true))
      case Egbkey2(generation, signing, encryption) =>
        Ok(Identity(deviceId, signing, encryption, generation, releaseProfile, credentialProfile, false))
  }

  function EncodeIdentity(identity: Identity): KeyFile {
    Egbkey2(identity.generation, identity.signing, identity.encryption)
  }

  function LoadIdentity(file: File<KeyFile>, deviceId: string, releaseProfile: string,
                        credentialProfile: string, drawn: string): Result<Identity, StoreError>
  {
    var bytes :- Read(file);
    DecodeIdentity(bytes, deviceId, releaseProfile, credentialProfile, drawn)
  }

  /** The binding file is usable only when it belongs to this device. */
  function LoadActiveBinding(file: File<ActiveBinding>, deviceId: string): Result<ActiveBinding, StoreError> {
    var binding :- Read(file);
    if binding.deviceId != deviceId then Err(FileMalformed) else Ok(binding)
  }

  predicate SameKeys(a: Identity, b: Identity) {
    a.generation == b.generation && a.signing == b.signing && a.encryption == b.encryption
  }

  function MetadataOf(identity: Identity, serverUrl: string): Metadata {
    Metadata(identity.deviceId, serverUrl, identity.releaseProfile, identity.credentialProfile)
  }

  // ---------------------------------------------------------------- server replies

  /**
    A control-plane answer. `echoesRequest` summarises the identity, policy and
    origin fields that must repeat what was submitted; `wellFormed` the text rules
    the credential file applies when the answer is saved.
   */
  datatype Reply = Reply(
    echoesRequest: bool,
    wellFormed: bool,
    token: string,
    credentialId: string,
    expiresAt: u64,
    revision: u64)

  predicate Storable(reply: Reply) {
    reply.wellFormed && reply.expiresAt > 0
  }

  function CredentialFrom(reply: Reply, serverUrl: string, identity: Identity,
                          previousRevision: Option<u64>): Result<Credential, StoreError>
  {
    if !reply.echoesRequest then Err(CompatibilityMismatch)
    else if reply.revision == 0 || (previousRevision.Some? && reply.revision <= previousRevision.value) then
      Err(RevisionNotAdvanced)
    else
      Ok(Credential(identity.deviceId, serverUrl, reply.token, reply.credentialId,
                    identity.releaseProfile, identity.credentialProfile, reply.expiresAt, reply.revision))
  }

  // ---------------------------------------------------------------- the store

  /** One durable step aimed at `target`, under the crash budget. */
  predicate DurableStep(before: Disk, budget: nat, target: Disk, after: Disk, budget': nat,
                        outcome: Outcome<StoreError>)
  {
    if budget == 0 then
      outcome == Fail(Stopped) && after == before && budget' == 0
    else
      outcome == Pass && after == target && budget' == budget - 1
  }

  class CredentialStore {
    var key: File<KeyFile>
    var metadata: File<Metadata>
    var credential: File<Credential>
    var binding: File<ActiveBinding>
    var pendingKey: File<KeyFile>
    var rotation: File<PendingRotation>
    var registration: File<PendingRegistration>
    /** Durable steps this process completes before it stops. */
    var budget: nat

    constructor (disk: Disk, budget: nat)
      ensures Snapshot() == disk && this.budget == budget
    {
      key, metadata, credential, binding := disk.key, disk.metadata, disk.credential, disk.binding;
      pendingKey, rotation, registration := disk.pendingKey, disk.rotation, disk.registration;
      this.budget := budget;
    }

    function Snapshot(): (d: Disk)
      reads this
    {
      Disk(key, metadata, credential, binding, pendingKey, rotation, registration)
    }

    method SaveIdentity(identity: Identity) returns (o: Outcome<StoreError>)
      modifies this
      ensures DurableStep(old(Snapshot()), old(budget),
                          old(Snapshot()).(key := Holds(EncodeIdentity(identity))), Snapshot(), budget, o)
    {
      if budget == 0 { return Fail(Stopped); }
      key, budget := Holds(EncodeIdentity(identity)), budget - 1;
      return Pass;
    }

    method SaveIdentityMetadata(identity: Identity, serverUrl: string, storable: bool) returns (o: Outcome<StoreError>)
      modifies this
      ensures !storable ==> o == Fail(FileMalformed) && Snapshot() == old(Snapshot()) && budget == old(budget)
      ensures storable ==>
        DurableStep(old(Snapshot()), old(budget),
                    old(Snapshot()).(metadata := Holds(MetadataOf(identity, serverUrl))), Snapshot(), budget, o)
    {
      if !storable { return Fail(FileMalformed); }
      if budget == 0 { return Fail(Stopped); }
      metadata, budget := Holds(MetadataOf(identity, serverUrl)), budget - 1;
      return Pass;
    }

    method Save(credential: Credential, storable: bool) returns (o: Outcome<StoreError>)
      modifies this
      ensures !storable ==> o == Fail(FileMalformed) && Snapshot() == old(Snapshot()) && budget == old(budget)
      ensures storable ==> DurableStep(old(Snapshot()), old(budget),
                                       old(Snapshot()).(credential := Holds(credential)), Snapshot(), budget, o)
    {
      if !storable { return Fail(FileMalformed); }
      if budget == 0 { return Fail(Stopped); }
      this.credential, budget := Holds(credential), budget - 1;
      return Pass;
    }

    method ClearActiveBinding() returns (o: Outcome<StoreError>)
      modifies this
      ensures DurableStep(old(Snapshot()), old(budget), old(Snapshot()).(binding := Missing), Snapshot(), budget, o)
    {
      if budget == 0 { return Fail(Stopped); }
      binding, budget := Missing, budget - 1;
      return Pass;
    }

    method SavePendingKey(identity: Identity) returns (o: Outcome<StoreError>)
      modifies this
      ensures DurableStep(old(Snapshot()), old(budget),
                          old(Snapshot()).(pendingKey := Holds(EncodeIdentity(identity))), Snapshot(), budget, o)
    {
      if budget == 0 { return Fail(Stopped); }
      pendingKey, budget := Holds(EncodeIdentity(identity)), budget - 1;
      return Pass;
    }

    method RemovePendingKey() returns (o: Outcome<StoreError>)
      modifies this
      ensures DurableStep(old(Snapshot()), old(budget), old(Snapshot()).(pendingKey := Missing), Snapshot(), budget, o)
    {
      if budget == 0 { return Fail(Stopped); }
      pendingKey, budget := Missing, budget - 1;
      return Pass;
    }

    method SavePendingRotation(record: PendingRotation) returns (o: Outcome<StoreError>)
      modifies this
      ensures DurableStep(old(Snapshot()), old(budget),
                          old(Snapshot()).(rotation := Holds(record)), Snapshot(), budget, o)
    {
      if budget == 0 { return Fail(Stopped); }
      rotation, budget := Holds(record), budget - 1;
      return Pass;
    }

    method ClearPendingRotationMetadata() returns (o: Outcome<StoreError>)
      modifies this
      ensures DurableStep(old(Snapshot()), old(budget), old(Snapshot()).(rotation := Missing), Snapshot(), budget, o)
    {
      if budget == 0 { return Fail(Stopped); }
      rotation, budget := Missing, budget - 1;
      return Pass;
    }

    method SavePendingRegistration(pending: PendingRegistration) returns (o: Outcome<StoreError>)
      modifies this
      ensures DurableStep(old(Snapshot()), old(budget),
                          old(Snapshot()).(registration := Holds(pending)), Snapshot(), budget, o)
    {
      if budget == 0 { return Fail(Stopped); }
      registration, budget := Holds(pending), budget - 1;
      return Pass;
    }

    method ClearPendingRegistration() returns (o: Outcome<StoreError>)
      modifies this
      ensures DurableStep(old(Snapshot()), old(budget),
                          old(Snapshot()).(registration := Missing), Snapshot(), budget, o)
    {
      if budget == 0 { return Fail(Stopped); }
      registration, budget := Missing, budget - 1;
      return Pass;
    }
  }
}
