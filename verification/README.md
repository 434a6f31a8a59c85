# Verified model of the ego-browser bridge

A Dafny model of the parts of the bridge whose guarantees are about whole runs
or about two pieces of code agreeing, with proofs of those guarantees.
`dafny verify dfyconfig.toml` checks the project.

**Device identity** (`DeviceStore`, `Rotation`, `RotationRuns`, `RotationTickets`, `RotationOutcomes`,
`Enrolment`, `EnrolmentOutcomes`, `PolicyChain`).
The device directory is seven files, each replaced or removed atomically.  A
process may stop between any two of those steps, and a request may be lost, or
applied and its reply lost.  `Rotation.DeviceRotate` and `Enrolment.EnsureDevice` are the
commands; their contracts cover every disk, stopping point and reply.  `RotationRuns`
proves that rotation has one target, counts generations and converges, `RotationTickets`
that no two rotations share an operation key.  `RotationOutcomes` and `EnrolmentOutcomes`
say, for every disk, which runs go ahead and what a stopped one leaves.  Policy
updates are a lock and compare-and-swap protocol of any number of writers.

**The Bridge supervisor** (`Scheduling`, `Leases`, `SequenceLedger`, `BridgeProtocol`,
`Supervision`, `SupervisionRuns`, `SupervisionExact`, `PermitsOverRuns`, `SupervisorObject`, `RelaySession`,
`RelayEndings`, `RelaySeries`).  `Supervision`
specifies each public method as one step of a state; the class performs it on
its own fields and is proved equal to it.  `SupervisionRuns` proves what every run
keeps, `SupervisionExact` what each step admits, runs, answers and refuses.  `RelaySession` is the event loop of one relay connection, with the steps of
all other tasks interleaved, `RelayEndings` says which events end it and how, and `RelaySeries` is one connection after another.

**The Site Learning bundle** (`TextOrder`, `BundleTree`, `BundlePaths`, `BundleInventory`,
`LearningBundle`, `BundleUniqueness`, `BundleGenerator`, `BundleLimits`).  Two independent worklist walks of a directory
tree: the generator of a manifest and the verifier of its inventory.

**Codecs** (`CanonicalJson`, `Bytes`, `Transcripts`, `Framing`, `Images`, `Artifacts`).

## Where the code does not do what one would expect

- Rotation of a legacy EGBKEY1 key can end in a dead end.  Loading such a key
  draws a new encryption key each time (`crates/device-client/src/credential_store.rs:994-997`)
  and the pending record holds the digest of the first one (`:1060-1080`).  A process that
  stops after writing the record and before installing the target is refused by
  every later attempt.  `RotationRuns.CompletesExactlyWhen` gives the exact condition,
  `LegacyRotationNeverEnds` and `LegacyRotationStrands` show the dead end.
- A renewal grace interval stops permit issue and relayed requests, but not a
  permit that was issued before it: `execute` looks at cancellation, generation and revocation only
  (`crates/local-bridge/src/supervisor_execution.rs:22-30`).  `SupervisionRuns.PermitRunsExactlyWhen`
  gives the exact condition, `GraceStillRunsAPermit` an instance.
- The generator looks at `learnings` only, keeps no record of empty directories and
  does not bound what it writes; the verifier refuses other entries and empty
  directories and reads at most one mebibyte.  `BundleGenerator.GeneratorMeetsVerifier`
  gives the exact condition, `BundleLimits` an input for each case.
- The key-wrap transcript is unambiguous only because the envelope validator
  excludes NUL from identifiers (`Transcripts.KeyWrapIsUnambiguous`, `NulBindingsCollide`).

## Assumptions

- Cryptography is ideal: the digest of a key names the key, only the sealing key
  opens a ciphertext.  The transcripts and the bundle use no property of SHA-256.
- Each public supervisor method is one atomic step.  `resume_after_reconnect` drops
  the lease lock before it clears the flag, so "revoked implies cancelled" is a claim
  about whole methods.
- In runs, `update_lease` is called with `healthy = true`, as both of its callers do.
- The server behind `RotationRuns.RotationConverges` gives one acceptable answer per
  idempotency key, with a revision above the recorded one, and only rotation
  attempts run between the crashes.  The safety lemmas assume nothing of the server.
- The metadata a rotation commits obeys the text rules of the credential it comes from.
- Clock values, random draws, file-system listings, network results and task
  scheduling are parameters, and every statement is for all of them.

## Model

| member | source | states |
|---|---|---|
| `DeviceStore.CredentialStore.SaveIdentity` | crates/device-client/src/credential_store.rs:666-669 | one atomic step: the key file holds the encoded identity and nothing else changes, or the process stopped and nothing changed |
| `DeviceStore.CredentialStore.SaveIdentityMetadata` | crates/device-client/src/credential_store.rs:423-445 | the same for the metadata file; metadata the validator refuses changes nothing |
| `DeviceStore.CredentialStore.Save` | crates/device-client/src/credential_store.rs:508-517 | the same for the credential file; a credential the validator refuses changes nothing |
| `DeviceStore.CredentialStore.SavePendingRegistration` | crates/device-client/src/credential_store.rs:126-151 | the same for the pending-registration record |
| `Rotation.FinishInterruptedIdentityRotation` | crates/device-client/src/credential_store.rs:885-922 | clears the record exactly when the installed key is the recorded target, the pending key is gone, the credential advanced, the metadata agrees and nothing is bound; otherwise it reports and changes nothing |
| `Rotation.PrepareIdentityRotation` | crates/device-client/src/credential_store.rs:687-737 | reuses a pending key of this or the next generation, refuses any other, and otherwise draws and durably writes one |
| `Rotation.LoadOrCreatePendingRotation` | crates/device-client/src/credential_store.rs:756-832 | returns the existing record only when it names this source or target and no later revision; creates one only from the source key |
| `Rotation.CommitIdentityRotation` | crates/device-client/src/credential_store.rs:930-955 | for every stopping point the disk is the corresponding prefix of the six ordered steps, and success means all six |
| `Rotation.BeginRotation` | crates/device-client/src/registration.rs:473-513 | recovery, key and record before the request: for every disk and stopping point, the disk left and the plan returned |
| `Rotation.DeviceRotate` | crates/device-client/src/registration.rs:464-552 | for every disk, stopping point, lost reply and server answer: exact final disk, outcome and request |
| `RotationRuns.CommitKeepsPhase` | crates/device-client/src/credential_store.rs:930-955 | every prefix of the commit leaves a disk that some recovery phase handles |
| `RotationRuns.SubmitIsRecorded` | crates/device-client/src/registration.rs:473-533 | a request is only ever sent from a disk that already holds the pending key and a record naming it |
| `RotationRuns.RequestsFollowRecord` | crates/device-client/src/credential_store.rs:756-832 | whatever an uncompleted run sent is what the record it leaves names |
| `RotationRuns.CompletionInstalls` | crates/device-client/src/credential_store.rs:930-955 | an attempt that completes leaves the key it asked for, and the one on record |
| `RotationRuns.EveryAttemptIsSafe` | crates/device-client/src/registration.rs:464-552 | any attempt keeps the protocol in phase, keeps the record until it completes, sends only what the record names, and installs only the requested key |
| `RotationRuns.GenerationsCountRotations` | crates/device-client/src/registration.rs:464-552 | over any run the installed generation never falls and equals the start plus the number of completed rotations, or one ahead while one is being installed |
| `RotationRuns.RotationHasOneTarget` | crates/device-client/src/credential_store.rs:756-832 | through any interrupted attempts and the one after them, completing or not, all requests carry the same key, generation and idempotency key; the completing attempt leaves exactly the requested key installed, and until then it is the old one or that one |
| `RotationRuns.CompletesExactlyWhen` | crates/device-client/src/registration.rs:464-552 | an uninterrupted attempt against an honest server completes if and only if a rotation may begin and no redrawn legacy key contradicts the record; then the end state is the promised one, otherwise the disk is untouched |
| `RotationRuns.AnsweredKept` | crates/device-client/src/registration.rs:531-546 | no interrupted attempt loses the relation between the stored credential and the answer recorded by the server |
| `RotationRuns.RotationConverges` | crates/device-client/src/registration.rs:464-552 | from every disk of the protocol and after any interrupted attempts, the next uninterrupted one finishes if and only if a rotation may begin and no redrawn legacy key contradicts the record (for fresh draws: no legacy key has a rotation on record); then the requested key is installed with a newer credential, nothing pending is left and the generation is exact, otherwise the disk is unchanged |
| `RotationRuns.ModernRotationConverges` | crates/device-client/src/registration.rs:464-552 | from a self-contained key, unbound and with a generation to spare, it always finishes |
| `RotationRuns.LegacyRotationNeverEnds` | crates/device-client/src/credential_store.rs:963-1007 | from a recorded rotation of an EGBKEY1 key, attempts that redraw another encryption key change nothing, for ever |
| `RotationRuns.LegacyRotationStrands` | crates/device-client/src/credential_store.rs:1060-1080 | a concrete disk, stopped attempt and retry that reach that dead end |
| `RotationTickets.NewOperationIsDrawn` | crates/device-client/src/credential_store.rs:777-818 | without a record on disk, a record left and a request sent carry the operation key drawn by this attempt, its clock and the current credential revision, and ask for the pending or newly drawn key |
| `RotationTickets.AttemptKeepsKey` | crates/device-client/src/credential_store.rs:756-832 | every attempt sends the recorded operation key or, without a record, its own; only a completed one forgets it |
| `RotationTickets.RotationsNeverShareKeys` | crates/device-client/src/credential_store.rs:756-832 | over any run with differing draws two requests carry the same operation key if and only if they belong to the same rotation |
| `RotationTickets.CredentialFollowsReply` | crates/device-client/src/registration.rs:531-546 | a stored credential changes only into a delivered answer that repeats the request and moves the revision forward, for the same device, origin and profiles |
| `RotationOutcomes.GoesAheadExactlyWhen` | crates/device-client/src/registration.rs:473-513 | from every disk whatsoever: a rotation goes ahead if and only if credential, keys, record and binding fit each other, and a leftover record is cleared if and only if everything it names is installed |
| `RotationOutcomes.RefusedLeavesDisk` | crates/device-client/src/registration.rs:473-513 | any other disk is left as it is, and nothing is sent |
| `RotationOutcomes.MustStopExactlyWhen` | crates/device-client/src/registration.rs:497-505 | the demand to stop first is made exactly for a bound device with nothing of a rotation on disk |
| `RotationOutcomes.PreparesExactlyWhen` | crates/device-client/src/credential_store.rs:687-737 | from every pending file: reused if it is the installed key or the next generation, drawn if there is none, otherwise refused |
| `RotationOutcomes.EnlistsExactlyWhen` | crates/device-client/src/credential_store.rs:756-832 | from every record file: taken up exactly when it names these keys and no later revision, created exactly for a later key without a record |
| `RotationOutcomes.SendsExactlyWhen` | crates/device-client/src/registration.rs:506-533 | a request is sent exactly after the durable steps that were missing |
| `RotationOutcomes.RequestCarries` | crates/device-client/src/credential_store.rs:687-737 | from every disk: the pending key or the one drawn, under the recorded operation or a new one |
| `RotationOutcomes.UnansweredLeaves` | crates/device-client/src/registration.rs:506-533 | an attempt without a usable answer leaves exactly the key and record it had time to write |
| `RotationOutcomes.RefusedAnswerLeaves` | crates/device-client/src/registration.rs:534-545 | an answer that does not repeat the request or does not move the revision forward changes nothing |
| `RotationOutcomes.AcceptedAnswerCommits` | crates/device-client/src/credential_store.rs:930-955 | an acceptable answer is installed as key, metadata, credential, binding, pending key and record in that order, as far as the process gets; one the store refuses stops after the metadata |
| `Enrolment.LoadPending` | crates/device-client/src/registration.rs:68-82 | an expired pending operation without re-enroll only records its expiry |
| `Enrolment.EstablishIdentity` | crates/device-client/src/registration.rs:144-178 | an existing key is loaded, never replaced; a key is written only into a directory that holds none |
| `Enrolment.ReviveOperation` | crates/device-client/src/registration.rs:189-217 | the only place that gives a pending operation a new idempotency key, and only with re-enroll and a token |
| `Enrolment.Exchange` | crates/device-client/src/registration.rs:303-334 | succeeds exactly when the reply is acceptable and no stop intervenes; a reply is stored only if it advances the revision; on failure the operation stays recorded |
| `Enrolment.OpenOperation` | crates/device-client/src/registration.rs:262-285 | the operation a request runs under is on disk before the request |
| `Enrolment.SubmitOperation` | crates/device-client/src/registration.rs:262-334 | the request under the resumed or newly opened operation; succeeds exactly when the reply is acceptable and no stop intervenes |
| `Enrolment.FinishIdentity` | crates/device-client/src/registration.rs:236-334 | the metadata, then the already-enrolled exit exactly for a fresh credential of this identity with nothing asked for, else the request |
| `Enrolment.EnsureIdentity` | crates/device-client/src/registration.rs:180-334 | from a proved identity: what is sent is the operation found, revived or newly opened; succeeds exactly when admitted and not stopped, by the already-enrolled exit exactly when the credential is fresh and nothing is asked for; what is sent and stored is this identity's, under this origin |
| `Enrolment.EnsureContext` | crates/device-client/src/registration.rs:144-334 | the same from the arguments and stored context: identity, then everything after it |
| `Enrolment.EnsureDevice` | crates/device-client/src/registration.rs:64-335 | for every disk, stopping point and reply: key bytes kept, credential revision only rises, the operation found is kept and is what is sent, also by a run that succeeds, unless it is explicitly revived; requests recorded until success; a record left and a key sent are the ones found, renewed or drawn by this run, for the origin asked for; it answers already enrolled if and only if the stored credential is good for more than five minutes, of this device, origin and profiles, and nothing was asked for; it succeeds if and only if the arguments, disk and reply admit it and the process completes the steps needed |
| `Enrolment.EnrolmentNeverReplacesIdentity` | crates/device-client/src/registration.rs:64-335 | over any series of runs the key on disk never changes and a stored credential gives way only to a higher revision |
| `Enrolment.RequestsNameTheOperation` | crates/device-client/src/registration.rs:262-309 | every request of every run names the pending operation found, the run that succeeds included, as long as nothing is revived |
| `Enrolment.RetriesAreOneOperation` | crates/device-client/src/registration.rs:64-335 | up to and including the run that succeeds, an enrolment that is not revived sends one operation for one identity |
| `EnrolmentOutcomes.PlainSucceedsExactlyWhen` | crates/device-client/src/registration.rs:64-335 | for every disk without a pending operation and every run: it succeeds but for a crash if and only if origin, profiles, key, arguments and answer are as required, in terms of the disk and the arguments alone |
| `EnrolmentOutcomes.PendingSucceedsExactlyWhen` | crates/device-client/src/registration.rs:64-335 | the same with a pending operation, which goes on under its own origin and key until it expires, afterwards only by an explicit renewal |
| `EnrolmentOutcomes.RefreshSucceedsExactlyWhen` | crates/device-client/src/registration.rs:239-335 | for a known device: the credential serves while it is good for more than five minutes, otherwise the server must answer above its revision |
| `EnrolmentOutcomes.ResumeSucceedsExactlyWhen` | crates/device-client/src/registration.rs:68-82 | an interrupted first enrolment is resumed exactly until it expires |
| `EnrolmentOutcomes.FirstEnrolmentSucceeds` | crates/device-client/src/registration.rs:64-335 | a first enrolment succeeds in six durable steps |
| `EnrolmentOutcomes.ForeignOriginIsRefused` | crates/device-client/src/registration.rs:134-153 | another origin than the stored one is refused for a known device |
| `EnrolmentOutcomes.UnprovenKeyIsRefused` | crates/device-client/src/registration.rs:170-174 | a key whose device and origin are unknown is never used |
| `PolicyChain.PolicyFile.CommitPolicyUpdate` | crates/device-client/src/credential_store.rs:314-332 | replaces the document exactly when it still equals the prepared predecessor, the revision is the next one and the successor verifies |
| `PolicyChain.StepKeepsInv` | crates/device-client/src/credential_store.rs:190-332 | every step of every writer keeps the chain and the rule that only the lock holder is between comparing and writing |
| `PolicyChain.ChainLinks` | crates/device-client/src/lib.rs:437-483 | the i-th commit starts from the document of the one before it at revision start + i; a replacement sets the requested canonical roots with their digest and raises the allowlist revision, a move sets the requested bundle, and neither touches the other part |
| `PolicyChain.PolicyUpdatesFormAChain` | crates/device-client/src/lib.rs:544-602 | over any interleaving of any number of writers, dying anywhere: commits form one chain whose every link does what its change asked for, the revision counts them, and two updates prepared from one document never both commit |
| `PolicyChain.DocumentIsLastCommitted` | crates/device-client/src/lib.rs:437-483 | at every point of every interleaving the document holds the canonical roots and digest of the last committed replacement and the bundle of the last committed move, or those it started with |
| `PolicyChain.VerifiesExactlyWhen` | crates/device-client/src/lib.rs:354-435 | a document verifies exactly when version, revisions, number of roots, digest and paths are in order |
| `PolicyChain.RootsPrepareExactlyWhen` | crates/device-client/src/lib.rs:437-466 | when new roots can be prepared |
| `PolicyChain.BundlePreparesExactlyWhen` | crates/device-client/src/lib.rs:467-483 | when a bundle can be prepared; only a managed migration may start from one that no longer verifies |
| `PolicyChain.CommitsExactlyWhen` | crates/device-client/src/credential_store.rs:314-332 | for any update: nothing came in between, the revision is the next one and it verifies; and which error answers each other case |
| `PolicyChain.PreparedCommitsExactlyWhen` | crates/device-client/src/credential_store.rs:314-332 | a prepared update commits exactly while the document is the one it was prepared from and it still verifies |
| `PolicyChain.LoneWriterCommits` | crates/device-client/src/credential_store.rs:190-332 | a writer left alone gets its update committed |
| `PolicyChain.DeathFreesLock` | crates/device-client/src/credential_store.rs:190-332 | a writer that dies changes nothing and another can go on |
| `Scheduling.AcquireRefines` | crates/protocol/src/scheduler.rs:76-107 | acquisition succeeds if and only if the live guards leave room and no key conflicts, and then the bookkeeping is that of one more guard |
| `Scheduling.ReleaseTracks` | crates/protocol/src/scheduler.rs:159-172 | dropping any live guard removes exactly its own contribution |
| `Scheduling.ReleaseUndoesAcquire` | crates/protocol/src/scheduler.rs:76-107 | a guard dropped at once restores the bookkeeping |
| `Scheduling.SchedulerRefinesLiveGuards` | crates/protocol/src/scheduler.rs:76-172 | over any interleaving: the counter is the number of live guards and within the limit, the keys are their disjoint union, the binding flag means a sole binding guard, and no guards means the initial state |
| `Scheduling.ConfinedGuardsAreAlone` | crates/protocol/src/scheduler.rs:123-142 | guards confined to one Task Space exclude each other |
| `Scheduling.KeysMeetExactlyWhen` | crates/protocol/src/scheduler.rs:123-142 | two scopes without a binding lock share a key exactly when they name the same Task Space or tabs under the same joined text |
| `Scheduling.Scheduler.Create` | crates/protocol/src/scheduler.rs:61-73 | a limit is accepted exactly between 1 and 4 |
| `Scheduling.Scheduler.TryAcquire` | crates/protocol/src/scheduler.rs:76-107 | the in-place update is the specified acquisition, and a refusal changes nothing |
| `Scheduling.Scheduler.DropGuard` | crates/protocol/src/scheduler.rs:159-172 | the in-place update is the specified release |
| `Leases.RenewalStaysBounded` | crates/protocol/src/lease.rs:90-114 | a renewal is granted exactly when it should be, never passes the absolute lifetime, and a refusal leaves the lease end alone |
| `SupervisionExact.AdmitsExactlyWhen` | crates/protocol/src/lease.rs:49-76 | a lease admits exactly while healthy, unrevoked, within its lifetime and with twenty seconds left, and which refusal answers each other case |
| `SupervisionExact.NewLeaseAdmits` | crates/protocol/src/lease.rs:47-58 | a new lease admits for its first forty seconds and renews for eight hours |
| `SupervisionExact.RenewalRestores` | crates/local-bridge/src/supervisor_remote.rs:179-206 | a healthy report restores admission exactly up to its times; refusals change nothing |
| `SupervisionExact.FailureRevokesExactlyWhen` | crates/local-bridge/src/supervisor_remote.rs:209-235 | a failed renewal revokes exactly at the end of the lifetime or of the grace interval, and otherwise sets or keeps the deadline |
| `SequenceLedger.LedgerFile.PersistRemoteSequence` | crates/local-bridge/src/state_store.rs:73-126 | the bounded retry loop leaves the storage its first usable temporary file decides |
| `SequenceLedger.LedgerFile.ReserveRemoteSequence` | crates/local-bridge/src/supervisor_control.rs:245-256 | the mark rises only after the ledger is durable; a replay or failed write admits nothing |
| `SequenceLedger.AdmittedSequencesIncrease` | crates/local-bridge/src/state_store.rs:40-126 | over any run of crashes, power losses, failed writes and restarts the admitted sequences strictly increase |
| `SequenceLedger.FirstUsableDecides` | crates/local-bridge/src/state_store.rs:73-126 | the first temporary file that can be made decides, among the first eight |
| `SequenceLedger.AdmitsExactlyWhen` | crates/local-bridge/src/supervisor_control.rs:245-256 | admitted exactly above the mark and with the ledger written |
| `SequenceLedger.DyingAdmitsNothing` | crates/local-bridge/src/state_store.rs:73-126 | a process that dies while persisting may raise the ledger but admits nothing |
| `BridgeProtocol.AcceptedScopeIsConfined` | crates/protocol/src/types.rs:191-237 | every accepted request locks the binding or the one dedicated Task Space |
| `BridgeProtocol.NormalizedIsStable` | crates/protocol/src/scheduler.rs:16-43 | a normalized scope normalizes to itself, so a stored permit scope compares equal |
| `ProtocolText.DedicatedExactlyWhen` | crates/protocol/src/types.rs:569-579 | a dedicated name is the prefix and one to 243 letters, digits, hyphens, underscores or colons |
| `ProtocolText.DedicatedIsPlain` | crates/protocol/src/types.rs:570-579 | a dedicated Task Space name survives trimming, is printable and holds no wildcard |
| `SupervisorObject.BridgeSupervisor.RevokeBinding` | crates/local-bridge/src/supervisor_control.rs:76-82 | revoked, cancelled and without permits; nothing else changes |
| `SupervisorObject.BridgeSupervisor.CancelAll` | crates/local-bridge/src/supervisor_control.rs:85-87 | only the cancel flag changes |
| `SupervisorObject.BridgeSupervisor.ResumeAfterReconnect` | crates/local-bridge/src/supervisor_control.rs:95-110 | the flag is cleared exactly for a lease that is neither expired nor revoked |
| `SupervisorObject.BridgeSupervisor.ActivateGeneration` | crates/local-bridge/src/supervisor_control.rs:113-127 | only a strictly larger generation starts a new lease, without permits and uncancelled |
| `SupervisorObject.BridgeSupervisor.RenewLease` | crates/local-bridge/src/supervisor_remote.rs:179-206 | the exact new lease for a healthy or unhealthy report, or the exact refusal without change |
| `SupervisorObject.BridgeSupervisor.MarkRenewalFailed` | crates/local-bridge/src/supervisor_remote.rs:209-235 | the first deadline is kept, and reaching it or the absolute lifetime revokes and cancels |
| `SupervisorObject.BridgeSupervisor.NextSequence` | crates/local-bridge/src/supervisor_control.rs:224-234 | the counter rises by one or is exhausted |
| `SupervisorObject.BridgeSupervisor.IssuePermit` | crates/local-bridge/src/supervisor_control.rs:130-222 | the exact stored permit and counter, or the exact refusal; a scope refusal still spends the sequence |
| `SupervisorObject.BridgeSupervisor.RedeemPermit` | crates/local-bridge/src/supervisor_execution.rs:12-80 | which request spends which permit, and every refusal in order |
| `SupervisorObject.BridgeSupervisor.ExecutePermit` | crates/local-bridge/src/supervisor_execution.rs:7-128 | a run starts under a guard exactly for a matching, admitted request |
| `SupervisorObject.BridgeSupervisor.ReapExecution` | crates/local-bridge/src/supervisor_execution.rs:134-135 | the guard is released when the process has ended |
| `SupervisorObject.BridgeSupervisor.PrepareRemoteExecution` | crates/local-bridge/src/supervisor_remote.rs:13-174 | admission, durable reservation, unwrap, validation, scheduling and the second cancel check in order, with the exact state after each refusal and each failed seal |
| `SupervisorObject.BridgeSupervisor.StartRemote` | crates/local-bridge/src/supervisor_remote.rs:97-153 | a registered run, a conflict answer, an answer after a cancellation in between, or a refused duplicate; every guard not run is released |
| `SupervisorObject.BridgeSupervisor.CancelRemoteRequest` | crates/local-bridge/src/supervisor_remote.rs:243-289 | marks exactly the addressed request, only with its session key |
| `SupervisorObject.BridgeSupervisor.FinishRemoteRequest` | crates/local-bridge/src/supervisor_remote.rs:292-299 | forgets exactly that request |
| `SupervisorObject.BridgeSupervisor.ClearRemoteRequests` | crates/local-bridge/src/supervisor_remote.rs:302-309 | forgets all of them |
| `SupervisionRuns.StepKeepsInv` | crates/local-bridge/src/supervisor_remote.rs:13-309 | every step keeps: bounded lease, grace with deadline, revoked means cancelled, permits of the current generation with used-up sequences, exact scheduler bookkeeping, reserved request table |
| `SupervisionRuns.SingleFlight` | crates/local-bridge/src/supervisor_remote.rs:88-129 | in every run from a start, whatever the limit and the mix of requests, at most one execution holds the scheduler |
| `SupervisionRuns.RevocationIsAbsorbing` | crates/local-bridge/src/supervisor_control.rs:76-127 | after a revocation no sequence of steps issues or starts anything until a strictly larger generation is activated |
| `SupervisionRuns.PermitSpentExactlyWhen` | crates/local-bridge/src/supervisor_execution.rs:25-80 | a permit leaves the store if and only if the request is well formed, current, uncancelled, matching and within size |
| `SupervisionRuns.StepAccountsForPermits` | crates/local-bridge/src/supervisor_control.rs:130-243 | what each step adds to or takes from the permit store; revoking and activating empty it |
| `SupervisionRuns.PermitsAreOneShot` | crates/local-bridge/src/supervisor_execution.rs:25-128 | over any run each permit is issued once under a new sequence and starts at most one run, and only issued permits run |
| `SupervisionRuns.GraceIsBoundedByFirstFailure` | crates/local-bridge/src/supervisor_remote.rs:209-235 | without a renewal the first deadline never moves, nothing is issued, no relayed request starts, and a failure reported at or after it revokes |
| `SupervisionRuns.FirstFailureOpensGrace` | crates/local-bridge/src/supervisor_remote.rs:225-228 | the first failure sets the deadline it computed |
| `SupervisionRuns.GraceDoesNotStopIssuedPermits` | crates/local-bridge/src/supervisor_execution.rs:22-30 | executing a permit has the same result inside and outside a grace interval |
| `SupervisionRuns.PermitRunsExactlyWhen` | crates/local-bridge/src/supervisor_execution.rs:22-128 | a stored permit can start a run if and only if it is usable, nothing is cancelled, revoked or running and the limit is not zero: lease health does not enter, so this is also what a grace interval lets through |
| `SupervisionRuns.IssuedIsUsable` | crates/local-bridge/src/supervisor_control.rs:130-222 | an issued permit is usable exactly until it expires |
| `SupervisionRuns.IssuedPermitRunsOnce` | crates/local-bridge/src/supervisor_execution.rs:25-128 | until it expires an issued permit starts a run on a free scheduler, and the same request is a replay afterwards |
| `SupervisionRuns.GraceStillRunsAPermit` | crates/local-bridge/src/supervisor_execution.rs:22-128 | a concrete state in grace in which a run starts |
| `SupervisionRuns.GraceExampleIsReached` | crates/local-bridge/src/supervisor_remote.rs:209-235 | that state is reached by issuing a permit and reporting one failed renewal |
| `SupervisionRuns.ReservedRequestIsNew` | crates/local-bridge/src/supervisor_remote.rs:136-145 | once a sequence is reserved the request is never already in the table |
| `SupervisionRuns.LifeAscends` | crates/local-bridge/src/supervisor_control.rs:245-256 | within one process the relayed sequences that start strictly increase and the ledger stays at or above them |
| `SupervisionRuns.NoReplayAcrossRestarts` | crates/local-bridge/src/state_store.rs:40-126 | over any number of process lives and power losses no relayed sequence starts twice |
| `SupervisionExact.ActivationStartsAfresh` | crates/local-bridge/src/supervisor_control.rs:113-127 | a larger generation starts uncancelled, without permits and admitting; anything else changes nothing |
| `SupervisionExact.ResumesExactlyWhen` | crates/local-bridge/src/supervisor_control.rs:95-110 | a reconnect lifts a cancellation exactly while the lease runs |
| `SupervisionExact.AcceptsExactlyWhen` | crates/protocol/src/types.rs:191-237 | which sealed requests this Bridge may run, field by field |
| `SupervisionExact.NormalizesExactly` | crates/protocol/src/scheduler.rs:16-43 | a scope stays narrow exactly when it names a plain Task Space, and a plain tab where one is asked for; everything else locks the binding |
| `SupervisionExact.RelayRefusals` | crates/local-bridge/src/supervisor_remote.rs:13-96 | every refusal of a relayed request before its sealed part is looked at, in order |
| `SupervisionExact.RelayAnswers` | crates/local-bridge/src/supervisor_remote.rs:80-174 | every answer to a request that could be opened, sealed or not |
| `SupervisionExact.RelayRunsExactlyWhen` | crates/local-bridge/src/supervisor_remote.rs:13-174 | a relayed request runs if and only if it is admitted, above the mark with a durable write, opened by its wrap, acceptable, not cancelled in between, and nothing else runs |
| `SupervisionExact.RelayLeaves` | crates/local-bridge/src/supervisor_remote.rs:13-174 | what is left: the raised mark, the one guard and table entry of a run, or nothing |
| `SupervisionExact.EveryModeRuns` | crates/local-bridge/src/supervisor_remote.rs:97-129 | a first request runs in each of the three modes |
| `SupervisionExact.CancelMarksExactlyWhen` | crates/local-bridge/src/supervisor_remote.rs:243-289 | the addressed entry ends up cancelled exactly for its own session key; every other case changes nothing |
| `SupervisionExact.IssuesExactlyWhen` | crates/local-bridge/src/supervisor_control.rs:130-222 | a permit is issued exactly in an admitting, uncancelled lease for a scope within the dedicated Task Space, and with which fields |
| `SupervisionExact.IssueRefusals` | crates/local-bridge/src/supervisor_control.rs:130-222 | every refusal to issue, in order; only a refused scope spends a sequence |
| `SupervisionExact.RedeemRefusals` | crates/local-bridge/src/supervisor_execution.rs:12-80 | every refusal to redeem, in order |
| `SupervisionExact.ExecutesExactlyWhen` | crates/local-bridge/src/supervisor_execution.rs:7-128 | a permit as issued starts a run exactly for its own request, in time, within its scope, with nothing else running |
| `PermitsOverRuns.EveryPermitRunsExactlyWhen` | crates/local-bridge/src/supervisor_execution.rs:7-128 | the same at any point of any run of a Bridge, whatever commands came before |
| `PermitsOverRuns.RunKeepsStandard` | crates/local-bridge/src/supervisor_control.rs:130-222 | every permit stored at any point of any run is one as this Bridge issues them |
| `PermitsOverRuns.StartsAreReported` | crates/local-bridge/src/supervisor_remote.rs:97-174 | a start is reported exactly when something starts, so the statements about runs miss none |
| `RelaySession.RunRelaySession` | crates/local-bridge/src/relay_session.rs:55-197 | the loop does exactly what the specification says for every sequence of events and interleaved steps, and returns cancelled, with no request in the table and no guard of its own |
| `RelaySession.RunTurn` | crates/local-bridge/src/relay_session.rs:67-195 | one pass of the loop, including the checks of the cancel flag |
| `RelaySession.OnEvent` | crates/local-bridge/src/relay_session.rs:73-194 | one arm of the select |
| `RelaySession.OnFrame` | crates/local-bridge/src/relay_session.rs:120-176 | which frames start, cancel or end what |
| `RelaySession.OnCompletion` | crates/local-bridge/src/relay_session.rs:74-110 | a response is sent only while not cancelled, and only then is the request forgotten |
| `RelaySession.CancelAndReap` | crates/local-bridge/src/relay_session.rs:199-206 | cancelled, every task awaited in any order with steps of other tasks in between, request table empty, only local guards left |
| `RelaySession.OutsideKeeps` | crates/local-bridge/src/relay_session.rs:55-206 | steps of other tasks never touch the session's share and never lift a cancellation |
| `RelaySession.TeardownIsComplete` | crates/local-bridge/src/relay_session.rs:199-206 | however the teardown is entered, nothing of the session outlives it |
| `RelaySession.EveryTurnKeeps` | crates/local-bridge/src/relay_session.rs:64-175 | at every point at most the parallel limit plus one tasks are pending, each with its own key and guard, and no request is answered twice |
| `RelaySession.SessionsDoNotOverlap` | crates/local-bridge/src/relay_session.rs:55-206 | every session ends cancelled with nothing pending, an empty request table and only local guards; with none of those the scheduler is as created |
| `RelayEndings.EventGoesOnExactlyWhen` | crates/local-bridge/src/relay_session.rs:67-196 | a session goes on exactly after a process exit, a delivered answer, a taken cancel frame, a request inside the window that runs or can be answered, a pong, an answered ping, or a notice without cancellation |
| `RelayEndings.KeepAlivesLeaveAlone` | crates/local-bridge/src/relay_session.rs:177-187 | a pong, an answered ping and a notice without cancellation leave the session exactly as it was |
| `RelayEndings.DeliveryRecords` | crates/local-bridge/src/relay_session.rs:74-110 | a delivered answer is recorded, its guard released and its request forgotten, and nothing else |
| `RelayEndings.RequestJoins` | crates/local-bridge/src/relay_session.rs:140-175 | an accepted request joins the pending ones, with its guard if it runs |
| `RelayEndings.CancelGoesThrough` | crates/local-bridge/src/relay_session.rs:130-139 | an accepted cancel frame marks its target and leaves the session as it was |
| `RelayEndings.EventEndsAs` | crates/local-bridge/src/relay_session.rs:67-196 | the ending of every event that does not let a session go on |
| `RelayEndings.FrameEnds` | crates/local-bridge/src/relay_session.rs:120-176 | with which error a frame ends the session |
| `RelayEndings.TurnEndsExactlyWhen` | crates/local-bridge/src/relay_session.rs:67-196 | one pass ends the session if and only if it is found cancelled or the event does not let it go on |
| `RelayEndings.SessionOpenExactlyWhen` | crates/local-bridge/src/relay_session.rs:55-197 | after any turns a session is still open if and only if every one of them let it go on |
| `RelaySeries.SessionAnswersAreNew` | crates/local-bridge/src/relay_session.rs:74-110 | every answer of a session was reserved after it opened |
| `RelaySeries.SessionsFollowEachOther` | crates/local-bridge/src/outbound.rs:343-375 | over any series of sessions with anything going on between them: each opens as a first one would, none overlap, and no relayed request is answered twice in all of them |
| `BundleTree.ListedOnce` | crates/protocol/src/learning.rs:214-247 | a walk of a tree meets every path once |
| `BundleTree.ListedIsFound` | crates/protocol/src/learning.rs:164-171 | what a walk lists is exactly what a path lookup finds |
| `BundleTree.AncestorsAreDirs` | crates/protocol/src/learning.rs:199-213 | everything on the way to a listed path is a listed directory |
| `BundlePaths.AcceptedPathIsPlain` | crates/protocol/src/learning.rs:537-551 | an accepted manifest path is a nonempty run of plain names and cannot leave the root |
| `BundlePaths.PathRoundTrip` | crates/protocol/src/bin/ego-browser-learning-bundle.rs:179-187 | a path the generator writes is the path the verifier reads |
| `BundleInventory.Parents` | crates/protocol/src/learning.rs:199-213 | the proper nonempty prefixes of a path |
| `BundleInventory.ExpectedDirectories` | crates/protocol/src/learning.rs:199-213 | exactly the ancestors of the expected files |
| `BundleInventory.VerifyCompleteInventory` | crates/protocol/src/learning.rs:195-273 | terminates, and accepts if and only if the tree is link-free, its files other than the root manifest are exactly the expected ones and its directories exactly their ancestors |
| `LearningBundle.VerifyEntry` | crates/protocol/src/learning.rs:164-178 | an entry matches exactly when its path names a regular file of that size and digest |
| `LearningBundle.VerifyEntries` | crates/protocol/src/learning.rs:147-183 | the loop accepts exactly the manifests whose entries all match, differ and stay within the total |
| `LearningBundle.VerifyBundle` | crates/protocol/src/learning.rs:119-184 | accepted exactly when the manifest is readable, its header valid and signed, its entries sound and the inventory exact |
| `BundleUniqueness.AcceptedIsWhole` | crates/protocol/src/learning.rs:119-184 | what every accepted bundle is, limit by limit |
| `BundleUniqueness.FilesAreEntries` | crates/protocol/src/learning.rs:147-193 | files and entries of an accepted bundle correspond one to one, with size and digest |
| `BundleUniqueness.ManifestFixesBundle` | crates/protocol/src/learning.rs:101-273 | two bundles accepted under one manifest have the same directories and files; contents that differ are a digest collision |
| `BundleGenerator.CollectPaths` | crates/protocol/src/bin/ego-browser-learning-bundle.rs:151-203 | terminates with the ordered paths of all files exactly when the learnings tree is link-free and within both limits |
| `BundleGenerator.CollectFiles` | crates/protocol/src/bin/ego-browser-learning-bundle.rs:151-221 | the listing holds each file once, in byte order, with its size and digest |
| `BundleGenerator.BuildManifest` | crates/protocol/src/bin/ego-browser-learning-bundle.rs:129-149 | a manifest is built exactly for valid tokens and a collectable tree that is not empty, with the supported versions and the listing |
| `BundleGenerator.TokenExactlyWhen` | crates/protocol/src/bin/ego-browser-learning-bundle.rs:421-431 | a token is one to 128 letters, digits, dots, underscores, plus signs or hyphens |
| `BundleGenerator.ListingIsSound` | crates/protocol/src/bin/ego-browser-learning-bundle.rs:204-220 | every generated entry passes the verifier's entry checks |
| `BundleGenerator.GeneratorMeetsVerifier` | crates/protocol/src/bin/ego-browser-learning-bundle.rs:129-221 | the verifier accepts a generated and signed manifest, written in any way, if and only if it is at most one mebibyte, the root holds nothing besides learnings and every directory has a file beneath it |
| `BundleLimits.EmptyDirectoryIsRefused` | crates/protocol/src/bin/ego-browser-learning-bundle.rs:167-203 | one file beside an empty directory: a manifest can be built and none is accepted |
| `BundleLimits.ExtraEntryIsRefused` | crates/protocol/src/bin/ego-browser-learning-bundle.rs:151-158 | the same beside another entry in the root |
| `BundleLimits.LargeManifestIsRefused` | crates/protocol/src/learning.rs:119-124 | thousands of empty files in names of ordinary length: nothing else is wrong, and any written form that holds the paths is refused |
| `CanonicalJson.CanonicalKeepsMeaning` | crates/protocol/src/canonical_json.rs:170-182 | the canonical form has ascending keys at every depth and denotes the same value |
| `CanonicalJson.CanonicalIsUnique` | crates/protocol/src/canonical_json.rs:170-182 | a value has one canonical document |
| `TextOrder.LessByFirstDifference` | crates/protocol/src/canonical_json.rs:170-182 | keys are ordered by the first character in which they differ, a proper prefix first |
| `CanonicalJson.CanonicalFormIsComplete` | crates/protocol/src/canonical_json.rs:164-182 | equal canonical forms if and only if equal values, where objects are unordered |
| `CanonicalJson.CanonicalUpToOrder` | crates/protocol/src/canonical_json.rs:164-182 | for documents without repeated keys: equal canonical forms if and only if equal up to member order at every depth |
| `CanonicalJson.CanonicalIsIdempotent` | crates/protocol/src/canonical_json.rs:170-182 | canonicalizing twice changes nothing more, and exactly canonical documents are fixed |
| `CanonicalJson.ReorderedIsSameMeaning` | crates/protocol/src/canonical_json.rs:125-138 | without repeated keys, equal up to member order is denoting the same value |
| `CanonicalJson.ParseStrict` | crates/protocol/src/canonical_json.rs:142-161 | accepts exactly the documents without a repeated key at any depth, unchanged, and otherwise names a key that is repeated |
| `CanonicalJson.VisitMap` | crates/protocol/src/canonical_json.rs:125-138 | the same for an object |
| `CanonicalJson.VisitSeq` | crates/protocol/src/canonical_json.rs:114-123 | the same for an array |
| `Transcripts.TranscriptIsUnambiguous` | crates/protocol/src/pop.rs:52-78 | a transcript of length-prefixed and fixed parts determines every part |
| `Transcripts.AppendField` | crates/protocol/src/pop.rs:72-78 | appends one length-prefixed part, or refuses a text beyond the four-byte length |
| `Transcripts.DeviceProofMessage` | crates/protocol/src/pop.rs:29-70 | the exact message, or the exact error |
| `Transcripts.ProvableExactlyWhen` | crates/protocol/src/pop.rs:33-50 | a message is made exactly for named parties, live generations, a 32-byte challenge, texts within their length prefix and a payload without the two proof members |
| `Transcripts.ProofIsUnambiguous` | crates/protocol/src/pop.rs:29-78 | equal messages force equal contexts (no binding is the empty one), challenge and digest |
| `Transcripts.ProofBindsPayload` | crates/protocol/src/pop.rs:51-69 | two payloads under one message denote the same value exactly when their canonical bytes agree; otherwise they are a digest collision |
| `Transcripts.TranscriptReads` | crates/protocol/src/pop.rs:52-78 | a reader of length prefixes and fixed widths recovers the fields of every transcript |
| `Transcripts.ProofReads` | crates/protocol/src/pop.rs:29-70 | read with the documented layout, a proof message gives its fields in the documented order |
| `Transcripts.KeyWrapTranscript` | crates/protocol/src/crypto.rs:222-236 | the exact transcript |
| `Transcripts.KeyWrapIsUnambiguous` | crates/protocol/src/crypto.rs:222-236 | for accepted identifiers equal transcripts force equal binding, generation, sequence and request |
| `Transcripts.KeyWrapReads` | crates/protocol/src/crypto.rs:222-236 | a reader that splits at the first NUL and at fixed widths recovers binding, generation, sequence and request |
| `Transcripts.IdsAreTextIds` | crates/protocol/src/types.rs:563-567 | for ASCII, accepted identifiers are the texts the protocol validators take |
| `Transcripts.NulBindingsCollide` | crates/protocol/src/crypto.rs:230-234 | without the validator a binding followed by NUL shares transcripts with the plain one |
| `Framing.Reader.Read` | crates/protocol/src/framing.rs:39-42 | some next bytes, none only at the end of the stream |
| `Framing.Reader.ReadExact` | crates/protocol/src/framing.rs:43-49 | all requested bytes whatever the chunking, or Truncated with the stream exhausted |
| `Framing.Reader.ReadFrame` | crates/protocol/src/framing.rs:34-63 | one frame, clean end, Truncated or TooLarge, and exactly which bytes are left |
| `Framing.Reader.ReadAll` | crates/protocol/src/framing.rs:34-63 | reading frame after frame decodes everything that is pending |
| `Framing.Writer.WriteFrame` | crates/protocol/src/framing.rs:66-83 | appends exactly one encoded frame, or refuses and writes nothing |
| `Framing.Writer.WriteAll` | crates/protocol/src/framing.rs:66-83 | writing frame after frame appends their wire, or stops at the first that is refused |
| `Framing.FramingUnderAnyCut` | crates/protocol/src/framing.rs:34-83 | any cut of a wire of in-limit frames reads as its whole frames, then a clean end at a boundary and Truncated elsewhere |
| `Framing.FramingRoundTrip` | crates/protocol/src/framing.rs:34-83 | the whole wire reads back as the frames and a clean end |
| `Framing.OversizedIsRefused` | crates/protocol/src/framing.rs:34-63 | a length above the limit is refused whatever follows |
| `Framing.Relay` | crates/protocol/src/framing.rs:34-83 | what the writer wrote up to any cut, the reader reads through any chunking: the whole frames, then a clean end at a boundary and Truncated elsewhere |
| `Images.BridgeJpegDimensions` | crates/protocol/src/artifacts.rs:156-193 | the nonzero size in the first frame header, for every byte string, without leaving the buffer |
| `Images.BridgeDimensions` | crates/protocol/src/artifacts.rs:140-154 | the image a byte string is, by the shared reference |
| `Images.WrapperJpegDimensions` | crates/remote-wrapper/src/artifacts.rs:307-334 | the size in the first frame header, for every byte string |
| `Images.WrapperDimensions` | crates/remote-wrapper/src/artifacts.rs:294-305 | the image a byte string is, by the same reference: the two scanners agree on every input |
| `Images.ScanShifts` | crates/protocol/src/artifacts.rs:156-193 | what a scan finds depends only on the bytes ahead of it |
| `Images.JpegIsMeasured` | crates/protocol/src/artifacts.rs:156-193 | every JPEG written as segments, with fill bytes, up to a frame header is measured |
| `Images.ScanReadsFrame` | crates/protocol/src/artifacts.rs:156-193 | a scan at a frame header, recognised by its marker number, reads the size at its place |
| `Images.FrameMarkers` | crates/protocol/src/artifacts.rs:170-185 | which marker numbers are frame headers |
| `Images.PngIsMeasured` | crates/protocol/src/artifacts.rs:140-148 | every PNG with its header chunk first is measured |
| `Artifacts.CollectArtifacts` | crates/protocol/src/artifacts.rs:36-100 | all files are described exactly when the root is private and limits, count, regularity, distinct identities, sizes, pixels and total hold |
| `Artifacts.CollectFile` | crates/protocol/src/artifacts.rs:67-97 | the checks on one file and the running total |
| `Artifacts.MatchesContent` | crates/remote-wrapper/src/artifacts.rs:47-57 | the described image is the one in the content and small enough |
| `Artifacts.ValidateArtifact` | crates/remote-wrapper/src/artifacts.rs:23-58 | the per-artifact checks and the running total |
| `Artifacts.ValidateArtifacts` | crates/remote-wrapper/src/artifacts.rs:18-75 | accepted exactly when every artifact and the total are |
| `Artifacts.CollectedIsEmittable` | crates/remote-wrapper/src/artifacts.rs:18-75 | what the Bridge collects passes every check of the wrapper if and only if it is at most thirty-two artifacts, which the Bridge's own limit guarantees |

## Left out

- HTTP, WebSocket dialling, reconnect timing and signal handling; only the order of supervisor calls is kept.
- Cryptography, base64 and the JSON text grammar; documents are trees, envelopes are sealed or not.
- Text-format rules of stored records: a file is absent, refused or holds a valid value; `Reply.echoesRequest` and `Reply.wellFormed` stand for the equality and text checks on server answers.
- Owner, mode, link-count and inode checks, and symbolic-link races: a path passes or fails as a whole.
- Process spawning, process groups, output capture, the file guard and the JavaScript helpers.
- `clear`, which also removes the policy lock file, local admission records, runtime retirement and legacy-store migration.
- A relay session dropped from outside by process shutdown, which runs none of its return paths.
- A key file in the legacy form as pending key: the store never writes one. One draw of a legacy encryption key stands for all loads within one attempt.
- The policy synchronization inside `ensure` is a yes-or-no outcome; its own protocol is `PolicyChain`.
- Convergence of `ensure`: a stop between writing the key and its metadata is refused by design.
- File names that are not UTF-8.
- The final identity snapshot of the bundle verifier: the tree does not change while it is read.
- The error kinds of the bundle tools and of artifact collection: only acceptance is specified.
- `run_lease_observer_loop`: its calls appear as interleaved steps, its delays do not.
- Delivery of maximum-size artifacts through the frame limit: only artifact-level acceptance is claimed.
- BindingState and ExecutionState tables, release manifests, signing evidence and connected-response checks: lists of equalities with no depth.
- DeviceStore.CredentialStore.SavePendingRegistration: does not model the field checks of the writer, because every caller passes fields that were just generated or loaded through the same checks.
- SupervisorObject.BridgeSupervisor.RedeemPermit: does not model a cancellation between the lookup and the decryption, because the method is one atomic step; such a run is refused later by the process itself.
- LearningBundle.VerifyBundle: the signature is a yes-or-no fact about the manifest, and the comparison with the expected versions belongs to its caller.
- BundleGenerator.CollectFiles: the per-directory sorting of entries is dropped, because the result is ordered by path anyway.
