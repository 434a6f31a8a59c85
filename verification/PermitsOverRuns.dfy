/**
  What a Bridge reports of each step, and which permits it stores and runs at any point
  of any run (crates/local-bridge/src/supervisor_control.rs, supervisor_execution.rs).
 */
module PermitsOverRuns {
  import opened Wrappers
  import opened ProtocolText
  import opened Scheduling
  import opened BridgeProtocol
  import opened Supervision
  import opened SupervisionRuns
  import opened SupervisionExact
  import Sequences = SequenceLedger

  // ---------------------------------------------------------------- what a step reports and does

  /** A start is reported exactly when something starts. */
  lemma StartsAreReported(s: State, cfg: Config, e: Envelope, key: Key, nowMs: u64, now: u64, fate: Sequences.Fate,
                          chance: Chance)
    requires Inv(s, cfg)
    ensures Step(s, cfg, DoPrepare(e, now, fate, chance)).1 ==
      if RelayAccepted(s, cfg, e, now, fate) && !chance.cancelled && Idle(s, cfg)
      then RelayRun(e.generation, e.sequence) else Nothing
    ensures BeginExecute(s, cfg, e, key, nowMs).1.Ok? ==>
      e.sequence in s.permits
      && Step(s, cfg, DoExecute(e, key, nowMs)).1 == PermitRun(s.permits[e.sequence].permit)
    ensures BeginExecute(s, cfg, e, key, nowMs).1.Err? ==> Step(s, cfg, DoExecute(e, key, nowMs)).1 == Nothing
  {
    RelayRunsExactlyWhen(s, cfg, e, now, fate, chance);
  }

  /** What each step without an answer does to the flag, the lease and the permits. */
  lemma ControlSteps(s: State, cfg: Config, now: u64, grace: u64, generation: u64, until: u64, ttl: u64)
    ensures Step(s, cfg, DoCancel) == (s.(cancelled := true), Nothing)
    ensures var r := Step(s, cfg, DoRevoke);
      r.1.Nothing? && r.0.cancelled && r.0.lease.revoked && r.0.permits == map[] && r.0.consumed == {}
      && r.0 == s.(cancelled := true, lease := r.0.lease, permits := map[], consumed := {})
      && (forall later :: r.0.lease.Admit(later).BindingRevoked?)
    ensures var runs := !s.lease.revoked && now < s.lease.absoluteTtlUntil && now < s.lease.leaseUntil;
      Step(s, cfg, DoResume(now)) == (if runs then s.(cancelled := false) else s, Nothing)
    ensures Step(s, cfg, DoRenewalFailed(now, grace)) == (RenewalFailed(s, now, grace).0, Nothing)
    ensures Step(s, cfg, DoUpdateLease(generation, until, ttl))
         == (UpdateLease(s, generation, until, ttl, true).0, Nothing)
    ensures Step(s, cfg, DoActivate(generation, now)) == (Activate(s, generation, now).0, Nothing)
  {}

  /** Forgetting requests touches the request table only. */
  lemma TableSteps(s: State, cfg: Config, key: RequestKey)
    ensures var r := Step(s, cfg, DoFinishRemote(key));
      r.1.Nothing? && key !in r.0.active && r.0 == s.(active := r.0.active)
      && (forall k :: k in s.active && k != key ==> k in r.0.active && r.0.active[k] == s.active[k])
      && (forall k :: k in r.0.active ==> k in s.active)
    ensures Step(s, cfg, DoClearRemote) == (s.(active := map[]), Nothing)
  {}

  // ---------------------------------------------------------------- which permits a Bridge stores

  /** Every permit is issued under an identifier as the Bridge draws them. */
  predicate Furnished(cfg: Config, commands: seq<Command>) {
    forall i :: 0 <= i < |commands| && commands[i].DoIssue? ==> Configured(cfg, commands[i].requestId)
  }

  predicate AllStandard(s: State, cfg: Config) {
    s.lease.generation > 0 && forall q :: q in s.permits ==> Standard(s.permits[q].permit, cfg, q)
  }

  /** No step lowers the generation. */
  lemma GenerationStays(s: State, cfg: Config, c: Command)
    ensures Step(s, cfg, c).0.lease.generation >= s.lease.generation
  {
    match c {
      case DoIssue(r, now, nowMs, requestId, key) => IssuesExactlyWhen(s, cfg, r, now, nowMs, requestId, key);
      case DoExecute(e, key, nowMs) => ExecuteEffect(s, cfg, e, key, nowMs);
      case DoPrepare(e, now, fate, chance) => PrepareEffect(s, cfg, e, now, fate, chance);
      case _ =>
    }
  }

  lemma StepKeepsStandard(s: State, cfg: Config, c: Command)
    requires PermitsSound(s) && AllStandard(s, cfg) && (c.DoIssue? ==> Configured(cfg, c.requestId))
    ensures AllStandard(Step(s, cfg, c).0, cfg)
  {
    GenerationStays(s, cfg, c);
    if c.DoIssue? {
      IssuesExactlyWhen(s, cfg, c.request, c.now, c.nowMs, c.requestId, c.key);
      IssuedIsStandard(s, cfg, c.request, c.now, c.nowMs, c.requestId, c.key);
    } else {
      StepAccountsForPermits(s, cfg, c);
    }
  }

  lemma {:induction false} RunKeepsStandard(s: State, cfg: Config, commands: seq<Command>)
    requires Inv(s, cfg) && AllStandard(s, cfg) && Furnished(cfg, commands)
    ensures Inv(Run(s, cfg, commands), cfg) && AllStandard(Run(s, cfg, commands), cfg)
    decreases |commands|
  {
    if commands != [] {
      StepKeepsInv(s, cfg, commands[0]);
      StepKeepsStandard(s, cfg, commands[0]);
      RunKeepsStandard(Step(s, cfg, commands[0]).0, cfg, commands[1..]);
    }
  }

  /**
    At any point of any run of a Bridge, a request starts under a permit exactly when the
    permit is stored, is its own and in time, what it asks keeps to its scope, and nothing runs.
   */
  lemma EveryPermitRunsExactlyWhen(cfg: Config, generation: u64, now: u64, storage: Sequences.Storage,
                                   commands: seq<Command>, e: Envelope, key: Key, nowMs: u64)
    requires generation > 0 && Furnished(cfg, commands)
    ensures var s := Run(InitialState(generation, now, storage), cfg, commands);
      BeginExecute(s, cfg, e, key, nowMs).1.Ok? <==>
        && Presents(s, e, key) && nowMs < s.permits[e.sequence].permit.expiresAtMs
        && e.sealedKey == key && e.inner.Some? && Acceptable(e.inner.value, cfg)
        && KeepsScope(e.inner.value, s.permits[e.sequence].permit) && Idle(s, cfg)
  {
    var s0 := InitialState(generation, now, storage);
    InitialInv(cfg, generation, now, storage);
    RunKeepsStandard(s0, cfg, commands);
    ExecutesExactlyWhen(Run(s0, cfg, commands), cfg, e, key, nowMs);
  }

  // ---------------------------------------------------------------- text a request may carry

  predicate DotsAt(s: string, i: nat) {
    i + 2 <= |s| && s[i..i + 2] == ".."
  }

  /** A label is refused exactly for two dots next to each other, wherever they stand. */
  lemma DotsExactlyWhen(s: string)
    ensures ContainsDots(s) <==> exists i: nat :: DotsAt(s, i)
  {
    if ContainsDots(s) {
      var i: nat :| i + 1 < |s| && s[i] == '.' && s[i + 1] == '.';
      assert DotsAt(s, i);
    }
    forall i: nat | DotsAt(s, i) ensures ContainsDots(s) {
      assert s[i] == s[i..i + 2][0] && s[i + 1] == s[i..i + 2][1];
    }
  }
}
