/**
  One relay connection (crates/local-bridge/src/relay_session.rs:55-206): a loop
  that starts relayed requests, answers them and tears everything down on the way out.

  `Play` specifies the loop as a fold over what it observes; other tasks of the
  process (permit executions, the lease observer, a local revocation) take
  their own steps between any two of its own.
 */
module RelaySession {
  import opened Wrappers
  import opened ProtocolText
  import opened Scheduling
  import opened BridgeProtocol
  import opened Supervision
  import opened SupervisionRuns
  import opened SupervisorObject
  import Sequences = SequenceLedger

  type Tries = t: seq<Sequences.TemporaryFile> | |t| >= Sequences.PERSIST_ATTEMPTS
    witness seq(Sequences.PERSIST_ATTEMPTS, _ => Sequences.NameTaken)

  /** A spawned request: `guard` while its process runs, `registered` once it has a cancellation entry. */
  datatype Task = Task(key: RequestKey, registered: bool, guard: Option<PermitGuard>)

  datatype TaskEnd = Responded(encodes: bool, sent: bool) | Errored(error: BridgeError) | Panicked

  datatype Event =
    | ProcessExits(task: Task)
    | TaskCompletes(task: Task, end: TaskEnd)
    | Frame(envelope: Envelope, repeatsIdentity: bool, now: u64, tries: Tries, chance: Chance)
    | Noticed(signal: Signal)

  /** What the loop notices besides its tasks and parsed frames. */
  datatype Signal =
    | CancellationChanged
    | OversizedFrame
    | UnparsableFrame
    | Ping(answered: bool)
    | Pong
    | Closed
    | NotBinary

  /** A teardown awaits its tasks one by one; other tasks still take steps in between. */
  datatype Wait = Elsewhere(command: Command) | Awaited(task: Task)

  /** What other tasks do before an event is taken up, and how a teardown goes if it comes to one. */
  datatype Turn = Turn(before: seq<Command>, event: Event, during: seq<Wait>)

  datatype Ending = Disconnected | Failed(error: BridgeError)

  datatype Session = Session(
    bridge: State,
    pending: set<Task>,
    local: set<PermitGuard>,
    answered: seq<RequestKey>,
    ending: Option<Ending>)

  // ---------------------------------------------------------------- specification

  /** Steps that other tasks take meanwhile; reconnecting and activating only happen between sessions. */
  predicate TakenElsewhere(local: set<PermitGuard>, c: Command) {
    || c.DoIssue? || c.DoExecute? || (c.DoEnd? && c.guard in local)
    || c.DoUpdateLease? || c.DoRenewalFailed? || c.DoRevoke? || c.DoCancel?
  }

  /** The guards of permit executions after such a step. */
  function LocalAfter(s: State, local: set<PermitGuard>, cfg: Config, c: Command): set<PermitGuard> {
    if c.DoExecute? then
      var r := BeginExecute(s, cfg, c.envelope, c.key, c.nowMs).1;
      if r.Ok? then local + {r.value} else local
    else if c.DoEnd? then local - {c.guard}
    else local
  }

  function Outside(x: Session, cfg: Config, c: Command): Session {
    if TakenElsewhere(x.local, c)
    then x.(bridge := Step(x.bridge, cfg, c).0, local := LocalAfter(x.bridge, x.local, cfg, c))
    else x
  }

  function Others(x: Session, cfg: Config, commands: seq<Command>): Session
    decreases |commands|
  {
    if commands == [] then x else Others(Outside(x, cfg, commands[0]), cfg, commands[1..])
  }

  function GuardsOf(tasks: set<Task>): set<PermitGuard> {
    set t | t in tasks && t.guard.Some? :: t.guard.value
  }

  /** The one ledger that tracks these guards. */
  ghost function LedgerOf(live: set<PermitGuard>): Ledger {
    Ledger(|live|, exists g :: g in live && g.binding, KeysHeld(live))
  }

  /** Every task awaited and the request table cleared. */
  ghost function Reaped(x: Session): Session {
    x.(bridge := x.bridge.(live := x.local, book := LedgerOf(x.local), active := map[]), pending := {})
  }

  function Await(x: Session, cfg: Config, wait: Wait): Session {
    match wait
    case Elsewhere(c) => Outside(x, cfg, c)
    case Awaited(t) => if t in x.pending then Leave(x, t) else x
  }

  function Waiting(x: Session, cfg: Config, waits: seq<Wait>): Session
    decreases |waits|
  {
    if waits == [] then x else Waiting(Await(x, cfg, waits[0]), cfg, waits[1..])
  }

  /** The teardown, for any interleaving up to some point and the remaining tasks after it. */
  ghost function TornDown(x: Session, cfg: Config, during: seq<Wait>, ending: Ending): Session {
    Reaped(Waiting(x.(bridge := x.bridge.(cancelled := true)), cfg, during)).(ending := Some(ending))
  }

  /** A task that has ended no longer holds its guard. */
  function Leave(x: Session, t: Task): Session {
    x.(pending := x.pending - {t},
       bridge := if t.guard.Some? then EndExecution(x.bridge, t.guard.value) else x.bridge)
  }

  function Window(cfg: Config): nat {
    cfg.maxParallel + 1
  }

  /** The loop goes on, or cancels and reaps before it returns. */
  datatype Reaction = Continue(next: Session) | Stop(last: Session, ending: Ending)

  function Handle(x: Session, cfg: Config, event: Event): Reaction {
    match event
    case ProcessExits(t) => Continue(Exited(x, t))
    case TaskCompletes(t, end) => if t in x.pending then Complete(Leave(x, t), t.key, end) else Continue(x)
    case Frame(e, repeats, now, tries, chance) => HandleFrame(x, cfg, e, repeats, now, tries, chance)
    case Noticed(signal) =>
      var ending := EndedBy(signal, x.bridge.cancelled);
      if ending.Some? then Stop(x, ending.value) else Continue(x)
  }

  function EndedBy(signal: Signal, cancelled: bool): Option<Ending> {
    match signal
    case CancellationChanged => if cancelled then Some(Disconnected) else None
    case Ping(answered) => if answered then None else Some(Failed(ProtocolViolation))
    case Pong => None
    case Closed => Some(Disconnected)
    case OversizedFrame => Some(Failed(ProtocolViolation))
    case UnparsableFrame => Some(Failed(ProtocolViolation))
    case NotBinary => Some(Failed(ProtocolViolation))
  }

  /** A process has ended; its task still has the answer to deliver. */
  function Exited(x: Session, t: Task): Session {
    if t in x.pending && t.guard.Some? then
      var y := Leave(x, t);
      y.(pending := y.pending + {t.(guard := None)})
    else x
  }

  function Complete(y: Session, key: RequestKey, end: TaskEnd): Reaction {
    match end
    case Errored(error) => Stop(y, Failed(error))
    case Panicked => Stop(y, Failed(ProtocolViolation))
    case Responded(encodes, sent) =>
      if y.bridge.cancelled then Stop(y, Disconnected)
      else if !encodes || !sent then Stop(y, Failed(ProtocolViolation))
      else Continue(y.(bridge := FinishRemote(y.bridge, key), answered := y.answered + [key]))
  }

  function HandleFrame(x: Session, cfg: Config, e: Envelope, repeats: bool, now: u64, tries: Tries, chance: Chance)
    : Reaction
  {
    if !e.wellFormed || !e.isRequest then Stop(x, Failed(ProtocolViolation))
    else if e.messageType == Cancel then AfterCancel(x, CancelRemote(x.bridge, cfg, e, repeats))
    else if e.messageType != Execute || |x.pending| >= Window(cfg) then Stop(x, Failed(ProtocolViolation))
    else
      var fate := Sequences.FateOf(tries, Sequences.PERSIST_ATTEMPTS);
      AfterPrepare(x, e, PrepareRemote(x.bridge, cfg, e, now, fate, chance))
  }

  function AfterCancel(x: Session, c: (State, Result<bool, BridgeError>)): Reaction {
    var y := x.(bridge := c.0);
    if c.1.Err? then Stop(y, Failed(c.1.error)) else Continue(y)
  }

  function AfterPrepare(x: Session, e: Envelope, p: (State, Result<Remote, BridgeError>)): Reaction {
    var y := x.(bridge := p.0);
    if p.1.Err? then Stop(y, Failed(p.1.error)) else Continue(y.(pending := y.pending + {Spawned(e, p.1.value)}))
  }

  function Spawned(e: Envelope, remote: Remote): Task {
    Task(KeyOf(e), remote.Running?, if remote.Running? then Some(remote.guard) else None)
  }

  ghost function TakeTurn(x: Session, cfg: Config, turn: Turn): Session {
    match if x.bridge.cancelled then Stop(x, Disconnected) else Handle(Others(x, cfg, turn.before), cfg, turn.event)
    case Continue(next) => next
    case Stop(last, ending) => TornDown(last, cfg, turn.during, ending)
  }

  /** The session after some turns, ended or not. */
  ghost function Advance(x: Session, cfg: Config, turns: seq<Turn>): Session
    decreases |turns|
  {
    if turns == [] || x.ending.Some? then x else Advance(TakeTurn(x, cfg, turns[0]), cfg, turns[1..])
  }

  /** The whole session; a stream that has nothing more is a disconnect. */
  ghost function Play(x: Session, cfg: Config, turns: seq<Turn>): Session {
    var y := Advance(x, cfg, turns);
    if y.ending.Some? then y else TornDown(y, cfg, [], Disconnected)
  }

  // ---------------------------------------------------------------- what the session keeps

  /** Every live guard belongs to one task of this session or to a local execution. */
  predicate GuardsShared(live: set<PermitGuard>, local: set<PermitGuard>, pending: set<Task>) {
    && live == local + GuardsOf(pending) && local !! GuardsOf(pending)
    && (forall t, u :: t in pending && u in pending && t.guard.Some? && t.guard == u.guard ==> t == u)
  }

  function RegisteredKeys(pending: set<Task>): set<RequestKey> {
    set t | t in pending && t.registered :: t.key
  }

  /** Each request has one task and at most one answer; the request table holds the unanswered ones. */
  predicate TasksSound(pending: set<Task>, active: set<RequestKey>, answered: seq<RequestKey>, highest: u64) {
    && (forall t, u :: t in pending && u in pending && t.key == u.key ==> t == u)
    && (forall t :: t in pending ==>
          t.key.sequence <= highest && t.key !in answered && (t.guard.Some? ==> t.registered))
    && active == RegisteredKeys(pending)
  }

  /** No request is answered twice. */
  predicate Distinct(answered: seq<RequestKey>) {
    forall i, j :: 0 <= i < j < |answered| ==> answered[i] != answered[j]
  }

  predicate AnswersSound(answered: seq<RequestKey>, highest: u64) {
    Distinct(answered) && forall k :: k in answered ==> k.sequence <= highest
  }

  predicate GuardsTracked(s: State, cfg: Config) {
    Tracks(s.book, cfg.maxParallel, s.live)
  }

  predicate HoldsGuards(x: Session, cfg: Config) {
    GuardsTracked(x.bridge, cfg) && GuardsShared(x.bridge.live, x.local, x.pending)
  }

  predicate SessionInv(x: Session, cfg: Config) {
    && HoldsGuards(x, cfg)
    && TasksSound(x.pending, x.bridge.active.Keys, x.answered, x.bridge.highest)
    && AnswersSound(x.answered, x.bridge.highest)
    && |x.pending| <= Window(cfg)
  }

  /** What the teardown relies on, also when a task has just left without being answered. */
  predicate Stoppable(x: Session, cfg: Config) {
    HoldsGuards(x, cfg) && AnswersSound(x.answered, x.bridge.highest)
  }

  predicate Sound(r: Reaction, cfg: Config) {
    match r
    case Continue(next) => SessionInv(next, cfg) && next.ending.None?
    case Stop(last, _) => Stoppable(last, cfg)
  }

  predicate Opening(x: Session, cfg: Config) {
    GuardsTracked(x.bridge, cfg) && x == Session(x.bridge, {}, x.bridge.live, [], None) && x.bridge.active == map[]
  }

  /** Nothing of the session is left: only local executions hold guards. */
  predicate TornDownCompletely(x: Session, cfg: Config) {
    && x.bridge.cancelled && x.pending == {} && x.bridge.active == map[]
    && x.bridge.live == x.local && Tracks(x.bridge.book, cfg.maxParallel, x.local)
  }

  lemma LedgerIsDetermined(s: Ledger, maximum: nat, live: set<PermitGuard>)
    requires Tracks(s, maximum, live)
    ensures s == LedgerOf(live)
  {}

  lemma GuardJoinsLocal(live: set<PermitGuard>, local: set<PermitGuard>, pending: set<Task>, guard: PermitGuard)
    requires GuardsShared(live, local, pending) && guard !in live
    ensures GuardsShared(live + {guard}, local + {guard}, pending)
  {}

  lemma GuardLeavesLocal(live: set<PermitGuard>, local: set<PermitGuard>, pending: set<Task>, guard: PermitGuard)
    requires GuardsShared(live, local, pending) && guard in local
    ensures guard in live && GuardsShared(live - {guard}, local - {guard}, pending)
  {}

  lemma StartTracks(s: State, t: State, cfg: Config, generation: u64, requestId: string, scope: RequestScope)
    requires GuardsTracked(s, cfg) && StartsConfined(s, t, cfg, generation, requestId, scope)
    ensures GuardsTracked(t, cfg) && GuardFor(generation, requestId, scope) !in s.live
  {
    AcquireRefines(s.book, cfg.maxParallel, s.live, generation, requestId, scope);
  }

  lemma LocalStartEffect(s: State, cfg: Config, e: Envelope, key: Key, nowMs: u64)
    requires GuardsTracked(s, cfg)
    ensures var y := BeginExecute(s, cfg, e, key, nowMs);
      && GuardsTracked(y.0, cfg)
      && y.0.active == s.active && y.0.highest == s.highest && y.0.cancelled == s.cancelled
      && (if y.1.Ok? then y.1.value !in s.live && y.0.live == s.live + {y.1.value} else y.0.live == s.live)
  {
    RedeemKeepsRest(s, e, key, nowMs);
    ExecuteEffect(s, cfg, e, key, nowMs);
    var y := BeginExecute(s, cfg, e, key, nowMs);
    if y.1.Ok? {
      StartTracks(Redeem(s, e, key, nowMs).0, y.0, cfg, e.generation, e.requestId, ScopeOf(e.inner.value));
    }
  }

  /** The parts of the supervisor that a relay session owns. */
  predicate SameForSession(s: State, t: State) {
    t.active == s.active && t.highest == s.highest && (s.cancelled ==> t.cancelled)
  }

  lemma QuietStep(s: State, cfg: Config, c: Command)
    requires c.DoIssue? || c.DoUpdateLease? || c.DoRenewalFailed? || c.DoRevoke? || c.DoCancel?
    ensures SameForSession(s, Step(s, cfg, c).0) && SameGuards(s, Step(s, cfg, c).0)
  {
    if TouchesLease(c) { ControlEffect(s, cfg, c); }
  }

  lemma OutsideExecute(s: State, local: set<PermitGuard>, pending: set<Task>, cfg: Config, c: Command)
    requires GuardsShared(s.live, local, pending) && GuardsTracked(s, cfg) && c.DoExecute?
    ensures var t := Step(s, cfg, c).0;
      GuardsTracked(t, cfg) && GuardsShared(t.live, LocalAfter(s, local, cfg, c), pending) && SameForSession(s, t)
  {
    LocalStartEffect(s, cfg, c.envelope, c.key, c.nowMs);
    var r := BeginExecute(s, cfg, c.envelope, c.key, c.nowMs).1;
    if r.Ok? { GuardJoinsLocal(s.live, local, pending, r.value); }
  }

  lemma OutsideEnd(s: State, local: set<PermitGuard>, pending: set<Task>, cfg: Config, guard: PermitGuard)
    requires GuardsShared(s.live, local, pending) && GuardsTracked(s, cfg) && guard in local
    ensures var t := EndExecution(s, guard);
      GuardsTracked(t, cfg) && GuardsShared(t.live, local - {guard}, pending) && SameForSession(s, t)
  {
    ReleaseTracks(s.book, cfg.maxParallel, s.live, guard);
    GuardLeavesLocal(s.live, local, pending, guard);
  }

  lemma OutsideEffect(s: State, local: set<PermitGuard>, pending: set<Task>, cfg: Config, c: Command)
    requires GuardsShared(s.live, local, pending) && GuardsTracked(s, cfg) && TakenElsewhere(local, c)
    ensures var t := Step(s, cfg, c).0;
      GuardsTracked(t, cfg) && GuardsShared(t.live, LocalAfter(s, local, cfg, c), pending) && SameForSession(s, t)
  {
    if c.DoExecute? {
      OutsideExecute(s, local, pending, cfg, c);
    } else if c.DoEnd? {
      OutsideEnd(s, local, pending, cfg, c.guard);
    } else {
      QuietStep(s, cfg, c);
    }
  }

  /** Steps of other tasks never touch the session's own share, and never lift a cancellation. */
  lemma OutsideKeeps(x: Session, cfg: Config, c: Command)
    requires HoldsGuards(x, cfg)
    ensures var y := Outside(x, cfg, c);
      && HoldsGuards(y, cfg)
      && y == x.(bridge := y.bridge, local := y.local)
      && SameForSession(x.bridge, y.bridge)
  {
    if TakenElsewhere(x.local, c) {
      OutsideEffect(x.bridge, x.local, x.pending, cfg, c);
    }
  }

  lemma {:induction false} OthersKeep(x: Session, cfg: Config, commands: seq<Command>)
    requires HoldsGuards(x, cfg)
    ensures var y := Others(x, cfg, commands);
      && HoldsGuards(y, cfg)
      && y == x.(bridge := y.bridge, local := y.local)
      && SameForSession(x.bridge, y.bridge)
    decreases |commands|
  {
    if commands != [] {
      OutsideKeeps(x, cfg, commands[0]);
      OthersKeep(Outside(x, cfg, commands[0]), cfg, commands[1..]);
    }
  }

  // ---------------------------------------------------------------- the session's own steps

  lemma FewerGuardsTrack(s: Ledger, maximum: nat, live: set<PermitGuard>, rest: set<PermitGuard>)
    requires Tracks(s, maximum, live) && rest <= live
    ensures Tracks(LedgerOf(rest), maximum, rest)
  {
    SubsetIsNoLarger(rest, live);
    forall g | g in rest && g.binding ensures rest == {g} {
      assert live == {g};
    }
  }

  lemma SubsetIsNoLarger<T>(a: set<T>, b: set<T>)
    requires a <= b
    ensures |a| <= |b|
  {
    assert b == a + (b - a);
  }

  lemma NothingPending(local: set<PermitGuard>, answered: seq<RequestKey>, highest: u64)
    ensures GuardsShared(local, local, {}) && TasksSound({}, {}, answered, highest)
  {
    assert GuardsOf({}) == {} && RegisteredKeys({}) == {};
  }

  lemma ReapedIsSound(x: Session, cfg: Config)
    requires Stoppable(x, cfg)
    ensures SessionInv(Reaped(x), cfg)
  {
    FewerGuardsTrack(x.bridge.book, cfg.maxParallel, x.bridge.live, x.local);
    NothingPending(x.local, x.answered, x.bridge.highest);
    assert Reaped(x).bridge.active.Keys == {};
  }

  lemma {:induction false} WaitingKeeps(x: Session, cfg: Config, waits: seq<Wait>)
    requires HoldsGuards(x, cfg)
    ensures var y := Waiting(x, cfg, waits);
      && HoldsGuards(y, cfg)
      && y == x.(bridge := y.bridge, local := y.local, pending := y.pending)
      && SameForSession(x.bridge, y.bridge)
    decreases |waits|
  {
    if waits != [] {
      AwaitKeeps(x, cfg, waits[0]);
      WaitingKeeps(Await(x, cfg, waits[0]), cfg, waits[1..]);
    }
  }

  lemma AwaitKeeps(x: Session, cfg: Config, wait: Wait)
    requires HoldsGuards(x, cfg)
    ensures var y := Await(x, cfg, wait);
      && HoldsGuards(y, cfg)
      && y == x.(bridge := y.bridge, local := y.local, pending := y.pending)
      && SameForSession(x.bridge, y.bridge)
  {
    match wait {
      case Elsewhere(c) => OutsideKeeps(x, cfg, c);
      case Awaited(t) => if t in x.pending { LeaveKeeps(x, cfg, t); }
    }
  }

  /** However the teardown is entered, nothing of the session outlives it. */
  lemma TeardownIsComplete(x: Session, cfg: Config, during: seq<Wait>, ending: Ending)
    requires Stoppable(x, cfg)
    ensures var y := TornDown(x, cfg, during, ending);
      && Progress(y, cfg) && y.answered == x.answered && y.ending == Some(ending)
      && y.bridge.highest == x.bridge.highest
  {
    var cancelled := x.(bridge := x.bridge.(cancelled := true));
    WaitingKeeps(cancelled, cfg, during);
    ReapedIsSound(Waiting(cancelled, cfg, during), cfg);
  }

  /** A session that has not ended keeps its invariant; one that has is gone completely. */
  predicate Progress(x: Session, cfg: Config) {
    SessionInv(x, cfg) && (x.ending.Some? ==> TornDownCompletely(x, cfg))
  }

  lemma GuardLeavesTask(live: set<PermitGuard>, local: set<PermitGuard>, pending: set<Task>, t: Task)
    requires GuardsShared(live, local, pending) && t in pending
    ensures t.guard.Some? ==> t.guard.value in live
    ensures GuardsShared(if t.guard.Some? then live - {t.guard.value} else live, local, pending - {t})
  {
    if t.guard.Some? {
      assert GuardsOf(pending - {t}) == GuardsOf(pending) - {t.guard.value};
    } else {
      assert GuardsOf(pending - {t}) == GuardsOf(pending);
    }
  }

  lemma LeaveKeeps(x: Session, cfg: Config, t: Task)
    requires HoldsGuards(x, cfg) && t in x.pending
    ensures var y := Leave(x, t);
      HoldsGuards(y, cfg) && SameForSession(x.bridge, y.bridge)
        && y == x.(bridge := y.bridge, pending := x.pending - {t})
  {
    GuardLeavesTask(x.bridge.live, x.local, x.pending, t);
    if t.guard.Some? { ReleaseTracks(x.bridge.book, cfg.maxParallel, x.bridge.live, t.guard.value); }
  }

  lemma CompletionKeeps(x: Session, cfg: Config, t: Task, end: TaskEnd)
    requires SessionInv(x, cfg) && x.ending.None? && t in x.pending
    ensures Sound(Complete(Leave(x, t), t.key, end), cfg)
  {
    LeaveKeeps(x, cfg, t);
    AnswerKeeps(x.pending, x.bridge.active, x.answered, x.bridge.highest, t);
  }

  lemma AnswerKeeps(pending: set<Task>, active: map<RequestKey, ActiveRequest>, answered: seq<RequestKey>,
                    highest: u64, t: Task)
    requires TasksSound(pending, active.Keys, answered, highest) && AnswersSound(answered, highest) && t in pending
    ensures TasksSound(pending - {t}, (active - {t.key}).Keys, answered + [t.key], highest)
    ensures AnswersSound(answered + [t.key], highest)
    ensures |pending - {t}| < |pending|
  {}

  lemma ExitKeeps(x: Session, cfg: Config, t: Task)
    requires SessionInv(x, cfg) && x.ending.None?
    ensures SessionInv(Exited(x, t), cfg) && Exited(x, t).ending.None?
  {
    if t in x.pending && t.guard.Some? {
      LeaveKeeps(x, cfg, t);
      var y := Leave(x, t);
      SpawnKeepsGuards(y.bridge.live, y.local, y.pending, t.(guard := None));
      ExitKeepsTasks(x.pending, x.bridge.active.Keys, x.answered, x.bridge.highest, t);
    }
  }

  lemma ExitKeepsTasks(pending: set<Task>, active: set<RequestKey>, answered: seq<RequestKey>, highest: u64, t: Task)
    requires TasksSound(pending, active, answered, highest) && t in pending
    ensures TasksSound(pending - {t} + {t.(guard := None)}, active, answered, highest)
    ensures |pending - {t} + {t.(guard := None)}| <= |pending|
  {
    var rest, idle := pending - {t}, t.(guard := None);
    var own := if t.registered then {t.key} else {};
    assert RegisteredKeys(rest + {idle}) == RegisteredKeys(rest) + own;
    assert RegisteredKeys(pending) == RegisteredKeys(rest) + own by { assert pending == rest + {t}; }
  }

  /** What an accepted relayed request adds: a sequence above all earlier ones, and a guard if it runs. */
  predicate Adds(s: State, t: State, cfg: Config, key: RequestKey, remote: Remote) {
    && GuardsTracked(t, cfg) && t.highest == key.sequence > s.highest
    && (if remote.Running?
        then remote.guard !in s.live && t.live == s.live + {remote.guard} && t.active.Keys == s.active.Keys + {key}
        else t.live == s.live && t.active == s.active)
  }

  predicate Outcomes(s: State, p: (State, Result<Remote, BridgeError>), cfg: Config, key: RequestKey) {
    if p.1.Ok? then Adds(s, p.0, cfg, key, p.1.value) else SameGuards(s, p.0) && p.0.highest >= s.highest
  }

  lemma PrepareOutcome(s: State, cfg: Config, e: Envelope, now: u64, fate: Sequences.Fate, chance: Chance)
    requires GuardsTracked(s, cfg)
    ensures Outcomes(s, PrepareRemote(s, cfg, e, now, fate, chance), cfg, KeyOf(e))
  {
    PrepareEffect(s, cfg, e, now, fate, chance);
    var p := PrepareRemote(s, cfg, e, now, fate, chance);
    if p.1.Ok? && p.1.value.Running? {
      StartTracks(s, p.0, cfg, e.generation, e.requestId, ScopeOf(e.inner.value));
    }
  }

  lemma SpawnKeeps(x: Session, cfg: Config, e: Envelope, p: (State, Result<Remote, BridgeError>))
    requires SessionInv(x, cfg) && x.ending.None? && |x.pending| < Window(cfg) && Outcomes(x.bridge, p, cfg, KeyOf(e))
    ensures Sound(AfterPrepare(x, e, p), cfg)
  {
    if p.1.Ok? {
      SpawnKeepsTasks(x.pending, x.bridge.active.Keys, x.answered, x.bridge.highest, Spawned(e, p.1.value), cfg);
      SpawnKeepsGuards(x.bridge.live, x.local, x.pending, Spawned(e, p.1.value));
    }
  }

  lemma SpawnKeepsTasks(pending: set<Task>, active: set<RequestKey>, answered: seq<RequestKey>, highest: u64, t: Task,
                        cfg: Config)
    requires TasksSound(pending, active, answered, highest) && AnswersSound(answered, highest)
    requires t.key.sequence > highest && (t.guard.Some? ==> t.registered) && |pending| < Window(cfg)
    ensures TasksSound(pending + {t}, if t.registered then active + {t.key} else active, answered, t.key.sequence)
    ensures AnswersSound(answered, t.key.sequence)
    ensures |pending + {t}| <= Window(cfg)
  {}

  lemma SpawnKeepsGuards(live: set<PermitGuard>, local: set<PermitGuard>, pending: set<Task>, t: Task)
    requires GuardsShared(live, local, pending) && (t.guard.Some? ==> t.guard.value !in live)
    ensures GuardsShared(if t.guard.Some? then live + {t.guard.value} else live, local, pending + {t})
  {
    assert GuardsOf(pending + {t}) == GuardsOf(pending) + (if t.guard.Some? then {t.guard.value} else {});
  }

  lemma CancelKeeps(x: Session, cfg: Config, c: (State, Result<bool, BridgeError>))
    requires SessionInv(x, cfg) && x.ending.None?
    requires c.0 == x.bridge.(active := c.0.active) && c.0.active.Keys == x.bridge.active.Keys
    ensures Sound(AfterCancel(x, c), cfg)
  {}

  lemma CancelOutcome(s: State, cfg: Config, e: Envelope, repeats: bool)
    ensures var c := CancelRemote(s, cfg, e, repeats);
      c.0 == s.(active := c.0.active) && c.0.active.Keys == s.active.Keys
  {}

  lemma FrameKeeps(x: Session, cfg: Config, e: Envelope, now: u64, tries: Tries, repeats: bool, chance: Chance)
    requires SessionInv(x, cfg) && x.ending.None?
    ensures Sound(HandleFrame(x, cfg, e, repeats, now, tries, chance), cfg)
  {
    if e.messageType == Cancel {
      CancelOutcome(x.bridge, cfg, e, repeats);
      CancelKeeps(x, cfg, CancelRemote(x.bridge, cfg, e, repeats));
    } else if e.messageType == Execute && |x.pending| < Window(cfg) {
      var fate := Sequences.FateOf(tries, Sequences.PERSIST_ATTEMPTS);
      PrepareOutcome(x.bridge, cfg, e, now, fate, chance);
      SpawnKeeps(x, cfg, e, PrepareRemote(x.bridge, cfg, e, now, fate, chance));
    }
  }

  lemma HandleKeeps(x: Session, cfg: Config, event: Event)
    requires SessionInv(x, cfg) && x.ending.None?
    ensures Sound(Handle(x, cfg, event), cfg)
  {
    match event {
      case ProcessExits(t) => ExitKeeps(x, cfg, t);
      case TaskCompletes(t, end) => if t in x.pending { CompletionKeeps(x, cfg, t, end); }
      case Frame(e, repeats, now, tries, chance) => FrameKeeps(x, cfg, e, now, tries, repeats, chance);
      case Noticed(_) =>
    }
  }

  lemma TurnKeeps(x: Session, cfg: Config, turn: Turn)
    requires SessionInv(x, cfg) && x.ending.None?
    ensures Progress(TakeTurn(x, cfg, turn), cfg)
  {
    if x.bridge.cancelled {
      TeardownIsComplete(x, cfg, turn.during, Disconnected);
    } else {
      OthersKeep(x, cfg, turn.before);
      var y := Others(x, cfg, turn.before);
      HandleKeeps(y, cfg, turn.event);
      match Handle(y, cfg, turn.event) {
        case Continue(_) =>
        case Stop(last, ending) => TeardownIsComplete(last, cfg, turn.during, ending);
      }
    }
  }

  /** At every point of a session at most `maxParallel + 1` tasks are pending and no request is answered twice. */
  lemma {:induction false} EveryTurnKeeps(x: Session, cfg: Config, turns: seq<Turn>)
    requires Progress(x, cfg)
    ensures var y := Advance(x, cfg, turns);
      && Progress(y, cfg)
      && |y.pending| <= cfg.maxParallel + 1
      && Distinct(y.answered)
    decreases |turns|
  {
    if turns != [] && x.ending.None? {
      TurnKeeps(x, cfg, turns[0]);
      EveryTurnKeeps(TakeTurn(x, cfg, turns[0]), cfg, turns[1..]);
    }
  }

  /** Whatever arrives and whatever other tasks do, a session leaves nothing of itself behind. */
  lemma SessionsDoNotOverlap(x: Session, cfg: Config, turns: seq<Turn>)
    requires Opening(x, cfg)
    ensures var y := Play(x, cfg, turns);
      && y.ending.Some? && TornDownCompletely(y, cfg)
      && (y.local == {} ==> y.bridge.book == EMPTY_LEDGER)
  {
    OpeningIsSound(x, cfg);
    EveryTurnKeeps(x, cfg, turns);
    var y := Advance(x, cfg, turns);
    if y.ending.None? { TeardownIsComplete(y, cfg, [], Disconnected); }
    LedgerIsDetermined(Play(x, cfg, turns).bridge.book, cfg.maxParallel, Play(x, cfg, turns).local);
    assert KeysHeld({}) == {};
  }

  lemma OpeningIsSound(x: Session, cfg: Config)
    requires Opening(x, cfg)
    ensures Progress(x, cfg)
  {
    NothingPending(x.local, [], x.bridge.highest);
    assert x.bridge.active.Keys == {};
  }

  // ---------------------------------------------------------------- the loop itself

  /** What the rest of the process does while the session waits. */
  method PerformElsewhere(s: BridgeSupervisor, before: set<PermitGuard>, commands: seq<Command>, ghost x: Session)
    returns (local: set<PermitGuard>)
    requires s.Valid() && HoldsGuards(x, s.config) && x.bridge == s.View() && x.local == before
    modifies s, s.scheduler
    ensures s.Valid() && Others(x, s.config, commands) == x.(bridge := s.View(), local := local)
  {
    local := before;
    ghost var y := x;
    for i := 0 to |commands|
      invariant s.Valid() && HoldsGuards(y, s.config) && y == x.(bridge := s.View(), local := local)
      invariant Others(x, s.config, commands) == Others(y, s.config, commands[i..])
    {
      OutsideKeeps(y, s.config, commands[i]);
      y := Outside(y, s.config, commands[i]);
      local := PerformOne(s, local, commands[i]);
    }
  }

  method PerformOne(s: BridgeSupervisor, before: set<PermitGuard>, c: Command) returns (local: set<PermitGuard>)
    requires s.Valid() && before <= s.live
    modifies s, s.scheduler
    ensures s.Valid()
    ensures if TakenElsewhere(before, c)
            then s.View() == Step(old(s.View()), s.config, c).0
              && local == LocalAfter(old(s.View()), before, s.config, c)
            else s.View() == old(s.View()) && local == before
  {
    local := before;
    match c {
      case DoExecute(e, key, nowMs) =>
        var r := s.ExecutePermit(e, key, nowMs);
        if r.Ok? { local := local + {r.value}; }
      case DoEnd(guard) =>
        if guard in local { s.ReapExecution(guard); local := local - {guard}; }
      case _ => PerformQuietly(s, c);
    }
  }

  method PerformQuietly(s: BridgeSupervisor, c: Command)
    requires s.Valid() && !c.DoExecute? && !c.DoEnd?
    modifies s
    ensures s.Valid()
    ensures s.View() == if TakenElsewhere({}, c) then Step(old(s.View()), s.config, c).0 else old(s.View())
  {
    if TakenElsewhere({}, c) { QuietStep(s.View(), s.config, c); }
    match c {
      case DoIssue(r, now, nowMs, requestId, key) => var _ := s.IssuePermit(r, now, nowMs, requestId, key);
      case DoUpdateLease(generation, until, ttl) => var _ := s.RenewLease(generation, until, ttl, true);
      case DoRenewalFailed(now, grace) => var _ := s.MarkRenewalFailed(now, grace);
      case DoRevoke => s.RevokeBinding();
      case DoCancel => s.CancelAll();
      case _ =>
    }
  }

  /** Cancels, awaits every task in whatever order they end, then forgets the request table. */
  method CancelAndReap(s: BridgeSupervisor, tasks: set<Task>, before: set<PermitGuard>, during: seq<Wait>,
                       ghost x: Session, ghost ending: Ending)
    returns (local: set<PermitGuard>)
    requires s.Valid() && HoldsGuards(x, s.config) && x.bridge == s.View() && x.local == before && x.pending == tasks
    modifies s, s.scheduler
    ensures s.Valid()
    ensures x.(bridge := s.View(), pending := {}, local := local, ending := Some(ending))
            == TornDown(x, s.config, during, ending)
  {
    s.CancelAll();
    ghost var y := x.(bridge := s.View());
    var pending;
    pending, local := AwaitSome(s, tasks, before, during, y);
    WaitingKeeps(y, s.config, during);
    AwaitAll(s, pending, Waiting(y, s.config, during));
    s.ClearRemoteRequests();
  }

  method AwaitSome(s: BridgeSupervisor, tasks: set<Task>, before: set<PermitGuard>, waits: seq<Wait>, ghost x: Session)
    returns (pending: set<Task>, local: set<PermitGuard>)
    requires s.Valid() && HoldsGuards(x, s.config) && x.bridge == s.View() && x.local == before && x.pending == tasks
    modifies s, s.scheduler
    ensures s.Valid()
    ensures Waiting(x, s.config, waits) == x.(bridge := s.View(), local := local, pending := pending)
  {
    pending, local := tasks, before;
    ghost var y := x;
    for i := 0 to |waits|
      invariant s.Valid() && HoldsGuards(y, s.config)
      invariant y == x.(bridge := s.View(), local := local, pending := pending)
      invariant Waiting(x, s.config, waits) == Waiting(y, s.config, waits[i..])
    {
      AwaitKeeps(y, s.config, waits[i]);
      pending, local := AwaitOne(s, pending, local, waits[i], y);
      y := Await(y, s.config, waits[i]);
    }
  }

  method AwaitOne(s: BridgeSupervisor, tasks: set<Task>, before: set<PermitGuard>, wait: Wait, ghost x: Session)
    returns (pending: set<Task>, local: set<PermitGuard>)
    requires s.Valid() && HoldsGuards(x, s.config) && x.bridge == s.View() && x.local == before && x.pending == tasks
    modifies s, s.scheduler
    ensures s.Valid()
    ensures Await(x, s.config, wait) == x.(bridge := s.View(), local := local, pending := pending)
  {
    pending, local := tasks, before;
    match wait {
      case Elsewhere(c) => local := PerformOne(s, before, c);
      case Awaited(t) =>
        if t in tasks {
          AwaitTask(s, t, x);
          pending := tasks - {t};
        }
    }
  }

  method AwaitAll(s: BridgeSupervisor, tasks: set<Task>, ghost x: Session)
    requires s.Valid() && HoldsGuards(x, s.config) && x.bridge == s.View() && x.pending == tasks
    modifies s`live, s.scheduler
    ensures s.Valid()
    ensures s.View() == old(s.View()).(live := x.local, book := LedgerOf(x.local))
  {
    var pending := tasks;
    ghost var y := x;
    while pending != {}
      invariant s.Valid() && HoldsGuards(y, s.config)
      invariant y == x.(bridge := s.View(), pending := pending)
      invariant s.View() == old(s.View()).(live := s.live, book := s.View().book)
      decreases |pending|
    {
      var t :| t in pending;
      AwaitTask(s, t, y);
      y := Leave(y, t);
      pending := pending - {t};
    }
    NoTaskLeft(y, s.config);
  }

  method AwaitTask(s: BridgeSupervisor, t: Task, ghost x: Session)
    requires s.Valid() && HoldsGuards(x, s.config) && x.bridge == s.View() && t in x.pending
    modifies s`live, s.scheduler
    ensures s.Valid() && HoldsGuards(Leave(x, t), s.config) && Leave(x, t).bridge == s.View()
    ensures s.View() == old(s.View()).(live := s.live, book := s.View().book)
  {
    LeaveKeeps(x, s.config, t);
    if t.guard.Some? { s.ReapExecution(t.guard.value); }
  }

  lemma NoTaskLeft(x: Session, cfg: Config)
    requires HoldsGuards(x, cfg) && x.pending == {}
    ensures x.bridge.live == x.local && x.bridge.book == LedgerOf(x.local)
  {
    assert GuardsOf({}) == {};
    LedgerIsDetermined(x.bridge.book, cfg.maxParallel, x.bridge.live);
  }

  /** A reaction as the loop's variables hold it. */
  predicate Reacts(r: Reaction, after: Session, stop: Option<Ending>) {
    match r
    case Continue(next) => stop == None && after == next
    case Stop(last, ending) => stop == Some(ending) && after == last
  }

  /** The answer of a task that has been awaited. */
  method OnCompletion(s: BridgeSupervisor, key: RequestKey, end: TaskEnd, ghost x: Session)
    returns (answer: seq<RequestKey>, stop: Option<Ending>)
    requires x.bridge == s.View()
    modifies s`activeRemoteRequests
    ensures Reacts(Complete(x, key, end), x.(bridge := s.View(), answered := x.answered + answer), stop)
  {
    answer, stop := [], None;
    match end {
      case Errored(error) => stop := Some(Failed(error));
      case Panicked => stop := Some(Failed(ProtocolViolation));
      case Responded(encodes, sent) =>
        if s.cancelled { stop := Some(Disconnected); return; }
        if !encodes { stop := Some(Failed(ProtocolViolation)); return; }
        if !sent { stop := Some(Failed(ProtocolViolation)); return; }
        s.FinishRemoteRequest(key);
        answer := [key];
    }
  }

  method OnFrame(s: BridgeSupervisor, before: set<Task>, e: Envelope, repeats: bool, now: u64, tries: Tries,
                 chance: Chance, ghost x: Session)
    returns (pending: set<Task>, stop: Option<Ending>)
    requires s.Valid() && x.bridge == s.View() && x.pending == before
    modifies s, s.scheduler, s.ledger
    ensures s.Valid()
    ensures Reacts(HandleFrame(x, s.config, e, repeats, now, tries, chance),
                   x.(bridge := s.View(), pending := pending), stop)
  {
    pending, stop := before, None;
    if !e.wellFormed { stop := Some(Failed(ProtocolViolation)); return; }
    if !e.isRequest { stop := Some(Failed(ProtocolViolation)); return; }
    if e.messageType == Cancel {
      var cancelled := s.CancelRemoteRequest(e, repeats);
      if cancelled.Err? { stop := Some(Failed(cancelled.error)); }
      return;
    }
    if e.messageType != Execute { stop := Some(Failed(ProtocolViolation)); return; }
    if |pending| >= s.config.maxParallel + 1 { stop := Some(Failed(ProtocolViolation)); return; }
    var execution := s.PrepareRemoteExecution(e, now, tries, chance);
    if execution.Err? { stop := Some(Failed(execution.error)); return; }
    pending := pending + {Spawned(e, execution.value)};
  }

  method OnExit(s: BridgeSupervisor, before: set<Task>, t: Task, ghost x: Session) returns (pending: set<Task>)
    requires s.Valid() && HoldsGuards(x, s.config) && x.bridge == s.View() && x.pending == before
    modifies s`live, s.scheduler
    ensures s.Valid() && x.(bridge := s.View(), pending := pending) == Exited(x, t)
  {
    pending := before;
    if t in pending && t.guard.Some? {
      AwaitTask(s, t, x);
      pending := pending - {t} + {t.(guard := None)};
    }
  }

  method OnTaskEnd(s: BridgeSupervisor, before: set<Task>, t: Task, end: TaskEnd, ghost x: Session)
    returns (pending: set<Task>, answer: seq<RequestKey>, stop: Option<Ending>)
    requires s.Valid() && HoldsGuards(x, s.config) && x.bridge == s.View() && x.pending == before
    modifies s, s.scheduler
    ensures s.Valid()
    ensures Reacts(if t in before then Complete(Leave(x, t), t.key, end) else Continue(x),
                   x.(bridge := s.View(), pending := pending, answered := x.answered + answer), stop)
  {
    if t !in before {
      assert x.answered + [] == x.answered;
      return before, [], None;
    }
    AwaitTask(s, t, x);
    ghost var y := Leave(x, t);
    assert y == x.(bridge := s.View(), pending := before - {t});
    pending := before - {t};
    answer, stop := OnCompletion(s, t.key, end, y);
    assert x.(bridge := s.View(), pending := pending, answered := x.answered + answer)
        == y.(bridge := s.View(), answered := y.answered + answer);
  }

  /** One arm of the select; `x` is the session it acts on. */
  method OnEvent(s: BridgeSupervisor, before: set<Task>, event: Event, ghost x: Session)
    returns (pending: set<Task>, answer: seq<RequestKey>, stop: Option<Ending>)
    requires s.Valid() && HoldsGuards(x, s.config) && x.bridge == s.View() && x.pending == before
    modifies s, s.scheduler, s.ledger
    ensures s.Valid()
    ensures Reacts(Handle(x, s.config, event),
                   x.(bridge := s.View(), pending := pending, answered := x.answered + answer), stop)
  {
    pending, answer, stop := before, [], None;
    match event {
      case ProcessExits(t) =>
        pending := OnExit(s, pending, t, x);
      case TaskCompletes(t, end) => pending, answer, stop := OnTaskEnd(s, pending, t, end, x);
      case Frame(e, repeats, now, tries, chance) =>
        pending, stop := OnFrame(s, pending, e, repeats, now, tries, chance, x);
      case Noticed(signal) => stop := EndedBy(signal, s.cancelled);
    }
    assert !event.TaskCompletes? ==> x.answered + answer == x.answered;
  }

  /** One pass of the loop. */
  method RunTurn(s: BridgeSupervisor, tasks: set<Task>, before: set<PermitGuard>, turn: Turn, ghost x: Session)
    returns (pending: set<Task>, local: set<PermitGuard>, answer: seq<RequestKey>, ending: Option<Ending>)
    requires s.Valid() && SessionInv(x, s.config) && x.bridge == s.View() && x.pending == tasks && x.local == before
    requires x.ending.None?
    modifies s, s.scheduler, s.ledger
    ensures s.Valid()
    ensures TakeTurn(x, s.config, turn) == Session(s.View(), pending, local, x.answered + answer, ending)
  {
    if s.cancelled {
      local := CancelAndReap(s, tasks, before, turn.during, x, Disconnected);
      return {}, local, [], Some(Disconnected);
    }
    OthersKeep(x, s.config, turn.before);
    local := PerformElsewhere(s, before, turn.before, x);
    ghost var y := Others(x, s.config, turn.before);
    HandleKeeps(y, s.config, turn.event);
    pending, answer, ending := OnEvent(s, tasks, turn.event, y);
    if ending.Some? {
      y := y.(bridge := s.View(), pending := pending, answered := y.answered + answer);
      local := CancelAndReap(s, pending, local, turn.during, y, ending.value);
      pending := {};
    }
  }

  method RunRelaySession(s: BridgeSupervisor, permits: set<PermitGuard>, turns: seq<Turn>)
    returns (ending: Ending, local: set<PermitGuard>, answered: seq<RequestKey>)
    requires s.Valid() && s.live == permits && s.activeRemoteRequests == map[]
    modifies s, s.scheduler, s.ledger
    ensures s.Valid()
    ensures Session(s.View(), {}, local, answered, Some(ending))
            == Play(Session(old(s.View()), {}, permits, [], None), s.config, turns)
    ensures s.cancelled && s.activeRemoteRequests == map[] && s.live == local
  {
    var pending: set<Task>;
    pending, local, answered := {}, permits, [];
    ghost var start := Session(s.View(), {}, permits, [], None);
    ghost var x := start;
    OpeningIsSound(x, s.config);
    SessionsDoNotOverlap(x, s.config, turns);
    for i := 0 to |turns|
      invariant s.Valid() && SessionInv(x, s.config) && x == Session(s.View(), pending, local, answered, None)
      invariant Advance(start, s.config, turns) == Advance(x, s.config, turns[i..])
    {
      TurnKeeps(x, s.config, turns[i]);
      x := TakeTurn(x, s.config, turns[i]);
      var answer, stop;
      ghost var y := Session(s.View(), pending, local, answered, None);
      pending, local, answer, stop := RunTurn(s, pending, local, turns[i], y);
      answered := answered + answer;
      if stop.Some? { return stop.value, local, answered; }
    }
    ending := Disconnected;
    local := CancelAndReap(s, pending, local, [], x, ending);
  }
}
