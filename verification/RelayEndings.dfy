/**
  When a relay session goes on and how it ends, event by event
  (crates/local-bridge/src/relay_session.rs:67-196).
 */
module RelayEndings {
  import opened Wrappers
  import opened Scheduling
  import opened BridgeProtocol
  import opened Supervision
  import opened SupervisionRuns
  import opened SupervisionExact
  import opened RelaySession
  import Sequences = SequenceLedger

  /** The write of the ledger that the first usable temporary file decides. */
  function WriteOf(tries: Tries): Sequences.Fate {
    Sequences.FateOf(tries, Sequences.PERSIST_ATTEMPTS)
  }

  /** A cancel frame the supervisor takes, whether or not its target is still there. */
  predicate CancelTaken(s: State, cfg: Config, e: Envelope, repeats: bool) {
    var k := RequestKey(e.bindingId, e.generation, e.requestId, e.sequence);
    CancelFormed(s, cfg, e) && (k in s.active ==> s.active[k].sessionKey == e.sealedKey && repeats)
  }

  /** A request inside the window that runs, or that can at least be answered. */
  predicate RequestTaken(x: Session, cfg: Config, e: Envelope, now: u64, tries: Tries, chance: Chance) {
    && e.messageType.Execute? && |x.pending| <= cfg.maxParallel
    && RelayOpened(x.bridge, cfg, e, now, WriteOf(tries))
    && (chance.seals
        || (RelayAccepted(x.bridge, cfg, e, now, WriteOf(tries)) && !chance.cancelled && Idle(x.bridge, cfg)))
  }

  /** The events after which a session that has not been cancelled goes on. */
  predicate GoesOn(x: Session, cfg: Config, event: RelaySession.Event) {
    match event
    case ProcessExits(_) => true
    case TaskCompletes(t, end) => t in x.pending ==> end == Responded(true, true) && !x.bridge.cancelled
    case Frame(e, repeats, now, tries, chance) =>
      && e.wellFormed && e.isRequest
      && (CancelTaken(x.bridge, cfg, e, repeats) || RequestTaken(x, cfg, e, now, tries, chance))
    case Noticed(signal) =>
      signal == Pong || signal == Ping(true) || (signal == CancellationChanged && !x.bridge.cancelled)
  }

  /** Live guards are confined and tracked, and every registered request was reserved. */
  predicate BridgeSound(x: Session, cfg: Config) {
    Inv(x.bridge, cfg)
  }

  lemma CompletionGoesOn(x: Session, t: Task, end: TaskEnd)
    requires t in x.pending
    ensures Complete(Leave(x, t), t.key, end).Continue? <==> end == Responded(true, true) && !x.bridge.cancelled
  {
    assert Leave(x, t).bridge.cancelled == x.bridge.cancelled;
  }

  lemma FrameGoesOn(x: Session, cfg: Config, e: Envelope, repeats: bool, now: u64, tries: Tries, chance: Chance)
    requires BridgeSound(x, cfg)
    ensures HandleFrame(x, cfg, e, repeats, now, tries, chance).Continue? <==>
      GoesOn(x, cfg, Frame(e, repeats, now, tries, chance))
  {
    CancelMarksExactlyWhen(x.bridge, cfg, e, repeats);
    RelayRefusals(x.bridge, cfg, e, now, WriteOf(tries), chance);
    if x.bridge.lease.revoked { assert x.bridge.cancelled; }
    if RelayOpened(x.bridge, cfg, e, now, WriteOf(tries)) {
      RelayAnswers(x.bridge, cfg, e, now, WriteOf(tries), chance);
    }
  }

  /** A session goes on after exactly these events. */
  lemma EventGoesOnExactlyWhen(x: Session, cfg: Config, event: RelaySession.Event)
    requires BridgeSound(x, cfg)
    ensures Handle(x, cfg, event).Continue? <==> GoesOn(x, cfg, event)
  {
    match event {
      case ProcessExits(_) =>
      case TaskCompletes(t, end) => if t in x.pending { CompletionGoesOn(x, t, end); }
      case Frame(e, repeats, now, tries, chance) => FrameGoesOn(x, cfg, e, repeats, now, tries, chance);
      case Noticed(_) =>
    }
  }

  // ---------------------------------------------------------------- what going on means

  lemma KeepAlivesLeaveAlone(x: Session, cfg: Config, signal: Signal)
    requires signal == Pong || signal == Ping(true) || (signal == CancellationChanged && !x.bridge.cancelled)
    ensures Handle(x, cfg, Noticed(signal)) == Continue(x)
  {}

  /** A delivered answer is recorded, its guard released and its request forgotten; nothing else changes. */
  lemma DeliveryRecords(x: Session, cfg: Config, t: Task)
    requires t in x.pending && !x.bridge.cancelled
    ensures var r := Handle(x, cfg, TaskCompletes(t, Responded(true, true)));
      && r.Continue?
      && r.next.pending == x.pending - {t} && r.next.answered == x.answered + [t.key]
      && r.next.local == x.local && r.next.ending == x.ending
      && r.next.bridge.active == x.bridge.active - {t.key} && !r.next.bridge.cancelled
      && r.next.bridge.live == (if t.guard.Some? then x.bridge.live - {t.guard.value} else x.bridge.live)
  {}

  /** An accepted request joins the pending ones, with its guard if it runs; the mark is raised to its sequence. */
  lemma RequestJoins(x: Session, cfg: Config, e: Envelope, repeats: bool, now: u64, tries: Tries, chance: Chance)
    requires BridgeSound(x, cfg) && e.isRequest && RequestTaken(x, cfg, e, now, tries, chance)
    ensures var r := HandleFrame(x, cfg, e, repeats, now, tries, chance);
      var k := RequestKey(e.bindingId, e.generation, e.requestId, e.sequence);
      var runs := RelayAccepted(x.bridge, cfg, e, now, WriteOf(tries)) && !chance.cancelled && Idle(x.bridge, cfg);
      && r.Continue? && r.next.bridge.highest == e.sequence
      && r.next.answered == x.answered && r.next.local == x.local && r.next.ending == x.ending
      && exists g: Option<PermitGuard> ::
           && r.next.pending == x.pending + {Task(k, runs, g)} && (g.Some? <==> runs)
           && (if runs then r.next.bridge.live == {g.value} && k in r.next.bridge.active
               else r.next.bridge.live == x.bridge.live && r.next.bridge.active == x.bridge.active)
  {
    FrameGoesOn(x, cfg, e, repeats, now, tries, chance);
    RelayLeaves(x.bridge, cfg, e, now, WriteOf(tries), chance);
    RelayRunsExactlyWhen(x.bridge, cfg, e, now, WriteOf(tries), chance);
    var p := PrepareRemote(x.bridge, cfg, e, now, WriteOf(tries), chance);
    assert HandleFrame(x, cfg, e, repeats, now, tries, chance) == AfterPrepare(x, e, p);
    var g := if p.1.value.Running? then Some(p.1.value.guard) else None;
    assert Spawned(e, p.1.value) == Task(RequestKey(e.bindingId, e.generation, e.requestId, e.sequence), g.Some?, g);
  }

  /** An accepted cancel frame marks its target and leaves the session as it was. */
  lemma CancelGoesThrough(x: Session, cfg: Config, e: Envelope, repeats: bool, now: u64, tries: Tries, chance: Chance)
    requires CancelTaken(x.bridge, cfg, e, repeats)
    ensures var r := HandleFrame(x, cfg, e, repeats, now, tries, chance);
      var k := RequestKey(e.bindingId, e.generation, e.requestId, e.sequence);
      && r.Continue? && r.next == x.(bridge := r.next.bridge)
      && r.next.bridge == x.bridge.(active := r.next.bridge.active)
      && r.next.bridge.active == (if k in x.bridge.active
                                  then x.bridge.active[k := ActiveRequest(true, x.bridge.active[k].sessionKey)]
                                  else x.bridge.active)
  {
    CancelMarksExactlyWhen(x.bridge, cfg, e, repeats);
  }

  // ---------------------------------------------------------------- how a session ends

  /** The ending of each event that does not let the session go on. */
  predicate EndsAs(x: Session, event: RelaySession.Event, ending: Ending) {
    match event
    case ProcessExits(_) => true
    case TaskCompletes(_, end) =>
      ending == (match end
                 case Errored(error) => Failed(error)
                 case Panicked => Failed(ProtocolViolation)
                 case Responded(_, _) => if x.bridge.cancelled then Disconnected else Failed(ProtocolViolation))
    case Frame(e, _, _, _, _) =>
      && ending.Failed?
      && (!e.wellFormed || !e.isRequest || (!e.messageType.Cancel? && !e.messageType.Execute?) ==>
            ending == Failed(ProtocolViolation))
    case Noticed(signal) =>
      ending == (if signal == Closed || signal == CancellationChanged then Disconnected else Failed(ProtocolViolation))
  }

  /** A request beyond the window, and every refusal of the supervisor, ends the session with its error. */
  lemma FrameEnds(x: Session, cfg: Config, e: Envelope, repeats: bool, now: u64, tries: Tries, chance: Chance)
    ensures var r := HandleFrame(x, cfg, e, repeats, now, tries, chance);
      && (r.Stop? ==> EndsAs(x, Frame(e, repeats, now, tries, chance), r.ending))
      && (e.wellFormed && e.isRequest && e.messageType.Execute? && |x.pending| > cfg.maxParallel ==>
            r == Stop(x, Failed(ProtocolViolation)))
      && (r.Stop? && e.wellFormed && e.isRequest && e.messageType.Execute? && |x.pending| <= cfg.maxParallel ==>
            Err(r.ending.error) == PrepareRemote(x.bridge, cfg, e, now, WriteOf(tries), chance).1)
      && (r.Stop? && e.wellFormed && e.isRequest && e.messageType.Cancel? ==>
            Err(r.ending.error) == CancelRemote(x.bridge, cfg, e, repeats).1)
  {}

  lemma EventEndsAs(x: Session, cfg: Config, event: RelaySession.Event)
    ensures Handle(x, cfg, event).Stop? ==> EndsAs(x, event, Handle(x, cfg, event).ending)
  {
    match event {
      case ProcessExits(_) =>
      case TaskCompletes(t, end) => if t in x.pending { assert Leave(x, t).bridge.cancelled == x.bridge.cancelled; }
      case Frame(e, repeats, now, tries, chance) => FrameEnds(x, cfg, e, repeats, now, tries, chance);
      case Noticed(_) =>
    }
  }

  // ---------------------------------------------------------------- turns and whole sessions

  /** A session found cancelled ends at once; otherwise exactly an event that does not let it go on ends it. */
  lemma TurnEndsExactlyWhen(x: Session, cfg: Config, turn: Turn)
    requires SessionInv(x, cfg) && x.ending.None? && BridgeSound(Others(x, cfg, turn.before), cfg)
    ensures var y := Others(x, cfg, turn.before);
      var z := TakeTurn(x, cfg, turn);
      && (z.ending.None? <==> !x.bridge.cancelled && GoesOn(y, cfg, turn.event))
      && (x.bridge.cancelled ==> z.ending == Some(Disconnected))
      && (!x.bridge.cancelled && z.ending.Some? ==> EndsAs(y, turn.event, z.ending.value))
  {
    var y := Others(x, cfg, turn.before);
    OthersKeep(x, cfg, turn.before);
    if x.bridge.cancelled {
      TeardownIsComplete(x, cfg, turn.during, Disconnected);
    } else {
      EventGoesOnExactlyWhen(y, cfg, turn.event);
      EventEndsAs(y, cfg, turn.event);
      HandleKeeps(y, cfg, turn.event);
      match Handle(y, cfg, turn.event) {
        case Continue(_) =>
        case Stop(last, ending) => TeardownIsComplete(last, cfg, turn.during, ending);
      }
    }
  }

  /** A pong or an answered ping leaves the session exactly as the steps of other tasks left it. */
  lemma KeepAliveTurn(x: Session, cfg: Config, turn: Turn)
    requires !x.bridge.cancelled && (turn.event == Noticed(Pong) || turn.event == Noticed(Ping(true)))
    ensures TakeTurn(x, cfg, turn) == Others(x, cfg, turn.before)
  {}

  // ---------------------------------------------------------------- the supervisor stays sound

  lemma {:induction false} OthersKeepBridge(x: Session, cfg: Config, commands: seq<Command>)
    requires BridgeSound(x, cfg)
    ensures BridgeSound(Others(x, cfg, commands), cfg)
    decreases |commands|
  {
    if commands != [] {
      StepKeepsInv(x.bridge, cfg, commands[0]);
      OthersKeepBridge(Outside(x, cfg, commands[0]), cfg, commands[1..]);
    }
  }

  lemma LeaveKeepsBridge(x: Session, cfg: Config, t: Task)
    requires BridgeSound(x, cfg)
    ensures BridgeSound(Leave(x, t), cfg)
  {
    if t.guard.Some? { EndKeepsInv(x.bridge, cfg, t.guard.value); }
  }

  predicate ReactsSound(r: Reaction, cfg: Config) {
    match r
    case Continue(next) => BridgeSound(next, cfg)
    case Stop(last, _) => BridgeSound(last, cfg)
  }

  lemma CompletionKeepsBridge(y: Session, cfg: Config, key: RequestKey, end: TaskEnd)
    requires BridgeSound(y, cfg)
    ensures ReactsSound(Complete(y, key, end), cfg)
  {
    TableStepKeepsInv(y.bridge, cfg, DoFinishRemote(key));
  }

  lemma FrameKeepsBridge(x: Session, cfg: Config, e: Envelope, repeats: bool, now: u64, tries: Tries, chance: Chance)
    requires BridgeSound(x, cfg)
    ensures ReactsSound(HandleFrame(x, cfg, e, repeats, now, tries, chance), cfg)
  {
    TableStepKeepsInv(x.bridge, cfg, DoCancelRemote(e, repeats));
    PrepareKeepsInv(x.bridge, cfg, e, now, WriteOf(tries), chance);
  }

  lemma HandleKeepsBridge(x: Session, cfg: Config, event: RelaySession.Event)
    requires BridgeSound(x, cfg)
    ensures ReactsSound(Handle(x, cfg, event), cfg)
  {
    match event {
      case ProcessExits(t) => LeaveKeepsBridge(x, cfg, t);
      case TaskCompletes(t, end) =>
        LeaveKeepsBridge(x, cfg, t);
        CompletionKeepsBridge(Leave(x, t), cfg, t.key, end);
      case Frame(e, repeats, now, tries, chance) => FrameKeepsBridge(x, cfg, e, repeats, now, tries, chance);
      case Noticed(_) =>
    }
  }

  lemma {:induction false} WaitingKeepsBridge(x: Session, cfg: Config, waits: seq<Wait>)
    requires BridgeSound(x, cfg)
    ensures BridgeSound(Waiting(x, cfg, waits), cfg)
    decreases |waits|
  {
    if waits != [] {
      match waits[0] {
        case Elsewhere(c) => StepKeepsInv(x.bridge, cfg, c);
        case Awaited(t) => LeaveKeepsBridge(x, cfg, t);
      }
      WaitingKeepsBridge(Await(x, cfg, waits[0]), cfg, waits[1..]);
    }
  }

  lemma ReapedKeepsBridge(x: Session, cfg: Config)
    requires BridgeSound(x, cfg) && x.local <= x.bridge.live
    ensures BridgeSound(Reaped(x), cfg)
  {
    FewerGuardsTrack(x.bridge.book, cfg.maxParallel, x.bridge.live, x.local);
  }

  lemma TeardownKeepsBridge(x: Session, cfg: Config, during: seq<Wait>, ending: Ending)
    requires BridgeSound(x, cfg) && HoldsGuards(x, cfg)
    ensures BridgeSound(TornDown(x, cfg, during, ending), cfg)
  {
    var y := x.(bridge := x.bridge.(cancelled := true));
    ControlKeepsInv(x.bridge, cfg, DoCancel);
    WaitingKeepsBridge(y, cfg, during);
    WaitingKeeps(y, cfg, during);
    ReapedKeepsBridge(Waiting(y, cfg, during), cfg);
  }

  lemma TurnKeepsBridge(x: Session, cfg: Config, turn: Turn)
    requires SessionInv(x, cfg) && x.ending.None? && BridgeSound(x, cfg)
    ensures BridgeSound(TakeTurn(x, cfg, turn), cfg)
  {
    if x.bridge.cancelled {
      TeardownKeepsBridge(x, cfg, turn.during, Disconnected);
    } else {
      var y := Others(x, cfg, turn.before);
      OthersKeep(x, cfg, turn.before);
      OthersKeepBridge(x, cfg, turn.before);
      HandleKeeps(y, cfg, turn.event);
      HandleKeepsBridge(y, cfg, turn.event);
      match Handle(y, cfg, turn.event) {
        case Continue(_) =>
        case Stop(last, ending) => TeardownKeepsBridge(last, cfg, turn.during, ending);
      }
    }
  }

  predicate LetsGoOn(x: Session, cfg: Config, turn: Turn) {
    !x.bridge.cancelled && GoesOn(Others(x, cfg, turn.before), cfg, turn.event)
  }

  /** Every turn finds the session uncancelled and takes up an event that lets it go on. */
  ghost predicate StaysOpen(x: Session, cfg: Config, turns: seq<Turn>)
    decreases |turns|
  {
    turns == [] || (LetsGoOn(x, cfg, turns[0]) && StaysOpen(TakeTurn(x, cfg, turns[0]), cfg, turns[1..]))
  }

  /** A session that has not ended, on a sound supervisor. */
  predicate OpenSound(x: Session, cfg: Config) {
    SessionInv(x, cfg) && x.ending.None? && BridgeSound(x, cfg)
  }

  /** What a turn made of an open session. */
  ghost predicate TurnMakes(x: Session, cfg: Config, turn: Turn, z: Session) {
    && z == TakeTurn(x, cfg, turn) && (z.ending.None? <==> LetsGoOn(x, cfg, turn))
    && (z.ending.None? ==> OpenSound(z, cfg))
  }

  lemma OneTurnOpen(x: Session, cfg: Config, turn: Turn) returns (z: Session)
    requires OpenSound(x, cfg)
    ensures TurnMakes(x, cfg, turn, z)
  {
    z := TakeTurn(x, cfg, turn);
    OthersKeepBridge(x, cfg, turn.before);
    TurnEndsExactlyWhen(x, cfg, turn);
    TurnKeeps(x, cfg, turn);
    TurnKeepsBridge(x, cfg, turn);
  }

  lemma FirstTurn(x: Session, cfg: Config, turns: seq<Turn>, z: Session)
    requires turns != [] && x.ending.None? && TurnMakes(x, cfg, turns[0], z)
    ensures Advance(x, cfg, turns) == Advance(z, cfg, turns[1..])
    ensures z.ending.Some? ==> Advance(x, cfg, turns) == z
    ensures StaysOpen(x, cfg, turns) <==> z.ending.None? && StaysOpen(z, cfg, turns[1..])
  {}

  lemma {:induction false} OpenExactlyWhen(x: Session, cfg: Config, turns: seq<Turn>)
    requires OpenSound(x, cfg)
    ensures Advance(x, cfg, turns).ending.None? <==> StaysOpen(x, cfg, turns)
    decreases |turns|
  {
    if turns != [] {
      var z := OneTurnOpen(x, cfg, turns[0]);
      FirstTurn(x, cfg, turns, z);
      if z.ending.None? { OpenExactlyWhen(z, cfg, turns[1..]); }
    }
  }

  /** A session on a sound supervisor is still open after some turns exactly when each of them let it go on. */
  lemma SessionOpenExactlyWhen(x: Session, cfg: Config, turns: seq<Turn>)
    requires Opening(x, cfg) && BridgeSound(x, cfg)
    ensures Advance(x, cfg, turns).ending.None? <==> StaysOpen(x, cfg, turns)
    ensures StaysOpen(x, cfg, turns) ==> Play(x, cfg, turns).ending == Some(Disconnected)
  {
    OpeningIsSound(x, cfg);
    OpenExactlyWhen(x, cfg, turns);
    EveryTurnKeeps(x, cfg, turns);
    var y := Advance(x, cfg, turns);
    if y.ending.None? { TeardownIsComplete(y, cfg, [], Disconnected); }
  }
}
