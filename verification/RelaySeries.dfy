/**
  Relay sessions one after another (crates/local-bridge/src/outbound.rs:343-375):
  between two of them the other tasks go on and the Bridge resumes or activates.
 */
module RelaySeries {
  import opened Wrappers
  import opened Scheduling
  import opened BridgeProtocol
  import opened Supervision
  import opened SupervisionRuns
  import opened RelaySession
  import Sequences = SequenceLedger

  /** One connection: what happens before it, how the Bridge takes up the relay again, and its turns. */
  datatype Visit = Visit(between: seq<Command>, control: Command, turns: seq<Turn>)

  function Fresh(s: State, local: set<PermitGuard>): Session {
    Session(s, {}, local, [], None)
  }

  function Reopened(s: State, cfg: Config, v: Visit): Session {
    var z := Others(Fresh(s, s.live), cfg, v.between);
    Fresh(if v.control.DoResume? || v.control.DoActivate? then Step(z.bridge, cfg, v.control).0 else z.bridge, z.local)
  }

  ghost function Visited(s: State, cfg: Config, v: Visit): Session {
    Play(Reopened(s, cfg, v), cfg, v.turns)
  }

  ghost function AfterAll(s: State, cfg: Config, visits: seq<Visit>): State
    decreases |visits|
  {
    if visits == [] then s else AfterAll(Visited(s, cfg, visits[0]).bridge, cfg, visits[1..])
  }

  /** Every answer of every session, in order. */
  ghost function Answers(s: State, cfg: Config, visits: seq<Visit>): seq<RequestKey>
    decreases |visits|
  {
    if visits == [] then []
    else var y := Visited(s, cfg, visits[0]); y.answered + Answers(y.bridge, cfg, visits[1..])
  }

  /** Each session starts as a first one would and is torn down before the next. */
  ghost predicate NeverOverlap(s: State, cfg: Config, visits: seq<Visit>)
    decreases |visits|
  {
    visits != [] ==>
      var y := Visited(s, cfg, visits[0]);
      && Opening(Reopened(s, cfg, visits[0]), cfg) && TornDownCompletely(y, cfg)
      && NeverOverlap(y.bridge, cfg, visits[1..])
  }

  // ---------------------------------------------------------------- requests of a session are new

  /** Everything the session holds or has answered was reserved after `floor`. */
  predicate Above(x: Session, floor: u64) {
    && floor <= x.bridge.highest
    && (forall t :: t in x.pending ==> floor < t.key.sequence)
    && (forall k :: k in x.answered ==> floor < k.sequence)
  }

  predicate ReactsAbove(r: Reaction, floor: u64) {
    match r
    case Continue(next) => Above(next, floor)
    case Stop(last, _) => Above(last, floor)
  }

  lemma FrameAbove(x: Session, cfg: Config, e: Envelope, repeats: bool, now: u64, tries: Tries, chance: Chance,
                   floor: u64)
    requires SessionInv(x, cfg) && Above(x, floor)
    ensures ReactsAbove(HandleFrame(x, cfg, e, repeats, now, tries, chance), floor)
  {
    CancelOutcome(x.bridge, cfg, e, repeats);
    PrepareOutcome(x.bridge, cfg, e, now, Sequences.FateOf(tries, Sequences.PERSIST_ATTEMPTS), chance);
  }

  lemma LeaveAbove(x: Session, t: Task, floor: u64)
    requires Above(x, floor)
    ensures Above(Leave(x, t), floor)
  {
    assert Leave(x, t).bridge.highest == x.bridge.highest;
  }

  lemma ExitAbove(x: Session, t: Task, floor: u64)
    requires Above(x, floor) && t in x.pending
    ensures Above(Exited(x, t), floor)
  {
    LeaveAbove(x, t, floor);
  }

  lemma CompletionAbove(y: Session, t: Task, end: TaskEnd, floor: u64)
    requires Above(y, floor) && floor < t.key.sequence
    ensures ReactsAbove(Complete(y, t.key, end), floor)
  {}

  lemma HandleAbove(x: Session, cfg: Config, event: RelaySession.Event, floor: u64)
    requires SessionInv(x, cfg) && Above(x, floor)
    ensures ReactsAbove(Handle(x, cfg, event), floor)
  {
    match event {
      case Frame(e, repeats, now, tries, chance) => FrameAbove(x, cfg, e, repeats, now, tries, chance, floor);
      case ProcessExits(t) => if t in x.pending { ExitAbove(x, t, floor); }
      case TaskCompletes(t, end) =>
        if t in x.pending {
          LeaveAbove(x, t, floor);
          CompletionAbove(Leave(x, t), t, end, floor);
        }
      case Noticed(_) =>
    }
  }

  lemma TurnAbove(x: Session, cfg: Config, turn: Turn, floor: u64)
    requires SessionInv(x, cfg) && x.ending.None? && Above(x, floor)
    ensures Above(TakeTurn(x, cfg, turn), floor)
  {
    if x.bridge.cancelled {
      TeardownIsComplete(x, cfg, turn.during, Disconnected);
    } else {
      var y := Others(x, cfg, turn.before);
      OthersKeep(x, cfg, turn.before);
      HandleKeeps(y, cfg, turn.event);
      HandleAbove(y, cfg, turn.event, floor);
      match Handle(y, cfg, turn.event) {
        case Continue(_) =>
        case Stop(last, ending) => TeardownIsComplete(last, cfg, turn.during, ending);
      }
    }
  }

  lemma {:induction false} AdvanceAbove(x: Session, cfg: Config, turns: seq<Turn>, floor: u64)
    requires Progress(x, cfg) && Above(x, floor)
    ensures Above(Advance(x, cfg, turns), floor)
    decreases |turns|
  {
    if turns != [] && x.ending.None? {
      TurnAbove(x, cfg, turns[0], floor);
      TurnKeeps(x, cfg, turns[0]);
      AdvanceAbove(TakeTurn(x, cfg, turns[0]), cfg, turns[1..], floor);
    }
  }

  lemma SessionAnswersAreNew(x: Session, cfg: Config, turns: seq<Turn>)
    requires Opening(x, cfg)
    ensures var y := Play(x, cfg, turns);
      Above(y, x.bridge.highest) && AnswersSound(y.answered, y.bridge.highest)
  {
    OpeningIsSound(x, cfg);
    EveryTurnKeeps(x, cfg, turns);
    AdvanceAbove(x, cfg, turns, x.bridge.highest);
    var y := Advance(x, cfg, turns);
    if y.ending.None? { TeardownIsComplete(y, cfg, [], Disconnected); }
  }

  // ---------------------------------------------------------------- the series

  predicate Rested(s: State, cfg: Config) {
    GuardsTracked(s, cfg) && s.active == map[]
  }

  lemma ReopenedIsOpening(s: State, cfg: Config, v: Visit)
    requires Rested(s, cfg)
    ensures Opening(Reopened(s, cfg, v), cfg) && Reopened(s, cfg, v).bridge.highest == s.highest
  {
    var x := Fresh(s, s.live);
    NothingPending(s.live, [], s.highest);
    OthersKeep(x, cfg, v.between);
    var z := Others(x, cfg, v.between);
    assert GuardsOf({}) == {};
    if v.control.DoResume? || v.control.DoActivate? { ControlEffect(z.bridge, cfg, v.control); }
  }

  /**
    Over any series of sessions with anything else going on during and between them:
    no two overlap, and no relayed request is answered twice in all of them.
   */
  lemma {:induction false} SessionsFollowEachOther(s: State, cfg: Config, visits: seq<Visit>)
    requires Rested(s, cfg)
    ensures NeverOverlap(s, cfg, visits) && Rested(AfterAll(s, cfg, visits), cfg)
    ensures Distinct(Answers(s, cfg, visits)) && forall k :: k in Answers(s, cfg, visits) ==> s.highest < k.sequence
    decreases |visits|
  {
    if visits != [] {
      var x := Reopened(s, cfg, visits[0]);
      var y := Visited(s, cfg, visits[0]);
      ReopenedIsOpening(s, cfg, visits[0]);
      SessionsDoNotOverlap(x, cfg, visits[0].turns);
      SessionAnswersAreNew(x, cfg, visits[0].turns);
      SessionsFollowEachOther(y.bridge, cfg, visits[1..]);
      DistinctAppend(y.answered, Answers(y.bridge, cfg, visits[1..]), y.bridge.highest);
    }
  }

  lemma DistinctAppend(a: seq<RequestKey>, b: seq<RequestKey>, limit: u64)
    requires Distinct(a) && Distinct(b)
    requires (forall k :: k in a ==> k.sequence <= limit) && (forall k :: k in b ==> limit < k.sequence)
    ensures Distinct(a + b)
  {
    var all := a + b;
    forall i, j | 0 <= i < j < |all| ensures all[i] != all[j] {
      if i < |a| <= j { assert all[i] in a && all[j] in b; }
    }
  }
}
