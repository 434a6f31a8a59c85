/**
  The durable remote-sequence ledger and its use before any relayed request runs
  (crates/local-bridge/src/state_store.rs:40-126, supervisor_control.rs:245-256).
 */
module SequenceLedger {
  import opened Wrappers

  const PERSIST_ATTEMPTS := 8

  /** What a reader finds now, and what a reader finds after losing power. */
  datatype Storage = Storage(visible: Option<u64>, durable: Option<u64>)

  /** How one write of the ledger ended. A failure after the rename may or may not have reached the disk. */
  datatype Fate = Written | FailedBeforeRename | FailedAfterRename(reachedDisk: bool)

  function LoadRemoteSequence(file: Option<u64>): u64 {
    if file.None? then 0 else file.value
  }

  function Persist(s: Storage, sequence: u64, fate: Fate): Storage {
    match fate
    case Written => Storage(Some(sequence), Some(sequence))
    case FailedBeforeRename => s
    case FailedAfterRename(reached) => Storage(Some(sequence), if reached then Some(sequence) else s.durable)
  }

  datatype ReserveError = Replay | PersistFailed

  /** In-memory high-water mark and storage after an attempt to reserve `sequence`. */
  function Reserve(highest: u64, s: Storage, sequence: u64, fate: Fate): (u64, Storage, Outcome<ReserveError>) {
    if sequence <= highest then (highest, s, Fail(Replay))
    else if fate.Written? then (sequence, Persist(s, sequence, fate), Pass)
    else (highest, Persist(s, sequence, fate), Fail(PersistFailed))
  }

  // ---------------------------------------------------------------- the bounded retry loop

  /** One temporary file: its name collides, or the write through it ends in some way. */
  datatype TemporaryFile = NameTaken | Ends(fate: Fate)

  /** The fate the first usable temporary decides; none in eight tries is a failure. */
  function FateOf(tries: seq<TemporaryFile>, budget: nat): Fate {
    if budget == 0 || tries == [] then FailedBeforeRename
    else if tries[0].Ends? then tries[0].fate
    else FateOf(tries[1..], budget - 1)
  }

  class LedgerFile {
    var storage: Storage
    var highest: u64

    /** What a starting supervisor does with the ledger it finds. */
    constructor (storage: Storage)
      ensures this.storage == storage && highest == LoadRemoteSequence(storage.visible)
    {
      this.storage := storage;
      highest := LoadRemoteSequence(storage.visible);
    }

    method PersistRemoteSequence(sequence: u64, tries: seq<TemporaryFile>) returns (o: Outcome<ReserveError>)
      requires |tries| >= PERSIST_ATTEMPTS
      modifies this`storage
      ensures var fate := FateOf(tries, PERSIST_ATTEMPTS);
        storage == Persist(old(storage), sequence, fate) && o == if fate.Written? then Pass else Fail(PersistFailed)
    {
      for i := 0 to PERSIST_ATTEMPTS
        invariant storage == old(storage)
        invariant FateOf(tries, PERSIST_ATTEMPTS) == FateOf(tries[i..], PERSIST_ATTEMPTS - i)
      {
        match tries[i] {
          case NameTaken =>
          case Ends(fate) =>
            storage := Persist(storage, sequence, fate);
            return if fate.Written? then Pass else Fail(PersistFailed);
        }
      }
      return Fail(PersistFailed);
    }

    method ReserveRemoteSequence(sequence: u64, tries: seq<TemporaryFile>) returns (o: Outcome<ReserveError>)
      requires |tries| >= PERSIST_ATTEMPTS
      modifies this
      ensures (highest, storage, o) == Reserve(old(highest), old(storage), sequence, FateOf(tries, PERSIST_ATTEMPTS))
    {
      if sequence <= highest { return Fail(Replay); }
      :- PersistRemoteSequence(sequence, tries);
      highest := sequence;
      return Pass;
    }
  }

  // ---------------------------------------------------------------- runs with crashes and restarts

  datatype Action =
    | TryReserve(sequence: u64, fate: Fate)
    | ProcessDies
    | DiesWhilePersisting(sequence: u64, fate: Fate)
    | PowerLost
    | Start

  /** `highest` is absent while no supervisor owns the work root. */
  datatype World = World(highest: Option<u64>, storage: Storage, admitted: seq<u64>)

  function Act(w: World, action: Action): World {
    match action
    case TryReserve(sequence, fate) =>
      if w.highest.None? then w else
        var r := Reserve(w.highest.value, w.storage, sequence, fate);
        World(Some(r.0), r.1, if r.2.Pass? then w.admitted + [sequence] else w.admitted)
    case ProcessDies => w.(highest := None)
    case DiesWhilePersisting(sequence, fate) =>
      if w.highest.None? || sequence <= w.highest.value then w.(highest := None)
      else World(None, Persist(w.storage, sequence, fate), w.admitted)
    case PowerLost => World(None, Storage(w.storage.durable, w.storage.durable), w.admitted)
    case Start =>
      if w.highest.Some? then w else w.(highest := Some(LoadRemoteSequence(w.storage.visible)))
  }

  function Run(w: World, actions: seq<Action>): World
    decreases |actions|
  {
    if actions == [] then w else Run(Act(w, actions[0]), actions[1..])
  }

  predicate Increasing(s: seq<u64>) {
    forall i, j :: 0 <= i < j < |s| ==> s[i] < s[j]
  }

  /** Nothing that survives a crash is below anything that was admitted. */
  predicate Covers(w: World) {
    && Increasing(w.admitted)
    && forall i :: 0 <= i < |w.admitted| ==>
         && w.admitted[i] <= LoadRemoteSequence(w.storage.visible)
         && w.admitted[i] <= LoadRemoteSequence(w.storage.durable)
         && (w.highest.Some? ==> w.admitted[i] <= w.highest.value)
  }

  lemma ActKeepsCover(w: World, action: Action)
    requires Covers(w)
    ensures Covers(Act(w, action))
  {}

  /**
    No replay across restarts: whatever crashes, failed writes and restarts
    happen, the sequences that pass the reservation are strictly increasing.
   */
  lemma {:induction false} AdmittedSequencesIncrease(w: World, actions: seq<Action>)
    requires Covers(w)
    ensures var w' := Run(w, actions);
      Covers(w') && Increasing(w'.admitted) && w.admitted <= w'.admitted
    decreases |actions|
  {
    if actions != [] {
      ActKeepsCover(w, actions[0]);
      AdmittedSequencesIncrease(Act(w, actions[0]), actions[1..]);
    }
  }

  /** The first temporary file that can be made decides, if it is among the first `budget`; else nothing is written. */
  lemma {:induction false} FirstUsableDecides(tries: seq<TemporaryFile>, budget: nat, i: nat)
    requires i <= |tries| && forall j :: 0 <= j < i ==> tries[j].NameTaken?
    ensures i < |tries| && i < budget && tries[i].Ends? ==> FateOf(tries, budget) == tries[i].fate
    ensures i >= budget || i == |tries| ==> FateOf(tries, budget) == FailedBeforeRename
    decreases i
  {
    if i > 0 && budget > 0 { FirstUsableDecides(tries[1..], budget - 1, i - 1); }
  }

  /** A reservation is admitted exactly above the mark and with the ledger written; nothing else admits. */
  lemma AdmitsExactlyWhen(w: World, sequence: u64, fate: Fate)
    ensures var w' := Act(w, TryReserve(sequence, fate));
      && (w'.admitted == w.admitted + [sequence] <==> w.highest.Some? && sequence > w.highest.value && fate.Written?)
      && (w'.admitted != w.admitted + [sequence] ==> w'.admitted == w.admitted && w'.highest == w.highest)
      && (w'.admitted == w.admitted + [sequence] ==>
            w'.highest == Some(sequence) && w'.storage == Storage(Some(sequence), Some(sequence)))
  {}

  /** After any ending a start takes up the mark in the ledger; a supervisor that runs is not started again. */
  lemma StartTakesUpLedger(w: World)
    ensures var w' := Act(w, Start);
      && w'.storage == w.storage && w'.admitted == w.admitted
      && w'.highest == if w.highest.Some? then w.highest
                       else if w.storage.visible.Some? then w.storage.visible else Some(0)
    ensures Act(w, ProcessDies) == World(None, w.storage, w.admitted)
    ensures Act(w, PowerLost) == World(None, Storage(w.storage.durable, w.storage.durable), w.admitted)
  {}

  /** A process that dies while persisting may have raised the ledger but admits nothing, and never for a replay. */
  lemma DyingAdmitsNothing(w: World, sequence: u64, fate: Fate)
    ensures var w' := Act(w, DiesWhilePersisting(sequence, fate));
      && w'.highest.None? && w'.admitted == w.admitted
      && (w.highest.None? || sequence <= w.highest.value || fate.FailedBeforeRename? ==> w'.storage == w.storage)
      && (w.highest.Some? && sequence > w.highest.value && !fate.FailedBeforeRename? ==>
            && w'.storage.visible == Some(sequence)
            && w'.storage.durable == if fate.Written? || fate.reachedDisk then Some(sequence) else w.storage.durable)
  {}
}
