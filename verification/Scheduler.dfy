/**
  The immediate-fail collaboration scheduler (crates/protocol/src/scheduler.rs).

  `Ledger` is the bookkeeping the source keeps under its mutex.  The guards that
  are alive are what that bookkeeping is about; `Tracks` says it is exact.
 */
module Scheduling {
  import opened Wrappers
  import opened ProtocolText

  datatype Mode = TaskSpaceTab | TaskSpace | Binding

  datatype RequestScope = RequestScope(mode: Mode, taskSpace: Option<string>, tab: Option<string>)

  const BINDING_SCOPE := RequestScope(Binding, None, None)

  function Trimmed(value: Option<string>): Option<string> {
    if value.None? || Trim(value.value) == "" then None else Some(Trim(value.value))
  }

  /** Missing, wildcard and malformed scopes all become a binding lock. */
  function Normalized(mode: Mode, taskSpace: Option<string>, tab: Option<string>): RequestScope {
    var ts := Trimmed(taskSpace);
    var tb := Trimmed(tab);
    if mode == Binding || ts.None? || !ValidScope(ts.value) || '*' in ts.value
       || (mode == TaskSpaceTab && (tb.None? || '*' in tb.value || !ValidScope(tb.value)))
    then BINDING_SCOPE
    else RequestScope(mode, ts, tb)
  }

  function OrEmpty(value: Option<string>): string {
    if value.Some? then value.value else ""
  }

  function LockKeys(scope: RequestScope): seq<string> {
    match scope.mode
    case Binding => ["binding"]
    case TaskSpace => ["task-space:" + OrEmpty(scope.taskSpace)]
    case TaskSpaceTab =>
      ["task-space:" + OrEmpty(scope.taskSpace), "tab:" + OrEmpty(scope.taskSpace) + ":" + OrEmpty(scope.tab)]
  }

  datatype PermitGuard = PermitGuard(keys: seq<string>, binding: bool, generation: u64, requestId: string)

  datatype SchedulerError = InvalidMaximum | LimitReached | Conflict

  /** The counters and key set kept under the scheduler's mutex. */
  datatype Ledger = Ledger(active: nat, bindingHeld: bool, keys: set<string>)

  const EMPTY_LEDGER := Ledger(0, false, {})

  function GuardFor(generation: u64, requestId: string, scope: RequestScope): PermitGuard {
    PermitGuard(LockKeys(scope), scope.mode == Binding, generation, requestId)
  }

  function Acquire(s: Ledger, maximum: nat, generation: u64, requestId: string, scope: RequestScope)
    : Result<Ledger, SchedulerError>
  {
    var keys := LockKeys(scope);
    if s.active >= maximum then Err(LimitReached)
    else if scope.mode == Binding && (s.active != 0 || s.bindingHeld) then Err(Conflict)
    else if scope.mode != Binding && (s.bindingHeld || exists k :: k in keys && k in s.keys) then Err(Conflict)
    else Ok(Ledger(s.active + 1, s.bindingHeld || scope.mode == Binding, s.keys + (set k | k in keys)))
  }

  function Release(s: Ledger, guard: PermitGuard): Ledger {
    Ledger(if s.active == 0 then 0 else s.active - 1, s.bindingHeld && !guard.binding,
           s.keys - (set k | k in guard.keys))
  }

  // ---------------------------------------------------------------- the live guards

  function KeysHeld(live: set<PermitGuard>): set<string> {
    set g, k | g in live && k in g.keys :: k
  }

  predicate DisjointKeys(live: set<PermitGuard>) {
    forall g, h :: g in live && h in live && g != h ==> forall k :: k in g.keys ==> k !in h.keys
  }

  /** The bookkeeping is exactly that of the guards that are alive. */
  predicate Tracks(s: Ledger, maximum: nat, live: set<PermitGuard>) {
    && s.active == |live| <= maximum
    && s.keys == KeysHeld(live)
    && DisjointKeys(live)
    && (forall g :: g in live ==> g.keys != [] && (g.binding ==> live == {g}))
    && (s.bindingHeld <==> exists g :: g in live && g.binding)
  }

  /** Whether a scope may join the live guards, without naming the bookkeeping. */
  predicate Admissible(live: set<PermitGuard>, maximum: nat, scope: RequestScope) {
    && |live| < maximum
    && (scope.mode == Binding ==> live == {})
    && (scope.mode != Binding ==>
          forall g :: g in live ==> !g.binding && forall k :: k in LockKeys(scope) ==> k !in g.keys)
  }

  /** Acquisition succeeds exactly when the live guards admit the scope, and adds one guard. */
  lemma AcquireRefines(s: Ledger, maximum: nat, live: set<PermitGuard>, generation: u64, requestId: string,
                       scope: RequestScope)
    requires Tracks(s, maximum, live)
    ensures var r := Acquire(s, maximum, generation, requestId, scope);
      && (r.Ok? <==> Admissible(live, maximum, scope))
      && (r.Ok? ==>
            var guard := GuardFor(generation, requestId, scope);
            guard !in live && Tracks(r.value, maximum, live + {guard}))
  {
    var keys := LockKeys(scope);
    assert keys[0] in keys;
    var r := Acquire(s, maximum, generation, requestId, scope);
    if scope.mode == Binding && r.Err? && s.active == 0 {
      assert live == {};
    }
    if r.Ok? {
      AcquireTracks(s, maximum, live, generation, requestId, scope);
    }
    if Admissible(live, maximum, scope) && scope.mode != Binding {
      assert forall k :: k in keys ==> k !in KeysHeld(live);
    }
  }

  lemma AcquireTracks(s: Ledger, maximum: nat, live: set<PermitGuard>, generation: u64, requestId: string,
                      scope: RequestScope)
    requires Tracks(s, maximum, live) && Acquire(s, maximum, generation, requestId, scope).Ok?
    ensures var guard := GuardFor(generation, requestId, scope);
      && Admissible(live, maximum, scope)
      && guard !in live && Tracks(Acquire(s, maximum, generation, requestId, scope).value, maximum, live + {guard})
  {
    var guard := GuardFor(generation, requestId, scope);
    assert guard.keys[0] in guard.keys;
    forall g, k | g in live && k in g.keys ensures k in s.keys {}
    assert forall g :: g in live ==> guard.keys[0] !in g.keys;
    assert KeysHeld(live + {guard}) == KeysHeld(live) + (set k | k in guard.keys);
  }

  /** Dropping any live guard, in any order, takes out exactly its own contribution. */
  lemma ReleaseTracks(s: Ledger, maximum: nat, live: set<PermitGuard>, guard: PermitGuard)
    requires Tracks(s, maximum, live) && guard in live
    ensures Tracks(Release(s, guard), maximum, live - {guard})
  {
    assert KeysHeld(live - {guard}) == KeysHeld(live) - (set k | k in guard.keys);
  }

  /** A guard that is dropped at once leaves the bookkeeping as it was. */
  lemma ReleaseUndoesAcquire(s: Ledger, maximum: nat, live: set<PermitGuard>, generation: u64, requestId: string,
                             scope: RequestScope)
    requires Tracks(s, maximum, live)
    ensures var r := Acquire(s, maximum, generation, requestId, scope);
      var guard := GuardFor(generation, requestId, scope);
      r.Ok? ==> guard !in live && Tracks(r.value, maximum, live + {guard}) && Release(r.value, guard) == s
  {
    var r := Acquire(s, maximum, generation, requestId, scope);
    if r.Ok? {
      var guard := GuardFor(generation, requestId, scope);
      AcquireTracks(s, maximum, live, generation, requestId, scope);
      ReleaseTracks(r.value, maximum, live + {guard}, guard);
      assert live + {guard} - {guard} == live;
    }
  }

  // ---------------------------------------------------------------- any interleaving

  datatype Action = TryAcquire(generation: u64, requestId: string, scope: RequestScope) | Drop(guard: PermitGuard)

  datatype World = World(ledger: Ledger, live: set<PermitGuard>)

  /** A guard is dropped once, by its owner; anything else is not an action of the program. */
  function Act(w: World, maximum: nat, action: Action): World {
    match action
    case TryAcquire(generation, requestId, scope) =>
      var r := Acquire(w.ledger, maximum, generation, requestId, scope);
      if r.Err? then w else World(r.value, w.live + {GuardFor(generation, requestId, scope)})
    case Drop(guard) =>
      if guard in w.live then World(Release(w.ledger, guard), w.live - {guard}) else w
  }

  function Perform(w: World, maximum: nat, actions: seq<Action>): World
    decreases |actions|
  {
    if actions == [] then w else Perform(Act(w, maximum, actions[0]), maximum, actions[1..])
  }

  lemma {:induction false} PerformTracks(w: World, maximum: nat, actions: seq<Action>)
    requires Tracks(w.ledger, maximum, w.live)
    ensures var w' := Perform(w, maximum, actions);
      Tracks(w'.ledger, maximum, w'.live)
    decreases |actions|
  {
    if actions != [] {
      match actions[0] {
        case TryAcquire(generation, requestId, scope) =>
          AcquireRefines(w.ledger, maximum, w.live, generation, requestId, scope);
        case Drop(guard) =>
          if guard in w.live { ReleaseTracks(w.ledger, maximum, w.live, guard); }
      }
      PerformTracks(Act(w, maximum, actions[0]), maximum, actions[1..]);
    }
  }

  /**
    For every interleaving of acquisitions and out-of-order drops the counters are
    exact, and once every guard is gone the scheduler is as it was created.
   */
  lemma SchedulerRefinesLiveGuards(maximum: nat, actions: seq<Action>)
    ensures var w := Perform(World(EMPTY_LEDGER, {}), maximum, actions);
      && w.ledger.active == |w.live| <= maximum
      && w.ledger.keys == KeysHeld(w.live) && DisjointKeys(w.live)
      && (w.ledger.bindingHeld <==> exists g :: w.live == {g} && g.binding)
      && (w.live == {} ==> w.ledger == EMPTY_LEDGER)
  {
    assert KeysHeld({}) == {};
    PerformTracks(World(EMPTY_LEDGER, {}), maximum, actions);
    var w := Perform(World(EMPTY_LEDGER, {}), maximum, actions);
    if w.ledger.bindingHeld {
      var g :| g in w.live && g.binding;
      assert w.live == {g};
    }
  }

  // ---------------------------------------------------------------- one dedicated Task Space

  /** The scope is a binding lock or locks the given Task Space. */
  predicate Within(scope: RequestScope, taskSpace: string) {
    scope == BINDING_SCOPE || (scope.mode != Binding && scope.taskSpace == Some(taskSpace))
  }

  predicate GuardWithin(g: PermitGuard, taskSpace: string) {
    g.binding || "task-space:" + taskSpace in g.keys
  }

  lemma GuardForWithin(generation: u64, requestId: string, scope: RequestScope, taskSpace: string)
    requires Within(scope, taskSpace)
    ensures GuardWithin(GuardFor(generation, requestId, scope), taskSpace)
  {
    if scope.mode != Binding { assert LockKeys(scope)[0] == "task-space:" + taskSpace; }
  }

  /** Guards confined to one Task Space exclude each other whatever the parallelism limit. */
  lemma ConfinedGuardsAreAlone(s: Ledger, maximum: nat, live: set<PermitGuard>, taskSpace: string)
    requires Tracks(s, maximum, live)
    requires forall g :: g in live ==> GuardWithin(g, taskSpace)
    ensures s.active <= 1
  {
    forall g, h | g in live && h in live ensures g == h {
      if !g.binding && !h.binding { assert "task-space:" + taskSpace in g.keys; }
    }
    if live != {} {
      var g :| g in live;
      assert live == {g};
    }
  }

  // ---------------------------------------------------------------- the object

  class Scheduler {
    const maximum: nat
    var active: nat
    var bindingHeld: bool
    var keys: set<string>

    constructor (maximum: nat)
      ensures this.maximum == maximum && Bookkeeping() == EMPTY_LEDGER
    {
      this.maximum := maximum;
      active, bindingHeld, keys := 0, false, {};
    }

    /** A limit outside 1..4 is refused before the object exists. */
    static method Create(maximum: nat) returns (r: Result<Scheduler, SchedulerError>)
      ensures r.Ok? <==> 1 <= maximum <= 4
      ensures r.Ok? ==> fresh(r.value) && r.value.maximum == maximum && r.value.Bookkeeping() == EMPTY_LEDGER
      ensures r.Err? ==> r.error == InvalidMaximum
    {
      if maximum == 0 || maximum > 4 { return Err(InvalidMaximum); }
      var scheduler := new Scheduler(maximum);
      return Ok(scheduler);
    }

    function Bookkeeping(): Ledger
      reads this
    {
      Ledger(active, bindingHeld, keys)
    }

    method TryAcquire(generation: u64, requestId: string, scope: RequestScope)
      returns (r: Result<PermitGuard, SchedulerError>)
      modifies this
      ensures var spec := Acquire(old(Bookkeeping()), maximum, generation, requestId, scope);
        if spec.Err? then r == Err(spec.error) && Bookkeeping() == old(Bookkeeping())
        else r == Ok(GuardFor(generation, requestId, scope)) && Bookkeeping() == spec.value
    {
      if active >= maximum { return Err(LimitReached); }
      var wanted := LockKeys(scope);
      if scope.mode == Binding {
        if active != 0 || bindingHeld { return Err(Conflict); }
      } else if bindingHeld || exists k :: k in wanted && k in keys {
        return Err(Conflict);
      }
      ghost var held := keys;
      for i := 0 to |wanted|
        invariant keys == held + (set k | k in wanted[..i])
        invariant active == old(active) && bindingHeld == old(bindingHeld)
      {
        assert wanted[..i + 1] == wanted[..i] + [wanted[i]];
        keys := keys + {wanted[i]};
      }
      assert wanted[..|wanted|] == wanted;
      bindingHeld := bindingHeld || scope.mode == Binding;
      active := active + 1;
      return Ok(GuardFor(generation, requestId, scope));
    }

    /** What dropping a guard does, releasing its keys last-acquired first. */
    method DropGuard(guard: PermitGuard)
      modifies this
      ensures Bookkeeping() == Release(old(Bookkeeping()), guard)
    {
      ghost var held := keys;
      for i := |guard.keys| downto 0
        invariant keys == held - (set k | k in guard.keys[i..])
        invariant active == old(active) && bindingHeld == old(bindingHeld)
      {
        assert guard.keys[i..] == [guard.keys[i]] + guard.keys[i + 1..];
        keys := keys - {guard.keys[i]};
      }
      assert guard.keys[0..] == guard.keys;
      if guard.binding { bindingHeld := false; }
      active := if active == 0 then 0 else active - 1;
    }
  }

  // ---------------------------------------------------------------- which scopes exclude each other

  predicate KeysMeet(a: RequestScope, b: RequestScope) {
    exists k :: k in LockKeys(a) && k in LockKeys(b)
  }

  /** The joined text a tab is locked under. */
  function TabKey(s: RequestScope): string {
    OrEmpty(s.taskSpace) + ":" + OrEmpty(s.tab)
  }

  /**
    Two scopes without a binding lock share a key exactly when they name the same Task
    Space, or both a tab under the same joined text.
   */
  lemma KeysMeetExactlyWhen(a: RequestScope, b: RequestScope)
    requires !a.mode.Binding? && !b.mode.Binding?
    ensures KeysMeet(a, b) <==>
      || OrEmpty(a.taskSpace) == OrEmpty(b.taskSpace)
      || (a.mode.TaskSpaceTab? && b.mode.TaskSpaceTab? && TabKey(a) == TabKey(b))
  {
    var la, lb := LockKeys(a), LockKeys(b);
    SpaceKey(a);
    SpaceKey(b);
    if OrEmpty(a.taskSpace) == OrEmpty(b.taskSpace) { assert la[0] in la && la[0] in lb; }
    if a.mode.TaskSpaceTab? && b.mode.TaskSpaceTab? && TabKey(a) == TabKey(b) {
      assert la[1] in la && la[1] == lb[1] && lb[1] in lb;
    }
    if KeysMeet(a, b) {
      var k :| k in la && k in lb;
      if k[2] == 'b' {
        assert k[4..] == TabKey(a) && k[4..] == TabKey(b);
      } else {
        assert k[11..] == OrEmpty(a.taskSpace) && k[11..] == OrEmpty(b.taskSpace);
      }
    }
  }

  /** Task Space keys and tab keys never coincide, and each gives back what it was made from. */
  lemma SpaceKey(s: RequestScope)
    requires !s.mode.Binding?
    ensures forall k :: k in LockKeys(s) ==>
      || (|k| >= 11 && k[2] == 's' && k[11..] == OrEmpty(s.taskSpace))
      || (s.mode.TaskSpaceTab? && |k| >= 4 && k[2] == 'b' && k[4..] == TabKey(s))
  {
    forall k | k in LockKeys(s)
      ensures || (|k| >= 11 && k[2] == 's' && k[11..] == OrEmpty(s.taskSpace))
              || (s.mode.TaskSpaceTab? && |k| >= 4 && k[2] == 'b' && k[4..] == TabKey(s))
    {
      if k == LockKeys(s)[0] {
        assert k == "task-space:" + OrEmpty(s.taskSpace);
      } else {
        assert k == LockKeys(s)[1];
        assert k == "tab:" + TabKey(s);
      }
    }
  }
}
