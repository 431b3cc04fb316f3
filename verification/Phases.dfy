/**
 The phase loop as a step machine: planning waves over a snapshot, runs finishing in any order, stale runs, commits
 that retire other invocations, preemption, abandoned drivers, log compaction, and beside it the world moving and settles
 that take the memo table, run their own, and put the table back.
 */
module Phases {
  import opened Ids
  import opened World
  import opened Queries
  import opened Joins
  import opened Hints
  import opened Planners
  import opened Coverage
  import opened Admission
  import A = Accesses
  import O = Output
  import P = InPlace

  /** A planning wave: the live world whose log it reads, the snapshot it plans from, and the next system in turn. */
  datatype Wave = Wave(base: WorldState, snap: WorldState, next: nat)

  /**
   A settle running its hooks or its phase, between taking the memo table out of the state and putting it back. `flights`
   maps each of its runs to the snapshot it was launched from.
   */
  datatype Task = Task(hooks: bool, memo: Memo, flights: Flights, launched: bool)

  /**
   The engine between two atomic steps. `store` is the memo table in the shared state; while `running`, a driver holds a
   generation and its table `memo`, and each task holds one of its own. `flights` maps each invocation the generation
   runs to the snapshot it was planned from. `batch` and `dirty` describe the finished runs not yet accounted for:
   whether there are any, and whether one changed the world or was stale. The last two are history: `interfered` when
   something other than one of its own commits moved the counters or forced a row during this phase, `orphans` the
   invocations with an entry that was dropped or overwritten.
   */
  datatype Engine = Engine(
    world: WorldState,
    planners: seq<Planner>,
    store: Memo,
    tasks: map<nat, Task>,
    running: bool,
    memo: Memo,
    flights: Flights,
    cache: Option<WorldState>,
    phase: Option<Phase>,
    wave: Option<Wave>,
    needsPlan: bool,
    conflicts: bool,
    batch: bool,
    dirty: bool,
    draining: bool,
    interfered: bool,
    orphans: set<Owner>)

  /** The invocations no plan is answerable for: running, or with an entry that was lost. */
  function Excused(g: Engine): set<Owner> {
    g.flights.Keys + g.orphans
  }

  function Records(memo: Memo): Known {
    memo.Items
  }

  function TaskRecords(tasks: map<nat, Task>): Known {
    set id, r | id in tasks && r in Records(tasks[id].memo) :: r
  }

  /** Everything on record, in whichever table. */
  function OnRecord(g: Engine): Known {
    Records(g.store) + TaskRecords(g.tasks) + Records(g.memo)
  }

  /** The invocations whose entry is gone when table `before` gives way to `after`. */
  function Overwritten(before: Memo, after: Memo): set<Owner> {
    set o | o in before && (o !in after || after[o] != before[o])
  }

  // ---- snapshots ----

  function SnapshotKey(w: WorldState): (Entity, nat, nat) {
    (w.next, w.revision, w.mutations)
  }

  /** The cached snapshot while its key still matches, else a fresh one. */
  function Snapshot(g: Engine): WorldState {
    if g.cache.Some? && SnapshotKey(g.cache.value) == SnapshotKey(g.world) then g.cache.value else g.world
  }

  // ---- planning ----

  predicate Gate(shapes: seq<Shape>, g: Engine, i: nat, w: WorldState) {
    i < |shapes| && i < |g.planners| && g.phase == Some(shapes[i].phase) && Open(shapes[i], g.planners[i], w)
  }

  /** Some system of the running phase needs planning. */
  predicate AnyOpen(shapes: seq<Shape>, g: Engine) {
    exists i :: 0 <= i < |shapes| && Gate(shapes, g, i, g.world)
  }

  function PlannedRows(sc: Schema, sh: Shape, p: Planner, wave: Wave): seq<seq<Entity>>
    requires sh.Valid()
  {
    var hint := NextHint(sh, p, wave.base);
    if hint.None? then States(wave.snap, sh.queries) else StatesHinted(sc, wave.snap, sh.queries, hint.value)
  }

  lemma PlannedRowsFit(sc: Schema, shapes: seq<Shape>, id: nat, p: Planner, wave: Wave)
    requires id < |shapes| && shapes[id].Valid()
    ensures RowsFit(shapes, id, PlannedRows(sc, shapes[id], p, wave))
  {
    var rows := PlannedRows(sc, shapes[id], p, wave);
    var ps := shapes[id].queries;
    forall i | 0 <= i < |rows| ensures |rows[i]| == |ps| {
      assert rows[i] in rows;
      if NextHint(shapes[id], p, wave.base).Some? {
        HintedRowsAreRows(sc, wave.snap, ps, NextHint(shapes[id], p, wave.base).value, rows[i]);
      }
      BuildMembers(wave.snap, ps, [], Paired, rows[i]);
    }
  }

  /** What planning the wave's next system admits. */
  function Turn(sc: Schema, shapes: seq<Shape>, g: Engine): (r: Admitting)
    requires g.wave.Some? && g.wave.value.next < |shapes| == |g.planners| && Shaped(shapes, g.flights.Keys)
    requires shapes[g.wave.value.next].Valid()
    ensures Shaped(shapes, r.flights.Keys)
  {
    var wave := g.wave.value;
    var i := wave.next;
    var p := Marked(shapes[i], g.planners[i], wave.snap);
    PlannedRowsFit(sc, shapes, i, p, wave);
    AdmitRows(sc, shapes, i, wave.snap, g.memo, PlannedRows(sc, shapes[i], p, wave),
              Admitting(Consumed(shapes[i], p, wave.base), g.flights, g.conflicts))
  }

  /** Passes the turn; a system that planned leaves its planner and its runs behind. */
  function Passed(g: Engine, done: Option<Admitting>): Engine
    requires g.wave.Some? && g.wave.value.next < |g.planners|
  {
    var i := g.wave.value.next;
    var turned := g.(wave := Some(g.wave.value.(next := i + 1)));
    if done.None? then turned
    else turned.(planners := g.planners[i := done.value.p], flights := done.value.flights, conflicts := done.value.conflicts)
  }

  /** What the next system of the wave leaves, when it is of the phase and its gate is open in the snapshot. */
  function Outcome(sc: Schema, shapes: seq<Shape>, g: Engine): Option<Admitting>
    requires g.wave.Some? && g.wave.value.next < |shapes| == |g.planners| && Shaped(shapes, g.flights.Keys)
    requires shapes[g.wave.value.next].Valid()
  {
    if Gate(shapes, g, g.wave.value.next, g.wave.value.snap) then Some(Turn(sc, shapes, g)) else None
  }

  function PlanNext(sc: Schema, shapes: seq<Shape>, g: Engine): Engine
    requires g.wave.Some? && g.wave.value.next < |shapes| == |g.planners| && Shaped(shapes, g.flights.Keys)
    requires forall i :: 0 <= i < |shapes| ==> shapes[i].Valid()
  {
    Passed(g, Outcome(sc, shapes, g))
  }

  // ---- committing ----

  /** In the settle phase inserts and spawns are held back for the next run; removals apply. */
  function Kept(phase: Option<Phase>, cs: seq<O.Command>): seq<O.Command> {
    if phase != Some(Settle) then cs
    else if cs == [] then []
    else (if cs[0].Put? then [] else [cs[0]]) + Kept(phase, cs[1..])
  }

  function Force(shapes: seq<Shape>, planners: seq<Planner>, o: Owner): seq<Planner>
    requires |planners| == |shapes|
  {
    if o.system < |shapes| then planners[o.system := ForceReplan(shapes[o.system], planners[o.system], o.keys)] else planners
  }

  datatype Retired = Retired(memo: Memo, planners: seq<Planner>, any: bool)

  /** `reconcile_removed_output_owners`: owners that lost a component forget their memo and are forced back. */
  function RetireOwners(shapes: seq<Shape>, memo: Memo, planners: seq<Planner>, owners: seq<Owner>): (r: Retired)
    requires |planners| == |shapes|
    ensures |r.planners| == |shapes|
    decreases |owners|
  {
    if owners == [] then Retired(memo, planners, false)
    else
      var o := owners[0];
      var rest := if o in memo then RetireOwners(shapes, memo - {o}, Force(shapes, planners, o), owners[1..])
                  else RetireOwners(shapes, memo, planners, owners[1..]);
      rest.(any := rest.any || o in memo)
  }

  predicate KeyedBy(o: Owner, es: seq<Entity>) {
    exists i :: 0 <= i < |o.keys| && o.keys[i] in es
  }

  function Forget(memo: Memo, es: seq<Entity>): Memo {
    map o | o in memo && !KeyedBy(o, es) :: memo[o]
  }

  function Drained(w: WorldState): WorldState {
    w.(removedEntities := [], removedOwners := [], removedComponentOwners := [])
  }

  datatype Account = Account(world: WorldState, memo: Memo, planners: seq<Planner>)

  /**
   Accounts for what a commit removed, in the table of whoever committed. With no pair-bound system the entity frontier
   is a single sweep of the table, and as in the source it is skipped altogether when an owner was retired first.
   */
  function Reconciled(shapes: seq<Shape>, w: WorldState, memo: Memo, planners: seq<Planner>): (a: Account)
    requires |planners| == |shapes|
    ensures |a.planners| == |shapes|
  {
    var retired := RetireOwners(shapes, memo, planners, w.removedComponentOwners);
    Account(Drained(w), if retired.any then retired.memo else Forget(retired.memo, w.removedEntities), retired.planners)
  }

  predicate CountersMoved(w: WorldState, w': WorldState) {
    w.revision != w'.revision || w.mutations != w'.mutations
  }

  /** The run's in-place writes and its dependencies as captured at planning. */
  function WrittenBy(shapes: seq<Shape>, o: Owner): seq<(TypeId, Entity)> {
    Written(AccessOf(shapes, o))
  }

  function DepsAt(sc: Schema, shapes: seq<Shape>, w: WorldState, o: Owner): seq<Dep> {
    if o.system < |shapes| && |o.keys| == |shapes[o.system].queries| then Deps(sc, w, shapes[o.system], o.keys) else []
  }

  predicate Fresh(sc: Schema, shapes: seq<Shape>, w: WorldState, flights: Flights, o: Owner)
    requires o in flights
  {
    AllCurrent(w, DepsAt(sc, shapes, flights[o], o))
  }

  /** A stale run: its commands vanish, its in-place writes are reconciled, and the phase loop forces its row back. */
  function Discard(sc: Schema, shapes: seq<Shape>, g: Engine, o: Owner): Engine
    requires |g.planners| == |shapes|
  {
    g.(world := P.ReconcileAll(sc, g.world, WrittenBy(shapes, o)),
       flights := g.flights - {o},
       planners := if g.draining then g.planners else Force(shapes, g.planners, o),
       batch := true,
       dirty := true,
       orphans := g.orphans - {o})
  }

  /** The world an accepted run leaves: its outputs replaced by diffing, its in-place writes reconciled. */
  function Published(sc: Schema, shapes: seq<Shape>, w: WorldState, phase: Option<Phase>, o: Owner, cs: seq<O.Command>,
                     previous: seq<(TypeId, Entity)>): WorldState
  {
    P.ReconcileAll(sc, O.Replace(sc, w, Kept(phase, cs), o, previous), WrittenBy(shapes, o))
  }

  function Accept(sc: Schema, shapes: seq<Shape>, g: Engine, o: Owner, cs: seq<O.Command>, previous: seq<(TypeId, Entity)>): Engine
    requires o in g.flights && |g.planners| == |shapes|
  {
    var w := Published(sc, shapes, g.world, g.phase, o, cs, previous);
    var entry := Refreshed(w, DepsAt(sc, shapes, g.flights[o], o), WrittenBy(shapes, o));
    var account := Reconciled(shapes, w, g.memo[o := entry], g.planners);
    g.(world := account.world, memo := account.memo, planners := account.planners, flights := g.flights - {o}, batch := true,
       dirty := g.dirty || CountersMoved(g.world, w), orphans := g.orphans - {o})
  }

  function Finish(sc: Schema, shapes: seq<Shape>, g: Engine, o: Owner, cs: seq<O.Command>, previous: seq<(TypeId, Entity)>): Engine
    requires o in g.flights && |g.planners| == |shapes|
  {
    if Fresh(sc, shapes, g.world, g.flights, o) then Accept(sc, shapes, g, o, cs, previous) else Discard(sc, shapes, g, o)
  }

  // ---- preemption, abandonment, compaction ----

  function AllReset(planners: seq<Planner>): (r: seq<Planner>)
    ensures |r| == |planners|
  {
    seq(|planners|, i requires 0 <= i < |planners| => ResetFull(planners[i]))
  }

  function WritersOnly(shapes: seq<Shape>, flights: Flights): Flights {
    map o | o in flights && A.Writes(AccessOf(shapes, o)) :: flights[o]
  }

  function AllCompacted(shapes: seq<Shape>, planners: seq<Planner>, w: WorldState): (r: seq<Planner>)
    requires |planners| == |shapes|
    ensures |r| == |planners|
  {
    seq(|planners|, i requires 0 <= i < |planners| => CompactLog(shapes[i], planners[i], w))
  }

  /** The driver's table becomes the bowl's, over whatever the bowl has by then. */
  function Delivered(g: Engine): Engine {
    g.(store := g.memo, memo := map[], running := false, orphans := g.orphans + Overwritten(g.store, g.memo))
  }

  /** The driver's table is gone; the planners are as they were. */
  function Lost(g: Engine): Engine {
    g.(memo := map[], running := false, orphans := g.orphans + g.memo.Keys)
  }

  /** A generation opens: it takes the table and accounts for what applying its inputs removed. */
  function Started(shapes: seq<Shape>, g: Engine, w: WorldState): Engine
    requires |g.planners| == |shapes|
  {
    var account := Reconciled(shapes, w, g.store, g.planners);
    g.(world := account.world, memo := account.memo, planners := account.planners, store := map[], running := true)
  }

  // ---- from outside the generation ----

  function Drifted(g: Engine, w: WorldState): Engine {
    g.(world := w, interfered := g.interfered || CountersMoved(g.world, w))
  }

  /** Evicts entries of the bowl's table and forces their rows back. */
  function Healed(shapes: seq<Shape>, g: Engine, owners: seq<Owner>): Engine
    requires |g.planners| == |shapes|
  {
    var retired := RetireOwners(shapes, g.store, g.planners, owners);
    g.(store := retired.memo, planners := retired.planners, interfered := g.interfered || retired.any)
  }

  // ---- a settle's hooks and phase ----

  /** The listed rows of one system that are not on record as they stand. */
  function Unrecorded(sc: Schema, snap: WorldState, sh: Shape, id: nat, memo: Memo, rows: seq<seq<Entity>>): set<Owner> {
    set row | row in rows && |row| == |sh.queries| && !MemoCurrent(sc, snap, sh, memo, Owner(id, row)) :: Owner(id, row)
  }

  /** Every row of the first `n` systems that belongs to the settle phase and is not memoized: no gate, hint or reservation. */
  function SettleOwners(sc: Schema, shapes: seq<Shape>, snap: WorldState, memo: Memo, n: nat): set<Owner>
    requires n <= |shapes| && forall i :: 0 <= i < |shapes| ==> shapes[i].Valid()
  {
    if n == 0 then {}
    else
      var sh := shapes[n - 1];
      SettleOwners(sc, shapes, snap, memo, n - 1) +
      if !sh.phase.Settle? then {} else Unrecorded(sc, snap, sh, n - 1, memo, States(snap, sh.queries))
  }

  function SettleFlights(sc: Schema, shapes: seq<Shape>, snap: WorldState, memo: Memo): Flights
    requires forall i :: 0 <= i < |shapes| ==> shapes[i].Valid()
  {
    map o | o in SettleOwners(sc, shapes, snap, memo, |shapes|) :: snap
  }

  function Taken(g: Engine, id: nat, hooks: bool): Engine {
    g.(tasks := g.tasks[id := Task(hooks, g.store, map[], false)], store := map[])
  }

  function Launched(sc: Schema, shapes: seq<Shape>, g: Engine, id: nat): Engine
    requires id in g.tasks && forall i :: 0 <= i < |shapes| ==> shapes[i].Valid()
  {
    var task := g.tasks[id];
    g.(cache := Some(Snapshot(g)),
       tasks := g.tasks[id := task.(flights := SettleFlights(sc, shapes, Snapshot(g), task.memo), launched := true)])
  }

  function Restored(g: Engine, id: nat): Engine
    requires id in g.tasks
  {
    g.(store := g.tasks[id].memo, tasks := g.tasks - {id}, orphans := g.orphans + Overwritten(g.store, g.tasks[id].memo))
  }

  /** A commit of a task: its table is the one brought up to date, and it asks the running phase for nothing. */
  function TaskCommits(shapes: seq<Shape>, g: Engine, id: nat, w: WorldState, memo: Memo, flights: Flights): Engine
    requires id in g.tasks && |g.planners| == |shapes|
  {
    var account := Reconciled(shapes, w, memo, g.planners);
    g.(world := account.world, planners := account.planners,
       tasks := g.tasks[id := g.tasks[id].(memo := account.memo, flights := flights)],
       interfered := g.interfered || CountersMoved(g.world, w))
  }

  function Cancelled(g: Engine, id: nat): Engine
    requires id in g.tasks
  {
    g.(tasks := g.tasks - {id}, orphans := g.orphans + g.tasks[id].memo.Keys)
  }

  /** A run of a settle phase comes back: inserts and spawns are held back, and a stale run is not forced back. */
  function SettleFinish(sc: Schema, shapes: seq<Shape>, g: Engine, id: nat, o: Owner, cs: seq<O.Command>, previous: seq<(TypeId, Entity)>): Engine
    requires id in g.tasks && o in g.tasks[id].flights && |g.planners| == |shapes|
  {
    var task := g.tasks[id];
    if Fresh(sc, shapes, g.world, task.flights, o) then
      var w := Published(sc, shapes, g.world, Some(Settle), o, cs, previous);
      var entry := Refreshed(w, DepsAt(sc, shapes, task.flights[o], o), WrittenBy(shapes, o));
      TaskCommits(shapes, g, id, w, task.memo[o := entry], task.flights - {o})
    else
      Drifted(g, P.ReconcileAll(sc, g.world, WrittenBy(shapes, o))).(tasks := g.tasks[id := task.(flights := task.flights - {o})])
  }

  /** A hook comes back: it has no keys, memo or reservation, and always commits. */
  function HookFinish(sc: Schema, shapes: seq<Shape>, g: Engine, id: nat, o: Owner, cs: seq<O.Command>, previous: seq<(TypeId, Entity)>): Engine
    requires id in g.tasks && |g.planners| == |shapes|
  {
    TaskCommits(shapes, g, id, O.Replace(sc, g.world, cs, o, previous), g.tasks[id].memo, g.tasks[id].flights)
  }

  // ---- steps ----

  /**
   `Move` is anything that is not a commit: an external update, an entity allocation, or a running writer poking at
   a shared cell. `Start` opens a generation with its inputs, held-back settle inserts included, already applied, and
   takes the table. `Quiet` finds no gate open and waits for running work; `Skip` settles for that when it is woken for a
   preemption nobody wants any more. `Publish` ends the generation and delivers its table. `Abandon` drops a driver whose
   guard delivers it; `Lose` drops one that has given the guard up, and the table goes with it. `Heal` evicts entries and
   forces their rows. A settle's hooks or phase `Take` the table, `Launch` and return runs,
   and `PutBack` the table, and hold no lock in between; `Cancel` drops them with the table.
   */
  datatype Event =
    | Move(w: WorldState)
    | Start(w: WorldState)
    | Compact
    | Enter(phase: Phase)
    | Quiet
    | Skip
    | BeginWave
    | PlanSystem
    | EndWave
    | Return(o: Owner, cs: seq<O.Command>, previous: seq<(TypeId, Entity)>)
    | EndBatch
    | Complete
    | Preempt
    | Restart
    | Publish
    | Abandon
    | Lose
    | Heal(owners: seq<Owner>)
    | Take(id: nat, hooks: bool)
    | Launch(id: nat)
    | SettleReturn(id: nat, o: Owner, cs: seq<O.Command>, previous: seq<(TypeId, Entity)>)
    | HookReturn(id: nat, o: Owner, cs: seq<O.Command>, previous: seq<(TypeId, Entity)>)
    | PutBack(id: nat)
    | Cancel(id: nat)

  /** What the step function needs to apply. */
  ghost predicate Fits(shapes: seq<Shape>, g: Engine, ev: Event) {
    && |g.planners| == |shapes| && Shaped(shapes, g.flights.Keys)
    && (forall i :: 0 <= i < |shapes| ==> shapes[i].Valid())
    && (ev.PlanSystem? ==> g.wave.Some? && g.wave.value.next < |shapes|)
    && (ev.Return? ==> ev.o in g.flights)
    && (ev.Launch? || ev.SettleReturn? || ev.HookReturn? || ev.PutBack? || ev.Cancel? ==> ev.id in g.tasks)
    && (ev.SettleReturn? ==> ev.o in g.tasks[ev.id].flights)
  }

  function Step(sc: Schema, shapes: seq<Shape>, g: Engine, ev: Event): Engine
    requires Fits(shapes, g, ev)
  {
    match ev
    case Move(w) => Drifted(g, w)
    case Start(w) => Started(shapes, g, w)
    case Compact => g.(world := Compacted(g.world), planners := AllCompacted(shapes, g.planners, g.world))
    case Enter(ph) => g.(phase := Some(ph), needsPlan := true, conflicts := false, batch := false, dirty := false, interfered := false)
    case Quiet => g.(conflicts := false)
    case Skip => g.(needsPlan := false, conflicts := false)
    case BeginWave =>
      g.(conflicts := false, cache := Some(Snapshot(g)), wave := Some(Wave(g.world, Snapshot(g), 0)))
    case PlanSystem => PlanNext(sc, shapes, g)
    case EndWave => g.(wave := None, needsPlan := false)
    case Return(o, cs, previous) => Finish(sc, shapes, g, o, cs, previous)
    case EndBatch => g.(needsPlan := g.needsPlan || g.dirty || g.conflicts, batch := false, dirty := false)
    case Complete => g.(phase := None)
    case Preempt => g.(flights := WritersOnly(shapes, g.flights), draining := true)
    case Restart => g.(planners := AllReset(g.planners), draining := false, phase := None, orphans := {})
    case Publish => Delivered(g)
    case Abandon =>
      Delivered(g.(flights := map[], wave := None, draining := false, phase := None)).(planners := AllReset(g.planners), orphans := {})
    case Lose => Lost(g)
    case Heal(owners) => Healed(shapes, g, owners)
    case Take(id, hooks) => Taken(g, id, hooks)
    case Launch(id) => Launched(sc, shapes, g, id)
    case SettleReturn(id, o, cs, previous) => SettleFinish(sc, shapes, g, id, o, cs, previous)
    case HookReturn(id, o, cs, previous) => HookFinish(sc, shapes, g, id, o, cs, previous)
    case PutBack(id) => Restored(g, id)
    case Cancel(id) => Cancelled(g, id)
  }

  /** The world moves on by itself without touching the lists of removed things. */
  ghost predicate Drifts(sc: Schema, w: WorldState, w': WorldState) {
    && Inv(sc, w', {}) && Evolves(sc, w, w')
    && w'.removedEntities == w.removedEntities
    && w'.removedOwners == w.removedOwners
    && w'.removedComponentOwners == w.removedComponentOwners
  }

  /** A settle takes the table for its hooks, or for its phase, only when there are any. */
  predicate HasSettleSystem(shapes: seq<Shape>) {
    exists i :: 0 <= i < |shapes| && shapes[i].phase.Settle?
  }

  ghost predicate Enabled(sc: Schema, shapes: seq<Shape>, g: Engine, ev: Event) {
    match ev
    case Move(w) => Drifts(sc, g.world, w)
    case Start(w) => !g.running && Inv(sc, w, {}) && Evolves(sc, g.world, w) && w.removedEntities == []
    case Compact => !g.running
    case Enter(ph) => g.running && g.phase.None? && !ph.Settle?
    case Quiet => Planning(g) && !AnyOpen(shapes, g)
    case Skip => Planning(g) && (!g.interfered ==> !AnyOpen(shapes, g))
    case BeginWave => Planning(g) && AnyOpen(shapes, g)
    case PlanSystem => g.wave.Some? && g.wave.value.next < |shapes|
    case EndWave => g.wave.Some? && g.wave.value.next >= |shapes|
    case Return(o, cs, previous) => g.wave.None? && o in g.flights && MayReturn(sc, g.world, g.phase, o, cs, previous)
    case EndBatch => g.batch && !g.draining
    case Complete =>
      && g.phase.Some? && g.wave.None? && !g.draining && !g.batch && g.flights == map[]
      && (g.needsPlan && !g.interfered ==> !AnyOpen(shapes, g))
    case Preempt => g.phase.Some? && g.wave.None? && !g.draining && !g.batch
    case Restart => g.draining && g.flights == map[]
    case Publish => g.running && g.phase.None?
    case Abandon => g.running
    case Lose => g.running && g.phase.None?
    case Heal(_) => true
    case Take(id, hooks) => id !in g.tasks && (!hooks ==> HasSettleSystem(shapes))
    case Launch(id) => id in g.tasks && !g.tasks[id].hooks && !g.tasks[id].launched
    case SettleReturn(id, o, cs, previous) =>
      id in g.tasks && o in g.tasks[id].flights && MayReturn(sc, g.world, Some(Settle), o, cs, previous)
    case HookReturn(id, o, cs, previous) =>
      id in g.tasks && g.tasks[id].hooks && o.keys == [] && MayReturn(sc, g.world, None, o, cs, previous)
    case PutBack(id) => id in g.tasks && (g.tasks[id].hooks || g.tasks[id].launched) && g.tasks[id].flights == map[]
    case Cancel(id) => id in g.tasks
  }

  ghost predicate MayReturn(sc: Schema, w: WorldState, phase: Option<Phase>, o: Owner, cs: seq<O.Command>, previous: seq<(TypeId, Entity)>) {
    O.Lists(previous, O.Outputs(w, o)) && O.LegalSteps(sc, O.Take(w, o), O.Reordered(sc, Kept(phase, cs)), o)
  }

  /** The loop has come round to its planning decision. */
  predicate Planning(g: Engine) {
    g.phase.Some? && g.needsPlan && g.wave.None? && !g.batch && !g.draining
  }
}
