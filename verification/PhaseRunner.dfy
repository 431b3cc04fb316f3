/** The evaluator's own loops, over the objects they update, proved to carry out the steps of the phase machine. */
module Running {
  import opened Ids
  import opened World
  import opened Queries
  import opened Joins
  import opened Hints
  import opened Planners
  import opened Coverage
  import opened Admission
  import opened Phases
  import opened PhaseProofs
  import opened OutsideSteps
  import opened LoopSteps
  import opened EngineRuns
  import opened TableHolders
  import opened NothingMissed
  import opened Walking
  import O = Output
  import P = InPlace
  import WS = WorldStore

  /** A set of outputs can be listed. */
  lemma {:induction false} SomeListing(s: set<(TypeId, Entity)>) returns (xs: seq<(TypeId, Entity)>)
    ensures O.Lists(xs, s)
    decreases |s|
  {
    xs := [];
    if s != {} {
      var p :| p in s;
      var rest := SomeListing(s - {p});
      xs := [p] + rest;
    }
  }

  /** What a settle-phase commit kept of a buffer it keeps again. */
  lemma {:induction false} KeptStays(phase: Option<Phase>, cs: seq<O.Command>, done: seq<O.Command>)
    requires |done| == |Kept(phase, cs)| && forall i :: 0 <= i < |done| ==> WS.SameCommand(Kept(phase, cs)[i], done[i])
    ensures Kept(phase, done) == done
    decreases |cs|
  {
    if phase == Some(Settle) && cs != [] {
      if cs[0].Put? {
        KeptStays(phase, cs[1..], done);
      } else {
        assert WS.SameCommand(Kept(phase, cs)[0], done[0]);
        assert Kept(phase, cs)[1..] == Kept(phase, cs[1..]);
        forall i | 0 <= i < |done[1..]| ensures WS.SameCommand(Kept(phase, cs[1..])[i], done[1..][i]) {
          assert WS.SameCommand(Kept(phase, cs)[i + 1], done[i + 1]);
        }
        KeptStays(phase, cs[1..], done[1..]);
      }
    }
  }

  lemma {:induction false} KeptIsWritable(sc: Schema, phase: Option<Phase>, cs: seq<O.Command>)
    requires forall i :: 0 <= i < |cs| ==> WS.Writable(sc, cs[i])
    ensures forall i :: 0 <= i < |Kept(phase, cs)| ==> WS.Writable(sc, Kept(phase, cs)[i])
  {
    if phase == Some(Settle) && cs != [] {
      assert forall i :: 0 <= i < |cs[1..]| ==> cs[1..][i] == cs[i + 1];
      KeptIsWritable(sc, phase, cs[1..]);
    }
  }

  ghost predicate AllValid(shapes: seq<Shape>) {
    forall i :: 0 <= i < |shapes| ==> shapes[i].Valid()
  }

  lemma OneMoreRow(sc: Schema, snap: WorldState, sh: Shape, id: nat, memo: Memo, rows: seq<seq<Entity>>, k: nat)
    requires k < |rows|
    ensures Unrecorded(sc, snap, sh, id, memo, rows[..k + 1])
            == Unrecorded(sc, snap, sh, id, memo, rows[..k])
               + if |rows[k]| == |sh.queries| && !MemoCurrent(sc, snap, sh, memo, Owner(id, rows[k])) then {Owner(id, rows[k])} else {}
  {
    assert rows[..k + 1] == rows[..k] + [rows[k]];
  }

  /** An accepted run on record, before what it removed is accounted for. */
  function Recorded(g: Engine, o: Owner, entry: seq<Dep>, moved: bool): Engine {
    g.(memo := g.memo[o := entry], flights := g.flights - {o}, batch := true, dirty := g.dirty || moved, orphans := g.orphans - {o})
  }

  class PhaseRunner {
    const shapes: seq<Shape>
    const world: WS.LiveWorld
    const systems: seq<BoxedSystem>
    var store: Memo
    var tasks: map<nat, Task>
    var running: bool
    var memo: Memo
    var flights: Flights
    var cache: Option<WorldState>
    var phase: Option<Phase>
    var wave: Option<Wave>
    var needsPlan: bool
    var deferredConflicts: bool
    var batch: bool
    var dirty: bool
    var draining: bool
    ghost var interfered: bool
    ghost var orphans: set<Owner>

    /** One distinct object per registered system. */
    ghost predicate Wired()
      reads world`pendingDerivedFrom
    {
      && |systems| == |shapes|
      && (forall i :: 0 <= i < |systems| ==> systems[i].shape == shapes[i])
      && (forall i, j :: 0 <= i < j < |systems| ==> systems[i] != systems[j])
      && world.pendingDerivedFrom == []
    }

    constructor (shapes: seq<Shape>, world: WS.LiveWorld, systems: seq<BoxedSystem>)
      requires |systems| == |shapes| && world.pendingDerivedFrom == []
      requires forall i :: 0 <= i < |systems| ==> systems[i].shape == shapes[i] && systems[i].State() == FRESH
      requires forall i, j :: 0 <= i < j < |systems| ==> systems[i] != systems[j]
      ensures Wired() && this.shapes == shapes && this.world == world && this.systems == systems
      ensures View() == Engine(world.State(), seq(|shapes|, _ => FRESH), map[], map[], false, map[], map[], None, None, None,
                               false, false, false, false, false, false, {})
    {
      this.shapes, this.world, this.systems := shapes, world, systems;
      store, tasks, running := map[], map[], false;
      memo, flights, cache, phase, wave := map[], map[], None, None, None;
      needsPlan, deferredConflicts, batch, dirty, draining, interfered, orphans := false, false, false, false, false, false, {};
      new;
      assert Planners() == seq(|shapes|, _ => FRESH);
    }

    ghost function Planners(): (ps: seq<Planner>)
      reads systems
      ensures |ps| == |systems| && forall i :: 0 <= i < |ps| ==> ps[i] == systems[i].State()
    {
      seq(|systems|, i requires 0 <= i < |systems| reads systems => systems[i].State())
    }

    /** The state of the phase machine these objects are in. */
    ghost function View(): Engine
      reads this, world, systems
    {
      Engine(world.State(), Planners(), store, tasks, running, memo, flights, cache, phase, wave, needsPlan, deferredConflicts, batch, dirty,
             draining, interfered, orphans)
    }

    // ---- the loop's own flags ----

    method EnterPhase(ph: Phase)
      modifies this`phase, this`needsPlan, this`deferredConflicts, this`batch, this`dirty, this`interfered
      ensures View() == old(View()).(phase := Some(ph), needsPlan := true, conflicts := false, batch := false, dirty := false, interfered := false)
    {
      CloseBatch();
      ghost var before := Planners();
      phase, needsPlan, deferredConflicts, interfered := Some(ph), true, false, false;
      assert Planners() == before;
    }

    /** Plan again if a commit changed the world, a run was stale, or a row waits behind a conflict. */
    method CloseBatch()
      modifies this`needsPlan, this`batch, this`dirty
      ensures View() == old(View()).(needsPlan := old(needsPlan) || old(dirty) || old(deferredConflicts), batch := false, dirty := false)
    {
      ghost var before := Planners();
      needsPlan := needsPlan || dirty || deferredConflicts;
      batch, dirty := false, false;
      assert Planners() == before;
    }

    /** Readers are dropped. */
    method CancelReaders()
      modifies this`flights, this`draining
      ensures View() == old(View()).(flights := WritersOnly(shapes, old(flights)), draining := true)
    {
      ghost var before := Planners();
      flights, draining := WritersOnly(shapes, flights), true;
      assert Planners() == before;
    }

    // ---- committing ----

    /** Forces one system's row back into planning. */
    method ForceSystem(o: Owner)
      requires Wired()
      modifies systems
      ensures Wired() && Planners() == Force(shapes, old(Planners()), o)
    {
      if o.system < |systems| {
        systems[o.system].Force(o.keys);
      }
      assert forall i :: 0 <= i < |systems| ==> Planners()[i] == Force(shapes, old(Planners()), o)[i];
    }

    /** `reconcile_removed_output_owners` over every system, in the table of whoever commits. */
    method RetireRemovedOwners(table: Memo, owners: seq<Owner>) returns (left: Memo, any: bool)
      requires Wired()
      modifies systems
      ensures Wired()
      ensures RetireOwners(shapes, table, old(Planners()), owners) == Retired(left, Planners(), any)
    {
      ghost var planners0 := Planners();
      left, any := table, false;
      var n := 0;
      while n < |owners|
        invariant 0 <= n <= |owners| && Wired()
        invariant var rest := RetireOwners(shapes, left, Planners(), owners[n..]);
          RetireOwners(shapes, table, planners0, owners) == rest.(any := any || rest.any)
      {
        var o := owners[n];
        assert owners[n..][0] == o && owners[n..][1..] == owners[n + 1..];
        if o in left {
          left := left - {o};
          ForceSystem(o);
          any := true;
        }
        n := n + 1;
      }
      assert owners[n..] == [];
    }

    /** Accounts for what a commit removed, and empties the world's lists. */
    method ReconcileRemoved(table: Memo) returns (left: Memo)
      requires Wired()
      modifies world, systems
      ensures Wired() && Account(world.State(), left, Planners()) == Reconciled(shapes, old(world.State()), table, old(Planners()))
    {
      left := ForgetRemoved(table);
      world.TakeRemoved();
    }

    method ForgetRemoved(table: Memo) returns (left: Memo)
      requires Wired()
      modifies systems
      ensures var r := RetireOwners(shapes, table, old(Planners()), world.removedComponentOwners);
        Planners() == r.planners && left == if r.any then r.memo else Forget(r.memo, world.removedEntities)
    {
      var any;
      left, any := RetireRemovedOwners(table, world.removedComponentOwners);
      if !any {
        left := Forget(left, world.removedEntities);
      }
    }

    /** The world side of an accepted run: replace its outputs, reconcile its writes. */
    method Publish(phase: Option<Phase>, o: Owner, cs: seq<O.Command>, writes: seq<(TypeId, Entity)>)
      returns (ghost done: seq<O.Command>, ghost order: seq<(TypeId, Entity)>)
      requires world.pendingDerivedFrom == [] && Inv(world.schema, world.State(), {}) && writes == WrittenBy(shapes, o)
      requires forall i :: 0 <= i < |cs| ==> WS.Writable(world.schema, cs[i])
      modifies world
      ensures world.pendingDerivedFrom == [] && O.Lists(order, O.Outputs(old(world.State()), o))
      ensures world.State() == Published(world.schema, shapes, old(world.State()), phase, o, done, order)
      ensures O.LegalSteps(world.schema, O.Take(old(world.State()), o), O.Reordered(world.schema, Kept(phase, done)), o)
    {
      var kept := Kept(phase, cs);
      KeptIsWritable(world.schema, phase, cs);
      done, order := world.ReplaceOutput(kept, o);
      KeptStays(phase, cs, done);
      world.ReconcileWritten(writes);
    }

    /** An accepted run: publish, record its dependencies, account for removals. */
    method AcceptRun(o: Owner, cs: seq<O.Command>, captured: seq<Dep>, writes: seq<(TypeId, Entity)>)
      returns (ghost done: seq<O.Command>, ghost order: seq<(TypeId, Entity)>)
      requires Wired() && o in flights && Inv(world.schema, world.State(), {})
      requires captured == DepsAt(world.schema, shapes, flights[o], o) && writes == WrittenBy(shapes, o)
      requires forall i :: 0 <= i < |cs| ==> WS.Writable(world.schema, cs[i])
      modifies this, world, systems
      ensures Wired() && View() == Accept(world.schema, shapes, old(View()), o, done, order)
      ensures O.Lists(order, O.Outputs(old(world.State()), o))
      ensures O.LegalSteps(world.schema, O.Take(old(world.State()), o), O.Reordered(world.schema, Kept(old(phase), done)), o)
    {
      done, order := PublishAndRecord(o, cs, captured, writes);
      memo := ReconcileRemoved(memo);
    }

    /** The accepted output and its bookkeeping, up to the removals it still has to account for. */
    method PublishAndRecord(o: Owner, cs: seq<O.Command>, captured: seq<Dep>, writes: seq<(TypeId, Entity)>)
      returns (ghost done: seq<O.Command>, ghost order: seq<(TypeId, Entity)>)
      requires Wired() && o in flights && Inv(world.schema, world.State(), {})
      requires captured == DepsAt(world.schema, shapes, flights[o], o) && writes == WrittenBy(shapes, o)
      requires forall i :: 0 <= i < |cs| ==> WS.Writable(world.schema, cs[i])
      modifies this`memo, this`flights, this`batch, this`dirty, this`orphans, world
      ensures Wired() && O.Lists(order, O.Outputs(old(world.State()), o))
      ensures world.State() == Published(world.schema, shapes, old(world.State()), phase, o, done, order)
      ensures O.LegalSteps(world.schema, O.Take(old(world.State()), o), O.Reordered(world.schema, Kept(phase, done)), o)
      ensures var entry := Refreshed(world.State(), captured, writes);
        View() == Recorded(old(View()).(world := world.State()), o, entry, CountersMoved(old(world.State()), world.State()))
    {
      var beforeRevision, beforeMutations := world.revision, world.mutations;
      done, order := Publish(phase, o, cs, writes);
      Record(o, Refreshed(world.State(), captured, writes), world.revision != beforeRevision || world.mutations != beforeMutations);
    }

    /** The bookkeeping between publication and retirement. */
    method Record(o: Owner, entry: seq<Dep>, moved: bool)
      modifies this`memo, this`flights, this`batch, this`dirty, this`orphans
      ensures View() == Recorded(old(View()), o, entry, moved)
    {
      HoldEntry(o, entry);
      EndFlight(o, moved);
    }

    method HoldEntry(o: Owner, entry: seq<Dep>)
      modifies this`memo
      ensures View() == old(View()).(memo := old(memo)[o := entry])
    {
      ghost var before := Planners();
      memo := memo[o := entry];
      assert Planners() == before;
    }

    /** A run that has come back is in flight no more, and waits to be accounted for by the loop. */
    method EndFlight(o: Owner, moved: bool)
      modifies this`flights, this`batch, this`dirty, this`orphans
      ensures View() == old(View()).(flights := old(flights) - {o}, batch := true, dirty := old(dirty) || moved, orphans := old(orphans) - {o})
    {
      ghost var before := Planners();
      flights, orphans := flights - {o}, orphans - {o};
      batch, dirty := true, dirty || moved;
      assert Planners() == before;
    }

    /** A stale run: its commands are dropped, its in-place writes reconciled, its row forced back. */
    method DiscardRun(o: Owner, writes: seq<(TypeId, Entity)>)
      requires Wired() && o in flights && writes == WrittenBy(shapes, o)
      modifies this, world, systems
      ensures Wired() && View() == Discard(world.schema, shapes, old(View()), o)
    {
      world.ReconcileWritten(writes);
      Forgo(o);
    }

    method Forgo(o: Owner)
      requires Wired()
      modifies this`flights, this`batch, this`dirty, this`orphans, systems
      ensures Wired() && Planners() == (if draining then old(Planners()) else Force(shapes, old(Planners()), o))
      ensures flights == old(flights) - {o} && orphans == old(orphans) - {o} && batch && dirty
    {
      if !draining {
        ForceSystem(o);
      }
      EndFlight(o, true);
    }

    /** `commit_system_run` and its caller's bookkeeping for one finished run. */
    method CommitRun(o: Owner, cs: seq<O.Command>) returns (ghost done: seq<O.Command>, ghost order: seq<(TypeId, Entity)>)
      requires Wired() && Inv(world.schema, world.State(), {}) && o in flights
      requires forall i :: 0 <= i < |cs| ==> WS.Writable(world.schema, cs[i])
      modifies this, world, systems
      ensures Wired() && View() == Finish(world.schema, shapes, old(View()), o, done, order)
      ensures O.Lists(order, O.Outputs(old(world.State()), o))
      ensures O.LegalSteps(world.schema, O.Take(old(world.State()), o), O.Reordered(world.schema, Kept(old(phase), done)), o)
    {
      var captured := DepsAt(world.schema, shapes, flights[o], o);
      var writes := WrittenBy(shapes, o);
      if AllCurrent(world.State(), captured) {
        done, order := AcceptRun(o, cs, captured, writes);
      } else {
        done := [];
        order := SomeListing(O.Outputs(world.State(), o));
        DiscardRun(o, writes);
      }
    }

    // ---- a settle's hooks and phase ----

    /** `mem::take(&mut state.memo)`, for the settle that calls itself `id`. */
    method TakeTable(id: nat, hooks: bool)
      requires Wired()
      modifies this`store, this`tasks
      ensures Wired() && View() == Taken(old(View()), id, hooks)
    {
      ghost var before := Planners();
      tasks, store := tasks[id := Task(hooks, store, map[], false)], map[];
      assert Planners() == before;
    }

    /** Launches every row of every settle system that the table taken does not have on record. */
    method LaunchRuns(id: nat)
      requires Wired() && id in tasks && AllValid(shapes)
      modifies this`cache, this`tasks
      ensures Wired() && View() == Launched(world.schema, shapes, old(View()), id)
    {
      var task := tasks[id];
      var snapshot := SnapshotLocked();
      var owners := UnrecordedOwners(snapshot, task.memo);
      HoldRuns(id, snapshot, owners);
    }

    method HoldRuns(id: nat, snapshot: WorldState, owners: set<Owner>)
      requires Wired() && id in tasks
      modifies this`tasks
      ensures View() == old(View()).(tasks := old(tasks)[id := old(tasks)[id].(flights := map o | o in owners :: snapshot, launched := true)])
    {
      ghost var before := Planners();
      tasks := tasks[id := tasks[id].(flights := map o | o in owners :: snapshot, launched := true)];
      assert Planners() == before;
    }

    method UnrecordedOwners(snapshot: WorldState, table: Memo) returns (owners: set<Owner>)
      requires AllValid(shapes)
      ensures owners == SettleOwners(world.schema, shapes, snapshot, table, |shapes|)
    {
      owners := {};
      var n := 0;
      while n < |shapes|
        invariant 0 <= n <= |shapes| && owners == SettleOwners(world.schema, shapes, snapshot, table, n)
      {
        if shapes[n].phase.Settle? {
          var rows := UnrecordedRows(n, snapshot, table);
          owners := owners + rows;
        }
        n := n + 1;
      }
    }

    method UnrecordedRows(n: nat, snapshot: WorldState, table: Memo) returns (owners: set<Owner>)
      requires n < |shapes| && shapes[n].Valid()
      ensures owners == Unrecorded(world.schema, snapshot, shapes[n], n, table, States(snapshot, shapes[n].queries))
    {
      var rows := States(snapshot, shapes[n].queries);
      owners := {};
      var k := 0;
      while k < |rows|
        invariant 0 <= k <= |rows| && owners == Unrecorded(world.schema, snapshot, shapes[n], n, table, rows[..k])
      {
        OneMoreRow(world.schema, snapshot, shapes[n], n, table, rows, k);
        if |rows[k]| == |shapes[n].queries| && !MemoCurrent(world.schema, snapshot, shapes[n], table, Owner(n, rows[k])) {
          owners := owners + {Owner(n, rows[k])};
        }
        k := k + 1;
      }
      assert rows[..k] == rows;
    }

    /** `commit_system_run` in the settle phase; nobody forces a stale run back. */
    method CommitSettled(id: nat, o: Owner, cs: seq<O.Command>) returns (ghost done: seq<O.Command>, ghost order: seq<(TypeId, Entity)>)
      requires Wired() && Inv(world.schema, world.State(), {}) && id in tasks && o in tasks[id].flights
      requires forall i :: 0 <= i < |cs| ==> WS.Writable(world.schema, cs[i])
      modifies this`tasks, this`interfered, world, systems
      ensures Wired() && View() == SettleFinish(world.schema, shapes, old(View()), id, o, done, order)
      ensures O.Lists(order, O.Outputs(old(world.State()), o))
      ensures O.LegalSteps(world.schema, O.Take(old(world.State()), o), O.Reordered(world.schema, Kept(Some(Settle), done)), o)
    {
      var captured := DepsAt(world.schema, shapes, tasks[id].flights[o], o);
      var writes := WrittenBy(shapes, o);
      if AllCurrent(world.State(), captured) {
        ghost var w;
        done, order, w := AcceptSettled(id, o, cs, captured, writes);
      } else {
        done := [];
        order := SomeListing(O.Outputs(world.State(), o));
        DiscardSettled(id, o, writes);
      }
    }

    method AcceptSettled(id: nat, o: Owner, cs: seq<O.Command>, captured: seq<Dep>, writes: seq<(TypeId, Entity)>)
      returns (ghost done: seq<O.Command>, ghost order: seq<(TypeId, Entity)>, ghost w: WorldState)
      requires Wired() && Inv(world.schema, world.State(), {}) && id in tasks && o in tasks[id].flights
      requires captured == DepsAt(world.schema, shapes, tasks[id].flights[o], o) && writes == WrittenBy(shapes, o)
      requires forall i :: 0 <= i < |cs| ==> WS.Writable(world.schema, cs[i])
      modifies this`tasks, this`interfered, world, systems
      ensures Wired() && O.Lists(order, O.Outputs(old(world.State()), o))
      ensures O.LegalSteps(world.schema, O.Take(old(world.State()), o), O.Reordered(world.schema, Kept(Some(Settle), done)), o)
      ensures w == Published(world.schema, shapes, old(world.State()), Some(Settle), o, done, order)
      ensures View() == TaskCommits(shapes, old(View()), id, w, old(tasks[id]).memo[o := Refreshed(w, captured, writes)], old(tasks[id]).flights - {o})
    {
      ghost var start := View();
      done, order := Publish(Some(Settle), o, cs, writes);
      w := world.State();
      CloseTask(id, tasks[id].memo[o := Refreshed(world.State(), captured, writes)], tasks[id].flights - {o}, start);
    }

    /** The end of every commit of a settle: its table is brought up to date with what was removed. */
    method CloseTask(id: nat, table: Memo, flights: Flights, ghost start: Engine)
      requires Wired() && id in tasks && View() == start.(world := world.State())
      modifies this`tasks, this`interfered, world, systems
      ensures Wired() && View() == TaskCommits(shapes, start, id, old(world.State()), table, flights)
    {
      NoteMove(start.world);
      var left := ReconcileRemoved(table);
      HoldTable(id, left, flights);
    }

    ghost method NoteMove(before: WorldState)
      modifies this`interfered
      ensures View() == old(View()).(interfered := old(interfered) || CountersMoved(before, world.State()))
    {
      ghost var planners := Planners();
      interfered := interfered || CountersMoved(before, world.State());
      assert Planners() == planners;
    }

    method HoldTable(id: nat, table: Memo, flights: Flights)
      requires id in tasks
      modifies this`tasks
      ensures View() == old(View()).(tasks := old(tasks)[id := old(tasks)[id].(memo := table, flights := flights)])
    {
      ghost var planners := Planners();
      tasks := tasks[id := tasks[id].(memo := table, flights := flights)];
      assert Planners() == planners;
    }

    method DiscardSettled(id: nat, o: Owner, writes: seq<(TypeId, Entity)>)
      requires Wired() && id in tasks && o in tasks[id].flights && writes == WrittenBy(shapes, o)
      modifies this`tasks, this`interfered, world
      ensures Wired()
      ensures View() == Drifted(old(View()), P.ReconcileAll(world.schema, old(world.State()), writes))
                          .(tasks := old(tasks)[id := old(tasks[id]).(flights := old(tasks[id]).flights - {o})])
    {
      ghost var start := world.State();
      world.ReconcileWritten(writes);
      NoteMove(start);
      HoldTable(id, tasks[id].memo, tasks[id].flights - {o});
    }

    /** A settled hook's output: it always applies, and leaves no entry. */
    method CommitHook(id: nat, o: Owner, cs: seq<O.Command>) returns (ghost done: seq<O.Command>, ghost order: seq<(TypeId, Entity)>)
      requires Wired() && Inv(world.schema, world.State(), {}) && id in tasks
      requires forall i :: 0 <= i < |cs| ==> WS.Writable(world.schema, cs[i])
      modifies this`tasks, this`interfered, world, systems
      ensures Wired() && View() == HookFinish(world.schema, shapes, old(View()), id, o, done, order)
      ensures O.Lists(order, O.Outputs(old(world.State()), o))
      ensures O.LegalSteps(world.schema, O.Take(old(world.State()), o), O.Reordered(world.schema, done), o)
    {
      ghost var start := View();
      done, order := world.ReplaceOutput(cs, o);
      CloseTask(id, tasks[id].memo, tasks[id].flights, start);
    }

    /** `state.memo = memo`, over whatever is there by then. */
    method PutTableBack(id: nat)
      requires Wired() && id in tasks
      modifies this`store, this`tasks, this`orphans
      ensures Wired() && View() == Restored(old(View()), id)
    {
      ghost var before := Planners();
      orphans := orphans + Overwritten(store, tasks[id].memo);
      store, tasks := tasks[id].memo, tasks - {id};
      assert Planners() == before;
    }

    /** The healing pass: entries found stale are evicted from the bowl's table and their rows forced back. */
    method HealRows(owners: seq<Owner>)
      requires Wired()
      modifies this`store, this`interfered, systems
      ensures Wired() && View() == Healed(shapes, old(View()), owners)
    {
      var any;
      store, any := RetireRemovedOwners(store, owners);
      interfered := interfered || any;
    }

    /** An external mutation of a live component, which waits for nobody. */
    method Mutate(t: TypeId, e: Entity, v: Value)
      requires Wired()
      modifies this`interfered, world
      ensures Wired() && View() == Drifted(old(View()), P.Update(world.schema, old(world.State()), t, e, v))
    {
      ghost var start := world.State();
      var changed := world.UpdateComponentLive(t, e, v);
      NoteMove(start);
    }

    // ---- planning ----

    /** The cached snapshot while its key still matches, else a fresh one, which replaces it. */
    method SnapshotLocked() returns (snapshot: WorldState)
      requires Wired()
      modifies this`cache
      ensures snapshot == Snapshot(old(View())) && cache == Some(snapshot)
      ensures var c, w := old(cache), old(world.State());
        snapshot == if c.Some? && c.value.next == w.next && c.value.revision == w.revision && c.value.mutations == w.mutations then c.value else w
    {
      if cache.Some? && SnapshotKey(cache.value) == SnapshotKey(world.State()) {
        return cache.value;
      }
      snapshot := world.State();
      cache := Some(snapshot);
    }

    /** Admission of one system's planned rows: memoized, already running, deferred behind a conflict, or started. */
    method AdmitPlanned(id: nat, snapshot: WorldState, rows: seq<seq<Entity>>)
      requires Wired() && id < |shapes| && RowsFit(shapes, id, rows) && Shaped(shapes, flights.Keys)
      modifies this`flights, this`deferredConflicts, systems[id]
      ensures Wired() && Shaped(shapes, flights.Keys)
      ensures Admitting(systems[id].State(), flights, deferredConflicts)
              == AdmitRows(world.schema, shapes, id, snapshot, memo, rows, Admitting(old(systems[id].State()), old(flights), old(deferredConflicts)))
    {
      ghost var start := Admitting(systems[id].State(), flights, deferredConflicts);
      var n := 0;
      while n < |rows|
        invariant 0 <= n <= |rows| && Wired() && Shaped(shapes, flights.Keys) && RowsFit(shapes, id, rows[n..])
        invariant AdmitRows(world.schema, shapes, id, snapshot, memo, rows[n..], Admitting(systems[id].State(), flights, deferredConflicts))
                  == AdmitRows(world.schema, shapes, id, snapshot, memo, rows, start)
      {
        var row := rows[n];
        var o := Owner(id, row);
        assert rows[n..][0] == row && rows[n..][1..] == rows[n + 1..];
        if MemoCurrent(world.schema, snapshot, shapes[id], memo, o) || o in flights {
        } else if Refused(shapes, flights, o) {
          systems[id].Force(row);
          deferredConflicts := true;
        } else {
          flights := flights[o := snapshot];
        }
        n := n + 1;
      }
      assert rows[n..] == [];
    }

    /** Plans the wave's next system, if it is of the phase and its gate is open in the snapshot. */
    method PlanSystem() returns (ghost done: Option<Admitting>)
      requires Wired() && wave.Some? && wave.value.next < |shapes| && Shaped(shapes, flights.Keys)
      requires shapes[wave.value.next].Valid()
      modifies this`wave, this`flights, this`deferredConflicts, systems
      ensures View() == Passed(old(View()), done) && done == Outcome(world.schema, shapes, old(View()))
    {
      ghost var start := View();
      done := PlanNext();
      PassTurn(start, done);
    }

    /** The planning half of a turn: every other system keeps its planner. */
    method PlanNext() returns (ghost done: Option<Admitting>)
      requires Wired() && wave.Some? && wave.value.next < |shapes| && Shaped(shapes, flights.Keys)
      requires shapes[wave.value.next].Valid()
      modifies this`flights, this`deferredConflicts, systems
      ensures Wired() && done == Outcome(world.schema, shapes, old(View()))
      ensures Planners() == Passed(old(View()), done).planners
      ensures flights == if done.Some? then done.value.flights else old(flights)
      ensures deferredConflicts == if done.Some? then done.value.conflicts else old(deferredConflicts)
    {
      ghost var start := View();
      var i := wave.value.next;
      done := PlanTurn(i);
      PlannersAfter(start, i, done);
    }

    method PassTurn(ghost start: Engine, ghost done: Option<Admitting>)
      requires Wired() && start.wave.Some? && start.wave.value.next < |start.planners| == |systems|
      requires Planners() == Passed(start, done).planners
      requires View() == start.(planners := Planners(), flights := flights, conflicts := deferredConflicts)
      requires flights == if done.Some? then done.value.flights else start.flights
      requires deferredConflicts == if done.Some? then done.value.conflicts else start.conflicts
      modifies this`wave
      ensures View() == Passed(start, done)
    {
      wave := Some(wave.value.(next := wave.value.next + 1));
    }

    method PlanTurn(i: nat) returns (ghost done: Option<Admitting>)
      requires Wired() && i < |shapes| && shapes[i].Valid() && Shaped(shapes, flights.Keys)
      requires wave.Some? && wave.value.next == i
      modifies this`flights, this`deferredConflicts, systems[i]
      ensures done == Outcome(world.schema, shapes, old(View()))
      ensures systems[i].State() == if done.Some? then done.value.p else old(systems[i].State())
      ensures flights == if done.Some? then done.value.flights else old(flights)
      ensures deferredConflicts == if done.Some? then done.value.conflicts else old(deferredConflicts)
    {
      ghost var start := View();
      var open := OpenInPhase(i, wave.value.snap);
      done := None;
      if open {
        ghost var admitted := PlanOpen(i, wave.value.snap, wave.value.base, start);
        done := Some(admitted);
      }
    }

    /** Whether the system is to be planned now; if so its mark advances. */
    method OpenInPhase(i: nat, snapshot: WorldState) returns (open: bool)
      requires Wired() && i < |shapes|
      modifies systems[i]
      ensures open == Gate(shapes, old(View()), i, snapshot)
      ensures systems[i].State() == if open then Marked(shapes[i], old(systems[i].State()), snapshot) else old(systems[i].State())
    {
      open := false;
      if phase == Some(shapes[i].phase) {
        open := systems[i].NeedsPlanning(snapshot);
      }
    }

    lemma PlannersAfter(start: Engine, i: nat, done: Option<Admitting>)
      requires i < |systems| == |start.planners| && start.wave.Some? && start.wave.value.next == i
      requires systems[i].State() == if done.Some? then done.value.p else start.planners[i]
      requires forall j :: 0 <= j < |systems| && j != i ==> systems[j].State() == start.planners[j]
      ensures Planners() == Passed(start, done).planners
    {}

    /** One open system: take its hint, enumerate, admit. */
    method PlanOpen(i: nat, snapshot: WorldState, base: WorldState, ghost start: Engine) returns (ghost done: Admitting)
      requires Wired() && i < |shapes| && shapes[i].Valid() && Shaped(shapes, flights.Keys)
      requires start.wave == Some(Wave(base, snapshot, i)) && |start.planners| == |shapes|
      requires start.memo == memo && start.flights == flights && start.conflicts == deferredConflicts
      requires systems[i].State() == Marked(shapes[i], start.planners[i], snapshot)
      modifies this`flights, this`deferredConflicts, systems[i]
      ensures Wired() && Admitting(systems[i].State(), flights, deferredConflicts) == done
      ensures done == Turn(world.schema, shapes, start)
    {
      ghost var p := systems[i].State();
      var hint := systems[i].TakeHint(base);
      var rows := if hint.None? then States(snapshot, shapes[i].queries) else StatesHinted(world.schema, snapshot, shapes[i].queries, hint.value);
      assert rows == PlannedRows(world.schema, shapes[i], p, Wave(base, snapshot, i));
      PlannedRowsFit(world.schema, shapes, i, p, Wave(base, snapshot, i));
      AdmitPlanned(i, snapshot, rows);
      done := Admitting(systems[i].State(), flights, deferredConflicts);
    }

    /**
     One planning wave over every system, begun because some gate of the phase is open. `trail` holds the states of
     the phase machine it passes through.
     */
    method PlanWave() returns (ghost trail: seq<Engine>)
      requires Wired() && Ok(world.schema, shapes, View()) && Enabled(world.schema, shapes, View(), BeginWave)
      modifies this`wave, this`flights, this`deferredConflicts, this`cache, this`needsPlan, systems
      ensures Wired() && WaveTrail(world.schema, shapes, trail)
      ensures trail[0] == Begun(old(View())) && View() == trail[|shapes|].(wave := None, needsPlan := false)
    {
      AllShaped(world.schema, shapes, View());
      OpenWave();
      trail := TakeTurns();
      EndWave();
    }

    /** Every system in turn. */
    method TakeTurns() returns (ghost trail: seq<Engine>)
      requires Wired() && AllValid(shapes) && Shaped(shapes, flights.Keys) && wave.Some? && wave.value.next == 0
      modifies this`wave, this`flights, this`deferredConflicts, systems
      ensures WaveTrail(world.schema, shapes, trail) && trail[0] == old(View()) && View() == trail[|shapes|]
    {
      trail := [View()];
      while wave.value.next < |shapes|
        invariant Shaped(shapes, flights.Keys) && wave.Some? && wave.value.next <= |shapes| && |trail| == wave.value.next + 1
        invariant trail[0] == old(View()) && trail[|trail| - 1] == View()
        invariant Trail(world.schema, shapes, trail)
        decreases |shapes| - wave.value.next
      {
        trail := TakeTurn(trail);
      }
    }

    method TakeTurn(ghost trail: seq<Engine>) returns (ghost longer: seq<Engine>)
      requires Wired() && wave.Some? && wave.value.next < |shapes| && Shaped(shapes, flights.Keys)
      requires shapes[wave.value.next].Valid()
      requires trail != [] && trail[|trail| - 1] == View() && Trail(world.schema, shapes, trail)
      modifies this`wave, this`flights, this`deferredConflicts, systems
      ensures longer == trail + [View()] && Trail(world.schema, shapes, longer)
      ensures Shaped(shapes, flights.Keys) && wave == Some(old(wave).value.(next := old(wave).value.next + 1))
    {
      ghost var before := View();
      ghost var done := PlanSystem();
      TrailNext(world.schema, shapes, trail, before, done);
      PassedFrame(before, done);
      longer := trail + [View()];
    }

    method OpenWave()
      requires Wired()
      modifies this`wave, this`deferredConflicts, this`cache
      ensures Wired() && View() == Begun(old(View()))
    {
      deferredConflicts := false;
      var snapshot := SnapshotLocked();
      wave := Some(Wave(world.State(), snapshot, 0));
    }

    method EndWave()
      requires Wired()
      modifies this`wave, this`needsPlan
      ensures Wired() && View() == old(View()).(wave := None, needsPlan := false)
    {
      wave := None;
      needsPlan := false;
    }
  }

  // ---- a whole wave ----

  lemma AllShaped(sc: Schema, shapes: seq<Shape>, g: Engine)
    requires Ok(sc, shapes, g)
    ensures AllValid(shapes) && Shaped(shapes, g.flights.Keys)
  {}

  function Begun(g: Engine): Engine {
    g.(conflicts := false, cache := Some(Snapshot(g)), wave := Some(Wave(g.world, Snapshot(g), 0)))
  }

  /** One turn of a wave; all but the last conjunct say that the next system can be planned. */
  ghost predicate Succeeds(sc: Schema, shapes: seq<Shape>, g: Engine, h: Engine) {
    && g.wave.Some? && g.wave.value.next < |shapes| == |g.planners| && Shaped(shapes, g.flights.Keys)
    && shapes[g.wave.value.next].Valid()
    && h == Passed(g, Outcome(sc, shapes, g))
  }

  ghost predicate Trail(sc: Schema, shapes: seq<Shape>, trail: seq<Engine>) {
    forall k :: 0 <= k < |trail| - 1 ==> Succeeds(sc, shapes, trail[k], trail[k + 1])
  }

  lemma TrailNext(sc: Schema, shapes: seq<Shape>, trail: seq<Engine>, g: Engine, done: Option<Admitting>)
    requires Trail(sc, shapes, trail) && trail != [] && trail[|trail| - 1] == g
    requires g.wave.Some? && g.wave.value.next < |shapes| == |g.planners| && Shaped(shapes, g.flights.Keys)
    requires shapes[g.wave.value.next].Valid() && done == Outcome(sc, shapes, g)
    ensures Trail(sc, shapes, trail + [Passed(g, done)]) && Shaped(shapes, Passed(g, done).flights.Keys)
  {
    var longer := trail + [Passed(g, done)];
    assert Succeeds(sc, shapes, g, Passed(g, done));
    forall k | 0 <= k < |longer| - 1 ensures Succeeds(sc, shapes, longer[k], longer[k + 1]) {
      if k < |trail| - 1 { assert Succeeds(sc, shapes, trail[k], trail[k + 1]); }
    }
  }

  /** The states of one wave, from its beginning until every system has had its turn. */
  ghost predicate WaveTrail(sc: Schema, shapes: seq<Shape>, trail: seq<Engine>) {
    |trail| == |shapes| + 1 && Trail(sc, shapes, trail)
  }

  lemma PlanSystemStep(sc: Schema, shapes: seq<Shape>, g: Engine)
    requires g.wave.Some? && g.wave.value.next < |shapes| == |g.planners| && Shaped(shapes, g.flights.Keys)
    requires forall i :: 0 <= i < |shapes| ==> shapes[i].Valid()
    ensures Enabled(sc, shapes, g, PlanSystem)
    ensures Step(sc, shapes, g, PlanSystem) == Passed(g, Outcome(sc, shapes, g))
  {}

  lemma TurnIsStep(sc: Schema, shapes: seq<Shape>, g: Engine, h: Engine)
    requires Ok(sc, shapes, g) && Succeeds(sc, shapes, g, h)
    ensures Takes(sc, shapes, g, PlanSystem, h)
  {
    PlanSystemStep(sc, shapes, g);
  }

  lemma TurnKeeps(sc: Schema, shapes: seq<Shape>, g: Engine, h: Engine)
    requires Ok(sc, shapes, g) && Succeeds(sc, shapes, g, h)
    ensures g.flights.Keys <= h.flights.Keys && h.wave == Some(g.wave.value.(next := g.wave.value.next + 1))
    ensures h.world == g.world && h.memo == g.memo && h.interfered == g.interfered
  {
    TurnConflicts(sc, shapes, g);
    PassedFrame(g, Outcome(sc, shapes, g));
  }

  /** A wave begun in a state that keeps the invariant is a run of planning steps: every state on the way keeps it. */
  lemma TrailKeepsOk(sc: Schema, shapes: seq<Shape>, trail: seq<Engine>, k: nat)
    requires WaveTrail(sc, shapes, trail) && k <= |shapes| && Ok(sc, shapes, trail[0])
    requires trail[0].wave.Some? && trail[0].wave.value.next == 0
    ensures Ok(sc, shapes, trail[k]) && trail[k].wave.Some? && trail[k].wave.value.next == k
    ensures trail[0].flights.Keys <= trail[k].flights.Keys
    ensures trail[k].world == trail[0].world && trail[k].memo == trail[0].memo && trail[k].interfered == trail[0].interfered
  {
    var sound := TrailSound(sc, shapes, trail);
    forall n: nat | n < |shapes| && sound(n) ensures sound(n + 1) { TrailTurn(sc, shapes, trail, n); }
    Climbs(sound, |shapes|, k);
  }

  ghost function TrailSound(sc: Schema, shapes: seq<Shape>, trail: seq<Engine>): nat -> bool {
    (k: nat) => && k < |trail| && Ok(sc, shapes, trail[k]) && trail[k].wave.Some? && trail[k].wave.value.next == k
                && trail[0].flights.Keys <= trail[k].flights.Keys
                && trail[k].world == trail[0].world && trail[k].memo == trail[0].memo && trail[k].interfered == trail[0].interfered
  }

  lemma TrailTurn(sc: Schema, shapes: seq<Shape>, trail: seq<Engine>, k: nat)
    requires WaveTrail(sc, shapes, trail) && k < |shapes| && Ok(sc, shapes, trail[k])
    requires trail[k].wave.Some? && trail[k].wave.value.next == k
    ensures Ok(sc, shapes, trail[k + 1]) && trail[k + 1].wave.Some? && trail[k + 1].wave.value.next == k + 1
    ensures trail[k].flights.Keys <= trail[k + 1].flights.Keys
    ensures trail[k + 1].world == trail[k].world && trail[k + 1].memo == trail[k].memo && trail[k + 1].interfered == trail[k].interfered
  {
    assert Succeeds(sc, shapes, trail[k], trail[k + 1]);
    TurnKeeps(sc, shapes, trail[k], trail[k + 1]);
    TurnKeepsOk(sc, shapes, trail[k], trail[k + 1]);
  }

  lemma TurnKeepsOk(sc: Schema, shapes: seq<Shape>, g: Engine, h: Engine)
    requires Ok(sc, shapes, g) && Succeeds(sc, shapes, g, h)
    ensures Ok(sc, shapes, h)
  {
    PlanSystemIsSafe(sc, shapes, g);
    PlanSystemIsGated(sc, shapes, g);
  }

  /**
   After a whole wave nothing is missed and no run has been forgotten; unless something interfered, every gate of the
   phase is shut, or a row was put back behind a conflict.
   */
  lemma WaveShutsGates(sc: Schema, shapes: seq<Shape>, g: Engine, trail: seq<Engine>)
    requires Ok(sc, shapes, g) && Enabled(sc, shapes, g, BeginWave)
    requires WaveTrail(sc, shapes, trail) && trail[0] == Begun(g)
    ensures var h := trail[|shapes|].(wave := None, needsPlan := false);
      && Ok(sc, shapes, h) && OnlyOrphansAreMissed(sc, shapes, h)
      && h.world == g.world && h.memo == g.memo && g.flights.Keys <= h.flights.Keys
      && (!g.interfered && AnyOpen(shapes, h) ==> h.conflicts)
  {
    var h := trail[|shapes|].(wave := None, needsPlan := false);
    WholeWaveKeepsOk(sc, shapes, g, trail);
    OkMissesOnlyOrphans(sc, shapes, h);
    if !g.interfered && AnyOpen(shapes, h) { PlannedGatesAreShut(sc, shapes, h); }
  }

  lemma WholeWaveKeepsOk(sc: Schema, shapes: seq<Shape>, g: Engine, trail: seq<Engine>)
    requires Ok(sc, shapes, g) && Enabled(sc, shapes, g, BeginWave)
    requires WaveTrail(sc, shapes, trail) && trail[0] == Begun(g)
    ensures var h := trail[|shapes|].(wave := None, needsPlan := false);
      && Ok(sc, shapes, h) && !h.draining && !h.dirty && h.interfered == g.interfered
      && h.world == g.world && h.memo == g.memo && g.flights.Keys <= h.flights.Keys
  {
    var done := trail[|shapes|];
    BeginWaveKeepsOk(sc, shapes, g);
    assert Begun(g) == Step(sc, shapes, g, BeginWave);
    TrailKeepsOk(sc, shapes, trail, |shapes|);
    assert done.wave.Some? && done.wave.value.next >= |shapes|;
    EndWaveKeepsOk(sc, shapes, done);
  }

  lemma PlannedGatesAreShut(sc: Schema, shapes: seq<Shape>, h: Engine)
    requires Ok(sc, shapes, h) && h.wave.None? && !h.draining && !h.needsPlan && !h.interfered
    requires !h.dirty && AnyOpen(shapes, h)
    ensures h.conflicts
  {
    var i :| 0 <= i < |shapes| && Gate(shapes, h, i, h.world);
  }

  /** A finished run committed by the object is an enabled step of the machine, and keeps its invariant. */
  lemma CommitIsStep(sc: Schema, shapes: seq<Shape>, g: Engine, o: Owner, done: seq<O.Command>, order: seq<(TypeId, Entity)>)
    requires Ok(sc, shapes, g) && g.wave.None? && o in g.flights
    requires O.Lists(order, O.Outputs(g.world, o)) && O.LegalSteps(sc, O.Take(g.world, o), O.Reordered(sc, Kept(g.phase, done)), o)
    ensures Takes(sc, shapes, g, Return(o, done, order), Finish(sc, shapes, g, o, done, order))
    ensures Ok(sc, shapes, Finish(sc, shapes, g, o, done, order))
  {
    ReturnTaken(sc, shapes, g, o, done, order);
    ReturnKeepsOk(sc, shapes, g, o, done, order);
  }

  lemma ReturnTaken(sc: Schema, shapes: seq<Shape>, g: Engine, o: Owner, done: seq<O.Command>, order: seq<(TypeId, Entity)>)
    requires Fits(shapes, g, Return(o, done, order)) && g.wave.None? && MayReturn(sc, g.world, g.phase, o, done, order)
    ensures Takes(sc, shapes, g, Return(o, done, order), Finish(sc, shapes, g, o, done, order))
  {
    assert Enabled(sc, shapes, g, Return(o, done, order));
    ReturnStep(sc, shapes, g, o, done, order);
  }

  lemma ReturnStep(sc: Schema, shapes: seq<Shape>, g: Engine, o: Owner, done: seq<O.Command>, order: seq<(TypeId, Entity)>)
    requires Fits(shapes, g, Return(o, done, order))
    ensures Step(sc, shapes, g, Return(o, done, order)) == Finish(sc, shapes, g, o, done, order)
  {
    var ev, h := Return(o, done, order), Finish(sc, shapes, g, o, done, order);
    assert Step(sc, shapes, g, ev) == h;
  }
}
