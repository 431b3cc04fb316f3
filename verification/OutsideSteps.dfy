/** The invariant in parts, and the steps that are not the generation's own: each keeps it. */
module OutsideSteps {
  import opened Ids
  import opened World
  import opened Queries
  import opened Joins
  import opened Planners
  import opened Coverage
  import opened Admission
  import opened Phases
  import opened RemovedLists
  import opened PhaseProofs
  import opened CommitProofs
  import O = Output
  import P = InPlace

  // ---- what a step leaves alone ----

  /** What a finished run leaves alone. */
  lemma FinishFrame(sc: Schema, shapes: seq<Shape>, g: Engine, o: Owner, cs: seq<O.Command>, previous: seq<(TypeId, Entity)>)
    requires |g.planners| == |shapes| && o in g.flights
    ensures var h := Finish(sc, shapes, g, o, cs, previous);
      h == g.(world := h.world, memo := h.memo, planners := h.planners, flights := g.flights - {o}, batch := true, dirty := h.dirty,
              orphans := g.orphans - {o})
  {
    if Fresh(sc, shapes, g.world, g.flights, o) { AcceptFrame(sc, shapes, g, o, cs, previous); } else { DiscardFrame(sc, shapes, g, o); }
  }

  lemma AcceptFrame(sc: Schema, shapes: seq<Shape>, g: Engine, o: Owner, cs: seq<O.Command>, previous: seq<(TypeId, Entity)>)
    requires |g.planners| == |shapes| && o in g.flights
    ensures var h := Accept(sc, shapes, g, o, cs, previous);
      h == g.(world := h.world, memo := h.memo, planners := h.planners, flights := g.flights - {o}, batch := true, dirty := h.dirty,
              orphans := g.orphans - {o})
  {}

  lemma DiscardFrame(sc: Schema, shapes: seq<Shape>, g: Engine, o: Owner)
    requires |g.planners| == |shapes| && o in g.flights
    ensures var h := Discard(sc, shapes, g, o);
      h == g.(world := h.world, memo := h.memo, planners := h.planners, flights := g.flights - {o}, batch := true, dirty := h.dirty,
              orphans := g.orphans - {o})
  {}

  lemma TaskCommitFrame(shapes: seq<Shape>, g: Engine, id: nat, w: WorldState, memo: Memo, flights: Flights)
    requires id in g.tasks && |g.planners| == |shapes|
    ensures var h := TaskCommits(shapes, g, id, w, memo, flights);
      id in h.tasks && h == g.(world := h.world, planners := h.planners, tasks := g.tasks[id := h.tasks[id]], interfered := h.interfered)
  {}

  lemma SettleFrame(sc: Schema, shapes: seq<Shape>, g: Engine, id: nat, o: Owner, cs: seq<O.Command>, previous: seq<(TypeId, Entity)>)
    requires |g.planners| == |shapes| && id in g.tasks && o in g.tasks[id].flights
    ensures var h := SettleFinish(sc, shapes, g, id, o, cs, previous);
      id in h.tasks && h == g.(world := h.world, planners := h.planners, tasks := g.tasks[id := h.tasks[id]], interfered := h.interfered)
  {
    var task := g.tasks[id];
    if Fresh(sc, shapes, g.world, task.flights, o) {
      var w := Published(sc, shapes, g.world, Some(Settle), o, cs, previous);
      var entry := Refreshed(w, DepsAt(sc, shapes, task.flights[o], o), WrittenBy(shapes, o));
      TaskCommitFrame(shapes, g, id, w, task.memo[o := entry], task.flights - {o});
    }
  }

  lemma {:induction false} NothingToRetire(shapes: seq<Shape>, planners: seq<Planner>, owners: seq<Owner>)
    requires |planners| == |shapes|
    ensures !RetireOwners(shapes, map[], planners, owners).any
    decreases |owners|
  {
    if owners != [] { NothingToRetire(shapes, planners, owners[1..]); }
  }

  lemma HealFrame(shapes: seq<Shape>, g: Engine, owners: seq<Owner>)
    requires |g.planners| == |shapes|
    ensures var h := Healed(shapes, g, owners);
      h == g.(store := h.store, planners := h.planners, interfered := h.interfered)
      && (g.store == map[] ==> h.store == map[] && h.interfered == g.interfered)
  {
    if g.store == map[] {
      RetireFrame(shapes, g.planners, g.store, owners);
      NothingToRetire(shapes, g.planners, owners);
    }
  }

  // ---- the invariant in parts ----

  /** A snapshot taken from the cache observes what the live world does. */
  lemma SnapshotIsCurrent(sc: Schema, shapes: seq<Shape>, g: Engine)
    requires Grounded(sc, shapes, g)
    ensures Inv(sc, Snapshot(g), {}) && SameObservations(Snapshot(g), g.world)
    ensures Follows(Snapshot(g), g.world)
  {}

  lemma {:induction false} ReconcileKeepsLists(sc: Schema, w: WorldState, writes: seq<(TypeId, Entity)>)
    ensures var w' := P.ReconcileAll(sc, w, writes);
      && w'.removedEntities == w.removedEntities && w'.removedOwners == w.removedOwners
      && w'.removedComponentOwners == w.removedComponentOwners
    decreases |writes|
  {
    if writes != [] { ReconcileKeepsLists(sc, P.Reconcile(sc, w, writes[0].0, writes[0].1), writes[1..]); }
  }

  ghost predicate CoveredAll(sc: Schema, shapes: seq<Shape>, w: WorldState, planners: seq<Planner>, known: Known, inflight: set<Owner>)
    requires |planners| == |shapes| && forall i :: 0 <= i < |shapes| ==> shapes[i].Valid()
  {
    forall i :: 0 <= i < |shapes| ==> Covered(sc, w, w, i, shapes[i], planners[i], known, inflight)
  }

  lemma ViewsAreWorld(sc: Schema, shapes: seq<Shape>, g: Engine)
    requires Grounded(sc, shapes, g) && g.wave.None?
    ensures Safe(sc, shapes, g) <==>
              ConsistentAll(shapes, g.world, g.planners)
              && (!g.draining ==> CoveredAll(sc, shapes, g.world, g.planners, OnRecord(g), Excused(g)))
  {
    forall i | 0 <= i < |shapes| ensures ViewOf(g, i) == g.world {}
    if Safe(sc, shapes, g) {
      forall i | 0 <= i < |shapes|
        ensures Consistent(shapes[i], g.planners[i], g.world)
        ensures !g.draining ==> Covered(sc, g.world, g.world, i, shapes[i], g.planners[i], OnRecord(g), Excused(g))
      {
        assert ViewOf(g, i) == g.world;
      }
    }
  }

  /** Outside a wave the invariant is its parts, stated in the live world. */
  lemma OkFromParts(sc: Schema, shapes: seq<Shape>, g: Engine)
    requires Grounded(sc, shapes, g) && g.wave.None? && Gated(shapes, g) && ConsistentAll(shapes, g.world, g.planners)
    requires !g.draining ==> CoveredAll(sc, shapes, g.world, g.planners, OnRecord(g), Excused(g))
    ensures Ok(sc, shapes, g)
  {
    ViewsAreWorld(sc, shapes, g);
  }

  /** Every system is consistent with the live world, and covered in it. */
  ghost predicate Level(sc: Schema, shapes: seq<Shape>, g: Engine)
    requires |g.planners| == |shapes| && forall i :: 0 <= i < |shapes| ==> shapes[i].Valid()
  {
    ConsistentAll(shapes, g.world, g.planners) && CoveredAll(sc, shapes, g.world, g.planners, OnRecord(g), Excused(g))
  }

  lemma OkHasParts(sc: Schema, shapes: seq<Shape>, g: Engine)
    requires Ok(sc, shapes, g) && g.wave.None?
    ensures Grounded(sc, shapes, g) && ConsistentAll(shapes, g.world, g.planners)
    ensures !g.draining ==> CoveredAll(sc, shapes, g.world, g.planners, OnRecord(g), Excused(g))
  {
    ViewsAreWorld(sc, shapes, g);
  }

  /** A state between phases with no finished runs to account for has no gate to answer for. */
  lemma RestIsGated(shapes: seq<Shape>, h: Engine)
    requires h.phase.None? && h.wave.None? && (h.dirty ==> h.batch)
    ensures Gated(shapes, h)
  {}

  // ---- steps from outside the generation ----

  /** One system of an engine, whatever its view: its cursor is consistent, and it is covered unless readers are being dropped. */
  ghost predicate SafeAt(sc: Schema, shapes: seq<Shape>, g: Engine, i: nat)
    requires i < |shapes| == |g.planners| && shapes[i].Valid()
  {
    && Consistent(shapes[i], g.planners[i], ViewOf(g, i))
    && (!g.draining ==> Covered(sc, ViewOf(g, i), g.world, i, shapes[i], g.planners[i], OnRecord(g), Excused(g)))
  }

  /** `h` is `g` after a step that is not the generation's own: it leaves the loop, its runs and its table alone. */
  ghost predicate Apart(g: Engine, h: Engine) {
    && h == g.(world := h.world, planners := h.planners, store := h.store, tasks := h.tasks, cache := h.cache,
               interfered := h.interfered, orphans := h.orphans)
    && g.orphans <= h.orphans
  }

  /** Unless it interferes, such a step changes nothing a gate looks at. */
  ghost predicate LeavesAlone(g: Engine, h: Engine) {
    && Apart(g, h) && |h.planners| == |g.planners| && (g.interfered ==> h.interfered)
    && (!h.interfered ==> h.planners == g.planners && SameObservations(g.world, h.world) && !CountersMoved(g.world, h.world))
  }

  lemma ApartIsGated(shapes: seq<Shape>, g: Engine, h: Engine)
    requires Gated(shapes, g) && LeavesAlone(g, h)
    ensures Gated(shapes, h)
  {
    if !h.interfered {
      forall i | 0 <= i < |shapes| && Gate(shapes, h, i, h.world) ensures Gate(shapes, g, i, g.world) {
        GateUnmoved(shapes[i], g.planners[i], g.world, h.world);
      }
    }
  }

  lemma ViewEvolves(sc: Schema, shapes: seq<Shape>, g: Engine, i: nat)
    requires Inv(sc, g.world, {}) && (g.wave.Some? ==> WaveOk(sc, shapes, g.wave.value, g.world))
    ensures Viewing(sc, g, i)
  {
    EvolvesReflexive(sc, g.world);
  }

  /** A system's view and the live world it has led to. */
  ghost predicate Viewing(sc: Schema, g: Engine, i: nat) {
    Inv(sc, g.world, {}) && Inv(sc, ViewOf(g, i), {}) && Evolves(sc, ViewOf(g, i), g.world)
  }

  lemma OkIsSafeAt(sc: Schema, shapes: seq<Shape>, g: Engine, i: nat)
    requires Ok(sc, shapes, g) && i < |shapes|
    ensures SafeAt(sc, shapes, g, i) && Viewing(sc, g, i)
  {
    ViewEvolves(sc, shapes, g, i);
  }

  /** The invariant is its parts, system by system. */
  lemma OkFromSystems(sc: Schema, shapes: seq<Shape>, h: Engine)
    requires Grounded(sc, shapes, h) && (h.wave.Some? ==> WaveOk(sc, shapes, h.wave.value, h.world)) && Gated(shapes, h)
    requires forall i :: 0 <= i < |shapes| ==> SafeAt(sc, shapes, h, i)
    ensures Ok(sc, shapes, h)
  {
    forall i | 0 <= i < |shapes|
      ensures Consistent(shapes[i], h.planners[i], ViewOf(h, i))
      ensures !h.draining ==> Covered(sc, ViewOf(h, i), h.world, i, shapes[i], h.planners[i], OnRecord(h), Excused(h))
    {
      assert SafeAt(sc, shapes, h, i);
    }
  }

  lemma ApartIsGrounded(sc: Schema, shapes: seq<Shape>, g: Engine, h: Engine)
    requires Grounded(sc, shapes, g) && Apart(g, h) && |h.planners| == |shapes| && SettleFresh(shapes, h.planners) && TablesFit(shapes, h)
    requires Inv(sc, h.world, {}) && Nothing(h.world)
    requires h.cache.Some? ==> Inv(sc, h.cache.value, {}) && Follows(h.cache.value, h.world)
    ensures Grounded(sc, shapes, h)
  {}

  /** No removal waits to be accounted for. */
  predicate Nothing(w: WorldState) {
    w.removedEntities == [] && w.removedOwners == [] && w.removedComponentOwners == []
  }

  lemma WaveLater(sc: Schema, shapes: seq<Shape>, wave: Wave, w: WorldState, w': WorldState)
    requires WaveOk(sc, shapes, wave, w) && Inv(sc, w, {}) && Evolves(sc, w, w')
    ensures WaveOk(sc, shapes, wave, w')
  {
    EvolvesTransitive(sc, wave.base, w, w');
  }

  /** Tables changed hands, or their entries went; the world and the planners stayed. */
  lemma TablesMoveKeepsOk(sc: Schema, shapes: seq<Shape>, g: Engine, h: Engine)
    requires Ok(sc, shapes, g) && Apart(g, h) && h.world == g.world && h.planners == g.planners && h.interfered == g.interfered
    requires TablesFit(shapes, h) && (h.cache.Some? ==> Inv(sc, h.cache.value, {}) && Follows(h.cache.value, h.world))
    requires forall o, d :: (o, d) in OnRecord(g) ==> (o, d) in OnRecord(h) || o in h.orphans
    ensures Ok(sc, shapes, h)
  {
    forall i | 0 <= i < |shapes| ensures SafeAt(sc, shapes, h, i) {
      assert ViewOf(h, i) == ViewOf(g, i);
      OkIsSafeAt(sc, shapes, g, i);
      if !g.draining {
        MoreCovers(sc, ViewOf(g, i), g.world, i, shapes[i], g.planners[i], OnRecord(g), Excused(g), OnRecord(h), Excused(h));
      }
    }
    SameIsSame(g.world);
    ApartIsGated(shapes, g, h);
    ApartIsGrounded(sc, shapes, g, h);
    OkFromSystems(sc, shapes, h);
  }

  lemma SameIsSame(w: WorldState)
    ensures SameObservations(w, w)
  {}

  lemma TaskRecordsAre(tasks: map<nat, Task>, id: nat, task: Task)
    ensures TaskRecords(tasks[id := task]) == TaskRecords(tasks - {id}) + Records(task.memo)
    ensures id in tasks ==> TaskRecords(tasks) == TaskRecords(tasks - {id}) + Records(tasks[id].memo)
    ensures id !in tasks ==> tasks - {id} == tasks
    ensures tasks[id := task] - {id} == tasks - {id}
  {
    TaskRecordsSplit(tasks[id := task], id);
    assert tasks[id := task] - {id} == tasks - {id};
    if id in tasks { TaskRecordsSplit(tasks, id); }
  }

  lemma TaskRecordsSplit(tasks: map<nat, Task>, id: nat)
    requires id in tasks
    ensures TaskRecords(tasks) == TaskRecords(tasks - {id}) + Records(tasks[id].memo)
  {
    forall r ensures r in TaskRecords(tasks) <==> r in TaskRecords(tasks - {id}) + Records(tasks[id].memo) {
      if r in TaskRecords(tasks) {
        var n :| n in tasks && r in Records(tasks[n].memo);
        if n != id { assert n in tasks - {id} && r in Records((tasks - {id})[n].memo); }
      }
      if r in TaskRecords(tasks - {id}) {
        var n :| n in tasks - {id} && r in Records((tasks - {id})[n].memo);
        assert n in tasks && r in Records(tasks[n].memo);
      }
    }
  }

  lemma OverwrittenCovers(before: Memo, after: Memo)
    ensures forall o, d :: (o, d) in Records(before) ==> (o, d) in Records(after) || o in Overwritten(before, after)
  {}

  lemma TakeKeepsOk(sc: Schema, shapes: seq<Shape>, g: Engine, id: nat, hooks: bool)
    requires Ok(sc, shapes, g) && id !in g.tasks
    ensures Ok(sc, shapes, Taken(g, id, hooks))
  {
    var h := Taken(g, id, hooks);
    TaskRecordsAre(g.tasks, id, Task(hooks, g.store, map[], false));
    assert OnRecord(h) == OnRecord(g);
    TakenFits(shapes, g, id, hooks);
    TablesMoveKeepsOk(sc, shapes, g, h);
  }

  lemma TakenFits(shapes: seq<Shape>, g: Engine, id: nat, hooks: bool)
    requires TablesFit(shapes, g)
    ensures TablesFit(shapes, Taken(g, id, hooks))
  {
    var h := Taken(g, id, hooks);
    forall n | n in h.tasks ensures TaskFits(shapes, h.tasks[n]) {
      if n != id { assert TaskFits(shapes, g.tasks[n]); }
    }
  }

  /** Putting a table back orphans exactly the entries it lacks of the one it replaces. */
  lemma PutBackKeepsOk(sc: Schema, shapes: seq<Shape>, g: Engine, id: nat)
    requires Ok(sc, shapes, g) && id in g.tasks
    ensures Ok(sc, shapes, Restored(g, id))
  {
    TaskRecordsAre(g.tasks, id, g.tasks[id]);
    OverwrittenCovers(g.store, g.tasks[id].memo);
    TablesMoveKeepsOk(sc, shapes, g, Restored(g, id));
  }

  lemma CancelKeepsOk(sc: Schema, shapes: seq<Shape>, g: Engine, id: nat)
    requires Ok(sc, shapes, g) && id in g.tasks
    ensures Ok(sc, shapes, Cancelled(g, id))
  {
    TaskRecordsAre(g.tasks, id, g.tasks[id]);
    TablesMoveKeepsOk(sc, shapes, g, Cancelled(g, id));
  }

  lemma {:induction false} SettleOwnersAre(sc: Schema, shapes: seq<Shape>, snap: WorldState, memo: Memo, n: nat)
    requires n <= |shapes| && forall i :: 0 <= i < |shapes| ==> shapes[i].Valid()
    ensures forall o :: o in SettleOwners(sc, shapes, snap, memo, n) ==>
              o.system < n && |o.keys| == |shapes[o.system].queries| && shapes[o.system].phase.Settle?
  {
    if n > 0 { SettleOwnersAre(sc, shapes, snap, memo, n - 1); }
  }

  /** Launching a settle phase: every row not on record in its own table, whatever anyone else has in flight. */
  lemma LaunchKeepsOk(sc: Schema, shapes: seq<Shape>, g: Engine, id: nat)
    requires Ok(sc, shapes, g) && id in g.tasks
    ensures Ok(sc, shapes, Launched(sc, shapes, g, id))
  {
    var h := Launched(sc, shapes, g, id);
    SnapshotIsCurrent(sc, shapes, g);
    LaunchedFits(sc, shapes, g, id);
    TaskRecordsAre(g.tasks, id, h.tasks[id]);
    assert OnRecord(h) == OnRecord(g);
    TablesMoveKeepsOk(sc, shapes, g, h);
  }

  lemma LaunchedFits(sc: Schema, shapes: seq<Shape>, g: Engine, id: nat)
    requires TablesFit(shapes, g) && id in g.tasks && forall i :: 0 <= i < |shapes| ==> shapes[i].Valid()
    ensures TablesFit(shapes, Launched(sc, shapes, g, id))
  {
    var h := Launched(sc, shapes, g, id);
    SettleOwnersAre(sc, shapes, Snapshot(g), g.tasks[id].memo, |shapes|);
    forall n | n in h.tasks ensures TaskFits(shapes, h.tasks[n]) { assert TaskFits(shapes, g.tasks[n]); }
  }

  lemma HealKeepsOk(sc: Schema, shapes: seq<Shape>, g: Engine, owners: seq<Owner>)
    requires Ok(sc, shapes, g)
    ensures Ok(sc, shapes, Healed(shapes, g, owners))
  {
    var h := Healed(shapes, g, owners);
    RetireFrame(shapes, g.planners, g.store, owners);
    forall i | 0 <= i < |shapes| ensures SafeAt(sc, shapes, h, i) {
      OkIsSafeAt(sc, shapes, g, i);
      HealedIsSafe(sc, shapes, g, owners, i);
    }
    SameIsSame(g.world);
    ApartIsGated(shapes, g, h);
    ApartIsGrounded(sc, shapes, g, h);
    OkFromSystems(sc, shapes, h);
  }

  lemma HealedIsSafe(sc: Schema, shapes: seq<Shape>, g: Engine, owners: seq<Owner>, i: nat)
    requires i < |shapes| == |g.planners| && shapes[i].Valid() && SafeAt(sc, shapes, g, i) && Shaped(shapes, g.store.Keys)
    ensures SafeAt(sc, shapes, Healed(shapes, g, owners), i)
  {
    var h, v := Healed(shapes, g, owners), ViewOf(g, i);
    var rest := TaskRecords(g.tasks) + Records(g.memo);
    RetireFrame(shapes, g.planners, g.store, owners);
    assert OnRecord(g) == rest + Records(g.store);
    if !g.draining { RetireCovers(sc, shapes, v, g.world, i, g.planners, g.store, rest, Excused(g), owners); }
    assert OnRecord(h) == rest + Records(h.store);
    StillSafe(sc, shapes, g, h, i);
  }

  lemma StillSafe(sc: Schema, shapes: seq<Shape>, g: Engine, h: Engine, i: nat)
    requires i < |shapes| == |h.planners| && shapes[i].Valid() && h.wave == g.wave && h.draining == g.draining && h.world == g.world
    requires Consistent(shapes[i], h.planners[i], ViewOf(g, i))
    requires !g.draining ==> Covered(sc, ViewOf(g, i), h.world, i, shapes[i], h.planners[i], OnRecord(h), Excused(h))
    ensures SafeAt(sc, shapes, h, i)
  {}

  // ---- the world drifts ----

  /** The world has moved on to `w`; where a view was the live world it catches up. */
  lemma MovedIsSafe(sc: Schema, shapes: seq<Shape>, g: Engine, h: Engine, i: nat)
    requires i < |shapes| == |g.planners| && shapes[i].Valid() && SafeAt(sc, shapes, g, i) && Viewing(sc, g, i)
    requires h == g.(world := h.world, interfered := h.interfered) && Inv(sc, h.world, {}) && Evolves(sc, g.world, h.world)
    ensures SafeAt(sc, shapes, h, i)
  {
    var v := ViewOf(g, i);
    if !g.draining { MovesAhead(sc, v, g.world, h.world, i, shapes[i], g.planners[i], OnRecord(g), Excused(g)); }
    CaughtUpIsSafe(sc, shapes, g, h, i);
  }

  lemma MoveKeepsOk(sc: Schema, shapes: seq<Shape>, g: Engine, w: WorldState)
    requires Ok(sc, shapes, g) && Drifts(sc, g.world, w)
    ensures Ok(sc, shapes, Drifted(g, w))
  {
    var h := Drifted(g, w);
    if g.cache.Some? { FollowsLater(sc, g.cache.value, g.world, w); }
    if g.wave.Some? { WaveLater(sc, shapes, g.wave.value, g.world, w); }
    forall i | 0 <= i < |shapes| ensures SafeAt(sc, shapes, h, i) {
      OkIsSafeAt(sc, shapes, g, i);
      MovedIsSafe(sc, shapes, g, h, i);
    }
    ApartIsGated(shapes, g, h);
    ApartIsGrounded(sc, shapes, g, h);
    OkFromSystems(sc, shapes, h);
  }

  // ---- a task commits ----

  /** Settle systems are never planned by a wave, so every row of theirs is due in any view. */
  lemma SettleCovers(sc: Schema, v: WorldState, w: WorldState, id: nat, sh: Shape, p: Planner, known: Known, inflight: set<Owner>)
    requires sh.Valid() && p.mark.None? && p.epoch.None?
    ensures Covered(sc, v, w, id, sh, p, known, inflight)
  {}

  /** What is on record but for one task's table. */
  function Besides(g: Engine, id: nat): Known {
    Records(g.store) + TaskRecords(g.tasks - {id}) + Records(g.memo)
  }

  /** A task's commit, seen by one system in the view it had before: the world has moved, and what was removed is accounted for. */
  lemma TaskCommitCovers(sc: Schema, shapes: seq<Shape>, g: Engine, id: nat, w: WorldState, memo: Memo, i: nat)
    requires i < |shapes| == |g.planners| && shapes[i].Valid() && SafeAt(sc, shapes, g, i) && Viewing(sc, g, i)
    requires id in g.tasks && Shaped(shapes, memo.Keys) && !g.draining && SettleFresh(shapes, g.planners)
    requires Inv(sc, w, {}) && Evolves(sc, g.world, w) && Renewed(g.world, w) && KeepsOthers(shapes, g.tasks[id].memo, memo)
    ensures var a := Reconciled(shapes, w, memo, g.planners);
      Covered(sc, ViewOf(g, i), a.world, i, shapes[i], a.planners[i], Besides(g, id) + Records(a.memo), Excused(g))
  {
    var v, rest := ViewOf(g, i), Besides(g, id);
    if shapes[i].phase.Settle? {
      var a := Reconciled(shapes, w, memo, g.planners);
      ReconciledFrame(sc, shapes, w, memo, g.planners);
      SettleCovers(sc, v, a.world, i, shapes[i], a.planners[i], rest + Records(a.memo), Excused(g));
    } else {
      EvolvesTransitive(sc, v, g.world, w);
      TaskRecordsAre(g.tasks, id, g.tasks[id]);
      assert OnRecord(g) == rest + Records(g.tasks[id].memo);
      MoreCovers(sc, v, g.world, i, shapes[i], g.planners[i], OnRecord(g), Excused(g), rest + Records(memo), Excused(g));
      MovesAhead(sc, v, g.world, w, i, shapes[i], g.planners[i], rest + Records(memo), Excused(g));
      ReconciledCovers(sc, shapes, v, g.world, w, i, g.planners, memo, rest, Excused(g));
    }
  }

  /** The new table keeps what the old one had on record of any but settle systems. */
  ghost predicate KeepsOthers(shapes: seq<Shape>, before: Memo, after: Memo) {
    forall o, d :: (o, d) in Records(before) && !(o.system < |shapes| && shapes[o.system].phase.Settle?) ==> (o, d) in Records(after)
  }

  lemma TaskCommitIsSafe(sc: Schema, shapes: seq<Shape>, g: Engine, id: nat, w: WorldState, memo: Memo, flights: Flights, i: nat)
    requires i < |shapes| == |g.planners| && shapes[i].Valid() && SafeAt(sc, shapes, g, i) && Viewing(sc, g, i)
    requires id in g.tasks && Shaped(shapes, memo.Keys) && SettleFresh(shapes, g.planners)
    requires Inv(sc, w, {}) && Evolves(sc, g.world, w) && Renewed(g.world, w) && KeepsOthers(shapes, g.tasks[id].memo, memo)
    ensures SafeAt(sc, shapes, TaskCommits(shapes, g, id, w, memo, flights), i)
  {
    var h, a := TaskCommits(shapes, g, id, w, memo, flights), Reconciled(shapes, w, memo, g.planners);
    if !g.draining { TaskCommitCovers(sc, shapes, g, id, w, memo, i); }
    ReconciledFrame(sc, shapes, w, memo, g.planners);
    EvolvesTransitive(sc, g.world, w, a.world);
    TaskCommitRecords(shapes, g, id, w, memo, flights);
    CaughtUpIsSafe(sc, shapes, g, h, i);
  }

  lemma TaskCommitRecords(shapes: seq<Shape>, g: Engine, id: nat, w: WorldState, memo: Memo, flights: Flights)
    requires id in g.tasks && |g.planners| == |shapes|
    ensures OnRecord(TaskCommits(shapes, g, id, w, memo, flights)) == Besides(g, id) + Records(Reconciled(shapes, w, memo, g.planners).memo)
  {
    TaskRecordsAre(g.tasks, id, TaskCommits(shapes, g, id, w, memo, flights).tasks[id]);
  }

  /** A system covered in the view it had is safe afterwards: behind the wave's turn as it was, and otherwise in the live world. */
  lemma CaughtUpIsSafe(sc: Schema, shapes: seq<Shape>, g: Engine, h: Engine, i: nat)
    requires i < |shapes| == |h.planners| && shapes[i].Valid() && h.wave == g.wave && h.draining == g.draining
    requires Inv(sc, g.world, {}) && Evolves(sc, g.world, h.world) && Consistent(shapes[i], h.planners[i], ViewOf(g, i))
    requires !g.draining ==> Covered(sc, ViewOf(g, i), h.world, i, shapes[i], h.planners[i], OnRecord(h), Excused(h))
    ensures SafeAt(sc, shapes, h, i)
  {
    if !(g.wave.Some? && g.wave.value.next <= i) {
      ConsistentLater(sc, shapes[i], h.planners[i], g.world, h.world);
      if !g.draining { CatchesUp(sc, g.world, h.world, i, shapes[i], h.planners[i], OnRecord(h), Excused(h)); }
    }
  }

  lemma TaskCommitKeepsOk(sc: Schema, shapes: seq<Shape>, g: Engine, id: nat, w: WorldState, memo: Memo, flights: Flights)
    requires Ok(sc, shapes, g) && id in g.tasks && Shaped(shapes, memo.Keys) && (forall o :: o in flights ==> o in g.tasks[id].flights)
    requires Inv(sc, w, {}) && Evolves(sc, g.world, w) && Tracks(g.world, w)
    requires KeepsOthers(shapes, g.tasks[id].memo, memo)
    ensures Ok(sc, shapes, TaskCommits(shapes, g, id, w, memo, flights))
  {
    var h := TaskCommits(shapes, g, id, w, memo, flights);
    forall i | 0 <= i < |shapes| ensures SafeAt(sc, shapes, h, i) {
      OkIsSafeAt(sc, shapes, g, i);
      TaskCommitIsSafe(sc, shapes, g, id, w, memo, flights, i);
    }
    TaskCommitIsGrounded(sc, shapes, g, id, w, memo, flights);
    TaskCommitAlone(sc, shapes, g, id, w, memo, flights);
    ApartIsGated(shapes, g, h);
    OkFromSystems(sc, shapes, h);
  }

  /** Unless its commit interferes, a task leaves every gate as it was. */
  lemma TaskCommitAlone(sc: Schema, shapes: seq<Shape>, g: Engine, id: nat, w: WorldState, memo: Memo, flights: Flights)
    requires id in g.tasks && |g.planners| == |shapes| && g.world.removedComponentOwners == []
    requires Inv(sc, w, {}) && Evolves(sc, g.world, w) && Tracks(g.world, w)
    ensures LeavesAlone(g, TaskCommits(shapes, g, id, w, memo, flights))
  {
    var h := TaskCommits(shapes, g, id, w, memo, flights);
    ReconciledFrame(sc, shapes, w, memo, g.planners);
    if !h.interfered {
      assert w.removedComponentOwners == [];
      forall t, e: Entity ensures Rev(g.world, t, e) == Rev(h.world, t, e) { assert Rev(g.world, t, e) == Rev(w, t, e); }
      forall t ensures Mark(g.world, t) == Mark(h.world, t) { assert Mark(g.world, t) == Mark(w, t); }
    }
  }

  lemma TaskCommitIsGrounded(sc: Schema, shapes: seq<Shape>, g: Engine, id: nat, w: WorldState, memo: Memo, flights: Flights)
    requires Ok(sc, shapes, g) && id in g.tasks && Shaped(shapes, memo.Keys) && (forall o :: o in flights ==> o in g.tasks[id].flights)
    requires Inv(sc, w, {}) && Evolves(sc, g.world, w)
    ensures var h := TaskCommits(shapes, g, id, w, memo, flights);
      Grounded(sc, shapes, h) && (h.wave.Some? ==> WaveOk(sc, shapes, h.wave.value, h.world))
  {
    var h := TaskCommits(shapes, g, id, w, memo, flights);
    ReconciledFrame(sc, shapes, w, memo, g.planners);
    EvolvesTransitive(sc, g.world, w, h.world);
    if g.cache.Some? { FollowsLater(sc, g.cache.value, g.world, h.world); }
    if g.wave.Some? { WaveLater(sc, shapes, g.wave.value, g.world, h.world); }
    TaskCommitFits(shapes, g, id, h);
    ApartIsGrounded(sc, shapes, g, h);
  }

  lemma TaskCommitFits(shapes: seq<Shape>, g: Engine, id: nat, h: Engine)
    requires TablesFit(shapes, g) && id in g.tasks && id in h.tasks && h.tasks == g.tasks[id := h.tasks[id]]
    requires h.store == g.store && h.memo == g.memo && h.flights == g.flights && Shaped(shapes, h.tasks[id].memo.Keys)
    requires forall o :: o in h.tasks[id].flights ==> o in g.tasks[id].flights
    ensures TablesFit(shapes, h)
  {
    forall n | n in h.tasks ensures TaskFits(shapes, h.tasks[n]) {
      assert TaskFits(shapes, g.tasks[n]);
    }
  }

  lemma SettleReturnKeepsOk(sc: Schema, shapes: seq<Shape>, g: Engine, id: nat, o: Owner, cs: seq<O.Command>, previous: seq<(TypeId, Entity)>)
    requires Ok(sc, shapes, g) && Enabled(sc, shapes, g, SettleReturn(id, o, cs, previous))
    ensures Ok(sc, shapes, SettleFinish(sc, shapes, g, id, o, cs, previous))
  {
    var task := g.tasks[id];
    if Fresh(sc, shapes, g.world, task.flights, o) {
      var w := Published(sc, shapes, g.world, Some(Settle), o, cs, previous);
      var entry := Refreshed(w, DepsAt(sc, shapes, task.flights[o], o), WrittenBy(shapes, o));
      PublishedEvolves(sc, shapes, g.world, Some(Settle), o, cs, previous);
      OtherRecordsStay(task.memo, o, entry);
      TaskCommitKeepsOk(sc, shapes, g, id, w, task.memo[o := entry], task.flights - {o});
    } else {
      StaleSettleKeepsOk(sc, shapes, g, id, o, cs, previous);
    }
  }

  lemma OtherRecordsStay(memo: Memo, o: Owner, entry: seq<Dep>)
    ensures forall p, d :: (p, d) in Records(memo) && p != o ==> (p, d) in Records(memo[o := entry])
  {}

  lemma StaleSettleKeepsOk(sc: Schema, shapes: seq<Shape>, g: Engine, id: nat, o: Owner, cs: seq<O.Command>, previous: seq<(TypeId, Entity)>)
    requires Ok(sc, shapes, g) && id in g.tasks && o in g.tasks[id].flights && !Fresh(sc, shapes, g.world, g.tasks[id].flights, o)
    ensures Ok(sc, shapes, SettleFinish(sc, shapes, g, id, o, cs, previous))
  {
    var w := P.ReconcileAll(sc, g.world, WrittenBy(shapes, o));
    P.ReconcileAllKeepsInv(sc, g.world, WrittenBy(shapes, o), {});
    ReconcileKeepsLists(sc, g.world, WrittenBy(shapes, o));
    MoveKeepsOk(sc, shapes, g, w);
    RunGivenUpKeepsOk(sc, shapes, Drifted(g, w), id, o);
  }

  lemma RunGivenUpKeepsOk(sc: Schema, shapes: seq<Shape>, g: Engine, id: nat, o: Owner)
    requires Ok(sc, shapes, g) && id in g.tasks
    ensures Ok(sc, shapes, g.(tasks := g.tasks[id := g.tasks[id].(flights := g.tasks[id].flights - {o})]))
  {
    var h := g.(tasks := g.tasks[id := g.tasks[id].(flights := g.tasks[id].flights - {o})]);
    TaskRecordsAre(g.tasks, id, h.tasks[id]);
    TaskCommitFits(shapes, g, id, h);
    TablesMoveKeepsOk(sc, shapes, g, h);
  }

  lemma HookReturnKeepsOk(sc: Schema, shapes: seq<Shape>, g: Engine, id: nat, o: Owner, cs: seq<O.Command>, previous: seq<(TypeId, Entity)>)
    requires Ok(sc, shapes, g) && id in g.tasks && MayReturn(sc, g.world, None, o, cs, previous)
    ensures Ok(sc, shapes, HookFinish(sc, shapes, g, id, o, cs, previous))
  {
    ReplacedEvolves(sc, g.world, None, o, cs, previous);
    assert Kept(None, cs) == cs;
    TaskCommitKeepsOk(sc, shapes, g, id, O.Replace(sc, g.world, cs, o, previous), g.tasks[id].memo, g.tasks[id].flights);
  }
}
