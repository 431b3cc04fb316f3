/** What becomes of a run that comes back: when it counts, what it leaves in the world, and what is on record afterwards. */
module Returns {
  import opened Ids
  import opened World
  import opened Queries
  import opened Joins
  import opened Planners
  import opened Coverage
  import opened Admission
  import opened Phases
  import opened PhaseProofs
  import opened CommitProofs
  import opened OutsideSteps
  import opened Reads
  import opened Exclusion
  import opened Reconciling
  import opened Emission
  import SO = StrayOutputs
  import O = Output
  import P = InPlace

  /** A run counts exactly when nothing its row reads or views has moved since its snapshot. */
  lemma FreshIffReadsStand(sc: Schema, shapes: seq<Shape>, w: WorldState, flights: Flights, o: Owner)
    requires o in flights && o.system < |shapes| && |o.keys| == |shapes[o.system].queries|
    ensures Fresh(sc, shapes, w, flights, o) <==> SameReads(sc, flights[o], w, shapes[o.system], o.keys)
  {
    CurrentIffReadsStand(sc, flights[o], w, shapes[o.system], o.keys);
  }

  /** The world a run's in-place writes are reconciled in: with its output published when it counts. */
  function Applied(sc: Schema, w: WorldState, phase: Option<Phase>, o: Owner, cs: seq<O.Command>, previous: seq<(TypeId, Entity)>, counts: bool): WorldState {
    if counts then O.Replace(sc, w, Kept(phase, cs), o, previous) else w
  }

  lemma AppliedHolds(sc: Schema, w: WorldState, phase: Option<Phase>, o: Owner, cs: seq<O.Command>, previous: seq<(TypeId, Entity)>, counts: bool)
    requires Inv(sc, w, {}) && MayReturn(sc, w, phase, o, cs, previous)
    ensures Inv(sc, Applied(sc, w, phase, o, cs, previous, counts), {})
  {
    if counts { O.ReplaceOwnsEmitted(sc, w, Kept(phase, cs), o, previous); }
  }

  /** What the row mutates is reconciled, and nothing else. */
  ghost predicate ReconciledAt(sc: Schema, base: WorldState, w: WorldState, sh: Shape, row: seq<Entity>, t: TypeId, e: Entity)
    requires |row| == |sh.queries|
  {
    if !Has(base, t, e) || !Mutates(sh, row, t, e) then Lookup(w, t, e) == Lookup(base, t, e)
    else
      && Has(w, t, e) && Lookup(w, t, e).value.value == Lookup(base, t, e).value.value && OwnerAt(w, t, e) == OwnerAt(base, t, e)
      && StampAt(w, t, e) == Lookup(base, t, e).value.value.stamp
      && (if Outdated(sc, base, t, e) then Rev(w, t, e).value > base.revision && Mark(w, t) > base.revision else Rev(w, t, e) == Rev(base, t, e))
  }

  ghost predicate Reconciles(sc: Schema, base: WorldState, w: WorldState, sh: Shape, row: seq<Entity>)
    requires |row| == |sh.queries|
  {
    forall t, e: Entity :: ReconciledAt(sc, base, w, sh, row, t, e)
  }

  lemma WritesReconcile(sc: Schema, shapes: seq<Shape>, base: WorldState, o: Owner)
    requires Inv(sc, base, {}) && o.system < |shapes| && |o.keys| == |shapes[o.system].queries|
    ensures Reconciles(sc, base, P.ReconcileAll(sc, base, WrittenBy(shapes, o)), shapes[o.system], o.keys)
  {
    var writes := WrittenBy(shapes, o);
    var w := P.ReconcileAll(sc, base, writes);
    WritersMutate(shapes, o);
    ReconcileAllReads(sc, base, writes);
    forall t, e: Entity ensures ReconciledAt(sc, base, w, shapes[o.system], o.keys, t, e) {
      assert Mended(sc, base, w, writes, t, e);
      assert (t, e) in writes <==> Mutates(shapes[o.system], o.keys, t, e);
    }
  }

  lemma DrainedReconciles(sc: Schema, base: WorldState, w: WorldState, sh: Shape, row: seq<Entity>)
    requires |row| == |sh.queries| && Reconciles(sc, base, w, sh, row)
    ensures Reconciles(sc, base, Drained(w), sh, row)
  {
    forall t, e: Entity ensures ReconciledAt(sc, base, Drained(w), sh, row, t, e) {
      assert ReconciledAt(sc, base, w, sh, row, t, e);
      assert Lookup(Drained(w), t, e) == Lookup(w, t, e) && Mark(Drained(w), t) == Mark(w, t);
    }
  }

  /**
   A run that comes back, fresh or stale, leaves what it mutates in place with its values' stamps, and past every earlier
   revision where that changed; a stale one publishes nothing else.
   */
  lemma ReturnReconciles(sc: Schema, shapes: seq<Shape>, g: Engine, o: Owner, cs: seq<O.Command>, previous: seq<(TypeId, Entity)>)
    requires Ok(sc, shapes, g) && o in g.flights && MayReturn(sc, g.world, g.phase, o, cs, previous)
    ensures var counts := SameReads(sc, g.flights[o], g.world, shapes[o.system], o.keys);
      Reconciles(sc, Applied(sc, g.world, g.phase, o, cs, previous, counts), Finish(sc, shapes, g, o, cs, previous).world, shapes[o.system], o.keys)
  {
    FreshIffReadsStand(sc, shapes, g.world, g.flights, o);
    var counts := Fresh(sc, shapes, g.world, g.flights, o);
    var base := Applied(sc, g.world, g.phase, o, cs, previous, counts);
    AppliedHolds(sc, g.world, g.phase, o, cs, previous, counts);
    WritesReconcile(sc, shapes, base, o);
    FinishWorld(sc, shapes, g, o, cs, previous);
    if counts { DrainedReconciles(sc, base, P.ReconcileAll(sc, base, WrittenBy(shapes, o)), shapes[o.system], o.keys); }
  }

  lemma FinishWorld(sc: Schema, shapes: seq<Shape>, g: Engine, o: Owner, cs: seq<O.Command>, previous: seq<(TypeId, Entity)>)
    requires o in g.flights && |g.planners| == |shapes|
    ensures var counts := Fresh(sc, shapes, g.world, g.flights, o);
      var w := P.ReconcileAll(sc, Applied(sc, g.world, g.phase, o, cs, previous, counts), WrittenBy(shapes, o));
      Finish(sc, shapes, g, o, cs, previous).world == if counts then Drained(w) else w
  {}

  // ---- what is on record afterwards ----

  /** The table after accounting for removals: what it forgets, and what it keeps. */
  lemma TableAfterRemovals(shapes: seq<Shape>, w: WorldState, memo: Memo, planners: seq<Planner>, o: Owner)
    requires |planners| == |shapes|
    ensures var left := Reconciled(shapes, w, memo, planners).memo;
      && (o in left <==>
            && o in memo && o !in w.removedComponentOwners
            && (KeyedBy(o, w.removedEntities) ==> exists p :: p in w.removedComponentOwners && p in memo))
      && (o in left ==> left[o] == memo[o])
  {
    SO.RetiresListed(shapes, memo, planners, w.removedComponentOwners);
  }

  /** The row read, and did not itself mutate in place, nothing that moved between the two worlds, and views no store that did. */
  ghost predicate OthersStand(sc: Schema, w: WorldState, w': WorldState, sh: Shape, row: seq<Entity>)
    requires |row| == |sh.queries|
  {
    && (forall t, e: Entity :: RowReads(sc, sh, row, t, e) && !Mutates(sh, row, t, e) ==> Rev(w, t, e) == Rev(w', t, e))
    && (forall t :: t in sh.views ==> Mark(w, t) == Mark(w', t))
  }

  lemma EntryStandsIff(sc: Schema, shapes: seq<Shape>, x: WorldState, w: WorldState, w': WorldState, o: Owner)
    requires o.system < |shapes| && |o.keys| == |shapes[o.system].queries| && SameReads(sc, x, w, shapes[o.system], o.keys)
    ensures Stands(sc, w', shapes[o.system], o.keys, Refreshed(w', DepsAt(sc, shapes, x, o), WrittenBy(shapes, o)))
            <==> OthersStand(sc, w, w', shapes[o.system], o.keys)
  {
    WritersMutate(shapes, o);
    RecordStandsIff(sc, x, w', shapes[o.system], o.keys, WrittenBy(shapes, o));
  }

  lemma DrainedStands(sc: Schema, w: WorldState, sh: Shape, row: seq<Entity>, deps: seq<Dep>)
    requires |row| == |sh.queries|
    ensures Stands(sc, Drained(w), sh, row, deps) <==> Stands(sc, w, sh, row, deps)
  {
    assert forall t, e: Entity :: Rev(Drained(w), t, e) == Rev(w, t, e);
    assert forall t :: Mark(Drained(w), t) == Mark(w, t);
    forall d ensures Holds(sc, Drained(w), sh, row, d) <==> Holds(sc, w, sh, row, d) {}
    if Stands(sc, w, sh, row, deps) { forall d ensures d in deps <==> Holds(sc, Drained(w), sh, row, d) { assert d in deps <==> Holds(sc, w, sh, row, d); } }
    if Stands(sc, Drained(w), sh, row, deps) { forall d ensures d in deps <==> Holds(sc, w, sh, row, d) { assert d in deps <==> Holds(sc, Drained(w), sh, row, d); } }
  }

  /**
   A run that counts is on record afterwards, unless its commit took one of its own outputs from it or removed one of its
   keys; and its entry is good, so that the next plan skips the row, exactly when its commit moved nothing the row reads
   but what it mutated in place.
   */
  lemma AcceptedIsOnRecord(sc: Schema, shapes: seq<Shape>, g: Engine, o: Owner, cs: seq<O.Command>, previous: seq<(TypeId, Entity)>)
    requires Ok(sc, shapes, g) && o in g.flights && SameReads(sc, g.flights[o], g.world, shapes[o.system], o.keys)
    ensures var h, w := Finish(sc, shapes, g, o, cs, previous), Published(sc, shapes, g.world, g.phase, o, cs, previous);
      o !in w.removedComponentOwners && !KeyedBy(o, w.removedEntities) ==>
        && o in h.memo
        && (Stands(sc, h.world, shapes[o.system], o.keys, h.memo[o]) <==> OthersStand(sc, g.world, w, shapes[o.system], o.keys))
  {
    FreshIffReadsStand(sc, shapes, g.world, g.flights, o);
    var w := Published(sc, shapes, g.world, g.phase, o, cs, previous);
    var entry := Refreshed(w, DepsAt(sc, shapes, g.flights[o], o), WrittenBy(shapes, o));
    AcceptedTable(sc, shapes, g, o, cs, previous);
    TableAfterRemovals(shapes, w, g.memo[o := entry], g.planners, o);
    EntryStandsIff(sc, shapes, g.flights[o], g.world, w, o);
    DrainedStands(sc, w, shapes[o.system], o.keys, entry);
  }

  lemma AcceptedTable(sc: Schema, shapes: seq<Shape>, g: Engine, o: Owner, cs: seq<O.Command>, previous: seq<(TypeId, Entity)>)
    requires o in g.flights && |g.planners| == |shapes| && Fresh(sc, shapes, g.world, g.flights, o)
    ensures var w := Published(sc, shapes, g.world, g.phase, o, cs, previous);
      var entry := Refreshed(w, DepsAt(sc, shapes, g.flights[o], o), WrittenBy(shapes, o));
      && Finish(sc, shapes, g, o, cs, previous).memo == Reconciled(shapes, w, g.memo[o := entry], g.planners).memo
      && Finish(sc, shapes, g, o, cs, previous).world == Drained(w)
  {}

  /** A stale run records nothing, and its row is due again whatever its system plans from. */
  lemma StaleRecordsNothing(sc: Schema, shapes: seq<Shape>, g: Engine, o: Owner, cs: seq<O.Command>, previous: seq<(TypeId, Entity)>)
    requires Ok(sc, shapes, g) && o in g.flights && !SameReads(sc, g.flights[o], g.world, shapes[o.system], o.keys)
    ensures var h, i := Finish(sc, shapes, g, o, cs, previous), o.system;
      h.memo == g.memo && |h.planners| == |shapes| && (!g.draining ==> forall v :: Due(shapes[i], h.planners[i], v, o.keys))
  {
    FreshIffReadsStand(sc, shapes, g.world, g.flights, o);
    StaleIsForced(sc, shapes, g, o);
  }

  lemma StaleIsForced(sc: Schema, shapes: seq<Shape>, g: Engine, o: Owner)
    requires |g.planners| == |shapes| && o.system < |shapes| && |o.keys| == |shapes[o.system].queries|
    ensures var h, i := Discard(sc, shapes, g, o), o.system;
      h.memo == g.memo && |h.planners| == |shapes| && (!g.draining ==> forall v :: Due(shapes[i], h.planners[i], v, o.keys))
  {
    forall v ensures Due(shapes[o.system], Force(shapes, g.planners, o)[o.system], v, o.keys) {
      ForcedIsDue(shapes[o.system], g.planners[o.system], v, o.keys);
    }
  }

  // ---- whether the loop plans again ----

  /** A batch asks for another wave exactly when some run of it was stale, or moved a counter: a quiet commit asks for none. */
  lemma FollowupIff(sc: Schema, shapes: seq<Shape>, g: Engine, o: Owner, cs: seq<O.Command>, previous: seq<(TypeId, Entity)>)
    requires Ok(sc, shapes, g) && o in g.flights
    ensures var h := Finish(sc, shapes, g, o, cs, previous);
      var w := Published(sc, shapes, g.world, g.phase, o, cs, previous);
      && h.batch && h.needsPlan == g.needsPlan
      && (h.dirty <==> g.dirty || !SameReads(sc, g.flights[o], g.world, shapes[o.system], o.keys)
                       || w.revision != g.world.revision || w.mutations != g.world.mutations)
  {
    FreshIffReadsStand(sc, shapes, g.world, g.flights, o);
    DirtyIff(sc, shapes, g, o, cs, previous);
  }

  lemma AcceptedAsks(sc: Schema, shapes: seq<Shape>, g: Engine, o: Owner, cs: seq<O.Command>, previous: seq<(TypeId, Entity)>)
    requires o in g.flights && |g.planners| == |shapes|
    ensures var h := Accept(sc, shapes, g, o, cs, previous);
      h.dirty == (g.dirty || CountersMoved(g.world, Published(sc, shapes, g.world, g.phase, o, cs, previous)))
  {}

  lemma DiscardedAsks(sc: Schema, shapes: seq<Shape>, g: Engine, o: Owner)
    requires |g.planners| == |shapes|
    ensures Discard(sc, shapes, g, o).dirty
  {}

  lemma DirtyIff(sc: Schema, shapes: seq<Shape>, g: Engine, o: Owner, cs: seq<O.Command>, previous: seq<(TypeId, Entity)>)
    requires o in g.flights && |g.planners| == |shapes|
    ensures var h := Finish(sc, shapes, g, o, cs, previous);
      && h.batch && h.needsPlan == g.needsPlan
      && (h.dirty <==> (Fresh(sc, shapes, g.world, g.flights, o) ==>
                          g.dirty || CountersMoved(g.world, Published(sc, shapes, g.world, g.phase, o, cs, previous))))
  {
    FinishFrame(sc, shapes, g, o, cs, previous);
    if Fresh(sc, shapes, g.world, g.flights, o) { AcceptedAsks(sc, shapes, g, o, cs, previous); } else { DiscardedAsks(sc, shapes, g, o); }
  }

  lemma BatchPlansAgainIff(sc: Schema, shapes: seq<Shape>, g: Engine)
    requires Fits(shapes, g, EndBatch)
    ensures Step(sc, shapes, g, EndBatch).needsPlan <==> g.needsPlan || g.dirty || g.conflicts
  {}

  // ---- what is in the world afterwards ----

  /** A component's value, but for what a commit fills in itself, and its owner. */
  function Content(sc: Schema, w: WorldState, t: TypeId, e: Entity): Option<(Value, Option<Owner>)> {
    if Has(w, t, e) then Some((Given(sc, t, Lookup(w, t, e).value.value), OwnerAt(w, t, e))) else None
  }

  function Plainly(x: Option<Held>): Option<(Value, Option<Owner>)> {
    if x.Some? then Some((x.value.value, x.value.owner)) else None
  }

  lemma ContentIsHeld(sc: Schema, w: WorldState, o: Owner, t: TypeId, e: Entity)
    ensures Content(sc, w, t, e) == Plainly(HeldAt(sc, w, o, t, e)) == Plainly(Found(sc, w, o, t, e))
  {}

  lemma ReconciledContent(sc: Schema, w: WorldState, writes: seq<(TypeId, Entity)>, t: TypeId, e: Entity)
    requires RevisionsBounded(w)
    ensures Content(sc, P.ReconcileAll(sc, w, writes), t, e) == Content(sc, w, t, e)
    ensures Content(sc, Drained(P.ReconcileAll(sc, w, writes)), t, e) == Content(sc, w, t, e)
  {
    ReconcileAllReads(sc, w, writes);
    var w' := P.ReconcileAll(sc, w, writes);
    assert Mended(sc, w, w', writes, t, e);
    assert Lookup(Drained(w'), t, e) == Lookup(w', t, e);
  }

  /** What a run of the generation leaves: following its buffer, if it counts, and otherwise everything as it was. */
  lemma ReturnLeavesExactly(sc: Schema, shapes: seq<Shape>, g: Engine, o: Owner, cs: seq<O.Command>, previous: seq<(TypeId, Entity)>, t: TypeId, e: Entity)
    requires Ok(sc, shapes, g) && o in g.flights && MayReturn(sc, g.world, g.phase, o, cs, previous) && !sc.Kind(t).Inverse?
    ensures Content(sc, Finish(sc, shapes, g, o, cs, previous).world, t, e) ==
              if SameReads(sc, g.flights[o], g.world, shapes[o.system], o.keys)
              then Plainly(Swept(FollowAll(sc, O.Reordered(sc, cs), o, t, e, Found(sc, g.world, o, t, e))))
              else Content(sc, g.world, t, e)
  {
    FreshIffReadsStand(sc, shapes, g.world, g.flights, o);
    var counts := Fresh(sc, shapes, g.world, g.flights, o);
    var base := Applied(sc, g.world, g.phase, o, cs, previous, counts);
    AppliedHolds(sc, g.world, g.phase, o, cs, previous, counts);
    FinishWorld(sc, shapes, g, o, cs, previous);
    ReconciledContent(sc, base, WrittenBy(shapes, o), t, e);
    KeptWhole(g.phase, cs);
    if counts {
      CommitLeavesExactly(sc, g.world, cs, o, previous, t, e);
      ContentIsHeld(sc, base, o, t, e);
    }
  }

  /** The settle's own table says which of its runs count. */
  lemma SettleWorld(sc: Schema, shapes: seq<Shape>, g: Engine, id: nat, o: Owner, cs: seq<O.Command>, previous: seq<(TypeId, Entity)>)
    requires id in g.tasks && o in g.tasks[id].flights && |g.planners| == |shapes|
    ensures var counts := Fresh(sc, shapes, g.world, g.tasks[id].flights, o);
      var w := P.ReconcileAll(sc, Applied(sc, g.world, Some(Settle), o, cs, previous, counts), WrittenBy(shapes, o));
      SettleFinish(sc, shapes, g, id, o, cs, previous).world == if counts then Drained(w) else w
  {}

  lemma TaskTable(shapes: seq<Shape>, g: Engine, id: nat, w: WorldState, memo: Memo, flights: Flights)
    requires id in g.tasks && |g.planners| == |shapes|
    ensures var h := TaskCommits(shapes, g, id, w, memo, flights);
      id in h.tasks && h.tasks[id].flights == flights && h.tasks[id].memo == Reconciled(shapes, w, memo, g.planners).memo && h.world == Drained(w)
  {}

  lemma SettledTable(sc: Schema, shapes: seq<Shape>, g: Engine, id: nat, o: Owner, cs: seq<O.Command>, previous: seq<(TypeId, Entity)>)
    requires id in g.tasks && o in g.tasks[id].flights && |g.planners| == |shapes| && Fresh(sc, shapes, g.world, g.tasks[id].flights, o)
    ensures var h, task := SettleFinish(sc, shapes, g, id, o, cs, previous), g.tasks[id];
      var w := Published(sc, shapes, g.world, Some(Settle), o, cs, previous);
      var entry := Refreshed(w, DepsAt(sc, shapes, task.flights[o], o), WrittenBy(shapes, o));
      && id in h.tasks && h.tasks[id].flights == task.flights - {o} && h.world == Drained(w)
      && h.tasks[id].memo == Reconciled(shapes, w, task.memo[o := entry], g.planners).memo
  {
    var task, w := g.tasks[id], Published(sc, shapes, g.world, Some(Settle), o, cs, previous);
    var entry := Refreshed(w, DepsAt(sc, shapes, task.flights[o], o), WrittenBy(shapes, o));
    TaskTable(shapes, g, id, w, task.memo[o := entry], task.flights - {o});
  }

  lemma StaleTable(sc: Schema, shapes: seq<Shape>, g: Engine, id: nat, o: Owner, cs: seq<O.Command>, previous: seq<(TypeId, Entity)>)
    requires id in g.tasks && o in g.tasks[id].flights && |g.planners| == |shapes| && !Fresh(sc, shapes, g.world, g.tasks[id].flights, o)
    ensures var h := SettleFinish(sc, shapes, g, id, o, cs, previous);
      id in h.tasks && h.tasks[id].flights == g.tasks[id].flights - {o} && h.tasks[id].memo == g.tasks[id].memo
  {}

  /** A settle's run is on record in the settle's own table just as a generation's is in its, and a stale one not at all. */
  lemma SettledIsOnRecord(sc: Schema, shapes: seq<Shape>, g: Engine, id: nat, o: Owner, cs: seq<O.Command>, previous: seq<(TypeId, Entity)>)
    requires Ok(sc, shapes, g) && id in g.tasks && o in g.tasks[id].flights
    ensures var h, w := SettleFinish(sc, shapes, g, id, o, cs, previous), Published(sc, shapes, g.world, Some(Settle), o, cs, previous);
      && id in h.tasks && o !in h.tasks[id].flights
      && (if !SameReads(sc, g.tasks[id].flights[o], g.world, shapes[o.system], o.keys) then h.tasks[id].memo == g.tasks[id].memo
          else o !in w.removedComponentOwners && !KeyedBy(o, w.removedEntities) ==>
            && o in h.tasks[id].memo
            && (Stands(sc, h.world, shapes[o.system], o.keys, h.tasks[id].memo[o]) <==> OthersStand(sc, g.world, w, shapes[o.system], o.keys)))
  {
    var task := g.tasks[id];
    FreshIffReadsStand(sc, shapes, g.world, task.flights, o);
    if !Fresh(sc, shapes, g.world, task.flights, o) {
      StaleTable(sc, shapes, g, id, o, cs, previous);
    } else {
      SettledTable(sc, shapes, g, id, o, cs, previous);
      var w := Published(sc, shapes, g.world, Some(Settle), o, cs, previous);
      var entry := Refreshed(w, DepsAt(sc, shapes, task.flights[o], o), WrittenBy(shapes, o));
      TableAfterRemovals(shapes, w, task.memo[o := entry], g.planners, o);
      EntryStandsIff(sc, shapes, task.flights[o], g.world, w, o);
      DrainedStands(sc, w, shapes[o.system], o.keys, entry);
    }
  }

  /** And its in-place writes are reconciled, fresh or stale. */
  lemma SettleReconciles(sc: Schema, shapes: seq<Shape>, g: Engine, id: nat, o: Owner, cs: seq<O.Command>, previous: seq<(TypeId, Entity)>)
    requires Ok(sc, shapes, g) && id in g.tasks && o in g.tasks[id].flights && MayReturn(sc, g.world, Some(Settle), o, cs, previous)
    ensures var counts := SameReads(sc, g.tasks[id].flights[o], g.world, shapes[o.system], o.keys);
      Reconciles(sc, Applied(sc, g.world, Some(Settle), o, cs, previous, counts), SettleFinish(sc, shapes, g, id, o, cs, previous).world,
                 shapes[o.system], o.keys)
  {
    FreshIffReadsStand(sc, shapes, g.world, g.tasks[id].flights, o);
    var counts := Fresh(sc, shapes, g.world, g.tasks[id].flights, o);
    var base := Applied(sc, g.world, Some(Settle), o, cs, previous, counts);
    AppliedHolds(sc, g.world, Some(Settle), o, cs, previous, counts);
    WritesReconcile(sc, shapes, base, o);
    SettleWorld(sc, shapes, g, id, o, cs, previous);
    if counts { DrainedReconciles(sc, base, P.ReconcileAll(sc, base, WrittenBy(shapes, o)), shapes[o.system], o.keys); }
  }

  /** A settle's run that counts only removes, and all it is told to; one that does not leaves everything as it was. */
  lemma SettleReturnLeavesExactly(sc: Schema, shapes: seq<Shape>, g: Engine, id: nat, o: Owner, cs: seq<O.Command>, previous: seq<(TypeId, Entity)>, t: TypeId, e: Entity)
    requires Ok(sc, shapes, g) && id in g.tasks && o in g.tasks[id].flights
    requires MayReturn(sc, g.world, Some(Settle), o, cs, previous) && !sc.Kind(t).Inverse?
    ensures var x := Found(sc, g.world, o, t, e);
      Content(sc, SettleFinish(sc, shapes, g, id, o, cs, previous).world, t, e) ==
        if SameReads(sc, g.tasks[id].flights[o], g.world, shapes[o.system], o.keys)
           && x.Some? && (x.value.stale || exists c :: c in cs && Removes(sc, c, t, e, x.value))
        then None else Content(sc, g.world, t, e)
  {
    FreshIffReadsStand(sc, shapes, g.world, g.tasks[id].flights, o);
    var counts := Fresh(sc, shapes, g.world, g.tasks[id].flights, o);
    var base := Applied(sc, g.world, Some(Settle), o, cs, previous, counts);
    AppliedHolds(sc, g.world, Some(Settle), o, cs, previous, counts);
    SettleWorld(sc, shapes, g, id, o, cs, previous);
    ReconciledContent(sc, base, WrittenBy(shapes, o), t, e);
    ContentIsHeld(sc, g.world, o, t, e);
    if counts {
      SettleCommitOnlyRemoves(sc, g.world, cs, o, previous, t, e);
      ContentIsHeld(sc, base, o, t, e);
    }
  }

  lemma HookWorld(sc: Schema, shapes: seq<Shape>, g: Engine, id: nat, o: Owner, cs: seq<O.Command>, previous: seq<(TypeId, Entity)>)
    requires id in g.tasks && |g.planners| == |shapes|
    ensures HookFinish(sc, shapes, g, id, o, cs, previous).world == Drained(O.Replace(sc, g.world, cs, o, previous))
  {}

  /** A hook's buffer takes effect whole. */
  lemma HookReturnLeavesExactly(sc: Schema, shapes: seq<Shape>, g: Engine, id: nat, o: Owner, cs: seq<O.Command>, previous: seq<(TypeId, Entity)>, t: TypeId, e: Entity)
    requires Ok(sc, shapes, g) && id in g.tasks && MayReturn(sc, g.world, None, o, cs, previous) && !sc.Kind(t).Inverse?
    ensures Content(sc, HookFinish(sc, shapes, g, id, o, cs, previous).world, t, e) ==
              Plainly(Swept(FollowAll(sc, O.Reordered(sc, cs), o, t, e, Found(sc, g.world, o, t, e))))
  {
    var w := O.Replace(sc, g.world, cs, o, previous);
    HookWorld(sc, shapes, g, id, o, cs, previous);
    assert Lookup(Drained(w), t, e) == Lookup(w, t, e);
    CommitLeavesExactly(sc, g.world, cs, o, previous, t, e);
    ContentIsHeld(sc, w, o, t, e);
  }
}
