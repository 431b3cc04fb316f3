/** The steps of a generation and of its phase loop: each keeps the invariant. */
module LoopSteps {
  import opened Ids
  import opened World
  import opened Queries
  import opened Joins
  import opened Planners
  import opened Coverage
  import opened Admission
  import opened Phases
  import opened RemovedLists
  import opened PhaseProofs
  import opened CommitProofs
  import opened OutsideSteps
  import O = Output
  import P = InPlace

  // ---- a generation starts and ends ----

  lemma StartKeepsOk(sc: Schema, shapes: seq<Shape>, g: Engine, w: WorldState)
    requires Ok(sc, shapes, g) && Enabled(sc, shapes, g, Start(w))
    ensures Ok(sc, shapes, Started(shapes, g, w))
  {
    var a := Reconciled(shapes, w, g.store, g.planners);
    var h := Started(shapes, g, w);
    OkHasParts(sc, shapes, g);
    StartedRecords(shapes, g, w);
    forall i | 0 <= i < |shapes|
      ensures Consistent(shapes[i], h.planners[i], h.world)
      ensures Covered(sc, h.world, h.world, i, shapes[i], h.planners[i], OnRecord(h), Excused(h))
    {
      InputsCover(sc, shapes, g.world, w, i, g.planners, g.store, TaskRecords(g.tasks), Excused(g));
    }
    StartedIsGrounded(sc, shapes, g, w);
    RestIsGated(shapes, h);
    OkFromParts(sc, shapes, h);
  }

  lemma StartedRecords(shapes: seq<Shape>, g: Engine, w: WorldState)
    requires |g.planners| == |shapes| && g.memo == map[]
    ensures OnRecord(g) == TaskRecords(g.tasks) + Records(g.store)
    ensures OnRecord(Started(shapes, g, w)) == TaskRecords(g.tasks) + Records(Reconciled(shapes, w, g.store, g.planners).memo)
  {}

  lemma StartedIsGrounded(sc: Schema, shapes: seq<Shape>, g: Engine, w: WorldState)
    requires Grounded(sc, shapes, g) && g.phase.None? && Inv(sc, w, {}) && Evolves(sc, g.world, w)
    ensures Grounded(sc, shapes, Started(shapes, g, w))
  {
    var a := Reconciled(shapes, w, g.store, g.planners);
    ReconciledFrame(sc, shapes, w, g.store, g.planners);
    EvolvesTransitive(sc, g.world, w, a.world);
    if g.cache.Some? { FollowsLater(sc, g.cache.value, g.world, a.world); }
  }

  /** Applying inputs is accounted for as a commit is. */
  lemma InputsCover(sc: Schema, shapes: seq<Shape>, before: WorldState, w: WorldState, i: nat, planners: seq<Planner>, memo: Memo,
                    rest: Known, excused: set<Owner>)
    requires |planners| == |shapes| && i < |shapes| && shapes[i].Valid() && Shaped(shapes, memo.Keys)
    requires Inv(sc, before, {}) && Inv(sc, w, {}) && Evolves(sc, before, w) && w.removedEntities == []
    requires Consistent(shapes[i], planners[i], before) && Covered(sc, before, before, i, shapes[i], planners[i], rest + Records(memo), excused)
    ensures var a := Reconciled(shapes, w, memo, planners);
      Consistent(shapes[i], a.planners[i], a.world)
      && Covered(sc, a.world, a.world, i, shapes[i], a.planners[i], rest + Records(a.memo), excused)
  {
    var a := Reconciled(shapes, w, memo, planners);
    EvolvesReflexive(sc, before);
    ReconciledFrame(sc, shapes, w, memo, planners);
    EvolvesTransitive(sc, before, w, a.world);
    MovesAhead(sc, before, before, w, i, shapes[i], planners[i], rest + Records(memo), excused);
    ReconciledCovers(sc, shapes, before, before, w, i, planners, memo, rest, excused);
    CatchesUp(sc, before, a.world, i, shapes[i], a.planners[i], rest + Records(a.memo), excused);
  }

  /** Tables changed hands between phases. */
  lemma HandoverKeepsOk(sc: Schema, shapes: seq<Shape>, g: Engine, h: Engine)
    requires Ok(sc, shapes, g) && g.phase.None?
    requires h == g.(store := h.store, memo := h.memo, running := false, orphans := h.orphans) && g.orphans <= h.orphans
    requires TablesFit(shapes, h) && h.memo == map[]
    requires forall o, d :: (o, d) in OnRecord(g) ==> (o, d) in OnRecord(h) || o in h.orphans
    ensures Ok(sc, shapes, h)
  {
    OkHasParts(sc, shapes, g);
    forall i | 0 <= i < |shapes| ensures Covered(sc, h.world, h.world, i, shapes[i], h.planners[i], OnRecord(h), Excused(h)) {
      MoreCovers(sc, g.world, g.world, i, shapes[i], g.planners[i], OnRecord(g), Excused(g), OnRecord(h), Excused(h));
    }
    RestIsGated(shapes, h);
    OkFromParts(sc, shapes, h);
  }

  /** Delivering the generation's table orphans exactly the entries it lacks of the one it replaces. */
  lemma PublishKeepsOk(sc: Schema, shapes: seq<Shape>, g: Engine)
    requires Ok(sc, shapes, g) && Enabled(sc, shapes, g, Publish)
    ensures Ok(sc, shapes, Delivered(g))
  {
    OverwrittenCovers(g.store, g.memo);
    HandoverKeepsOk(sc, shapes, g, Delivered(g));
  }

  /** What a driver dropped without its guard takes is excused from then on; nothing else changes hands. */
  lemma LoseKeepsOk(sc: Schema, shapes: seq<Shape>, g: Engine)
    requires Ok(sc, shapes, g) && Enabled(sc, shapes, g, Lose)
    ensures Ok(sc, shapes, Lost(g))
  {
    HandoverKeepsOk(sc, shapes, g, Lost(g));
  }

  lemma CompactKeepsOk(sc: Schema, shapes: seq<Shape>, g: Engine)
    requires Ok(sc, shapes, g) && Enabled(sc, shapes, g, Compact)
    ensures Ok(sc, shapes, Step(sc, shapes, g, Compact))
  {
    var h := Step(sc, shapes, g, Compact);
    OkHasParts(sc, shapes, g);
    CompactIsGrounded(sc, shapes, g);
    forall i | 0 <= i < |shapes|
      ensures Consistent(shapes[i], h.planners[i], h.world)
      ensures Covered(sc, h.world, h.world, i, shapes[i], h.planners[i], OnRecord(h), Excused(h))
    {
      CompactionCovers(sc, g.world, i, shapes[i], g.planners[i], OnRecord(g), Excused(g));
    }
    RestIsGated(shapes, h);
    OkFromParts(sc, shapes, h);
  }

  lemma CompactIsGrounded(sc: Schema, shapes: seq<Shape>, g: Engine)
    requires Grounded(sc, shapes, g) && !g.running
    ensures Grounded(sc, shapes, Step(sc, shapes, g, Compact))
  {
    var h := Step(sc, shapes, g, Compact);
    CompactedIsSame(sc, g.world);
    if g.cache.Some? { FollowsSame(g.cache.value, g.world, h.world); }
  }

  lemma FollowsSame(a: WorldState, w: WorldState, w': WorldState)
    requires Follows(a, w) && w.revision == w'.revision && w.mutations == w'.mutations && SameObservations(w, w')
    ensures Follows(a, w')
  {
    if a.revision == w'.revision && a.mutations == w'.mutations {
      forall t, e: Entity ensures Rev(a, t, e) == Rev(w', t, e) { assert Rev(a, t, e) == Rev(w, t, e); }
      forall t ensures Mark(a, t) == Mark(w', t) { assert Mark(a, t) == Mark(w, t); }
    }
  }

  // ---- waves ----

  lemma BeginWaveKeepsOk(sc: Schema, shapes: seq<Shape>, g: Engine)
    requires Ok(sc, shapes, g) && Enabled(sc, shapes, g, BeginWave)
    ensures Ok(sc, shapes, Step(sc, shapes, g, BeginWave))
  {
    var h := Step(sc, shapes, g, BeginWave);
    SnapshotIsCurrent(sc, shapes, g);
    EvolvesReflexive(sc, g.world);
    ViewsAreWorld(sc, shapes, g);
    forall i | 0 <= i < |shapes|
      ensures Consistent(shapes[i], h.planners[i], ViewOf(h, i))
      ensures Covered(sc, ViewOf(h, i), h.world, i, shapes[i], h.planners[i], OnRecord(h), Excused(h))
    {
      assert ViewOf(h, i) == g.world;
    }
  }

  lemma EndWaveKeepsOk(sc: Schema, shapes: seq<Shape>, g: Engine)
    requires Ok(sc, shapes, g) && Enabled(sc, shapes, g, EndWave)
    ensures Ok(sc, shapes, Step(sc, shapes, g, EndWave))
  {
    var h := Step(sc, shapes, g, EndWave);
    forall i | 0 <= i < |shapes|
      ensures Consistent(shapes[i], h.planners[i], ViewOf(h, i))
      ensures Covered(sc, ViewOf(h, i), h.world, i, shapes[i], h.planners[i], OnRecord(h), Excused(h))
    {
      assert ViewOf(g, i) == g.world == ViewOf(h, i);
    }
    forall i | 0 <= i < |shapes| && Gate(shapes, h, i, h.world) ensures Gate(shapes, g, i, g.world) {}
  }

  /** Steps that leave world, planners, tables and flights alone, outside a wave. */
  lemma LoopStepKeepsOk(sc: Schema, shapes: seq<Shape>, g: Engine, ev: Event)
    requires Ok(sc, shapes, g) && Enabled(sc, shapes, g, ev)
    requires ev.Enter? || ev.Quiet? || ev.Skip? || ev.EndBatch? || ev.Complete?
    ensures Ok(sc, shapes, Step(sc, shapes, g, ev))
  {
    var h := Step(sc, shapes, g, ev);
    LoopStepIsGated(sc, shapes, g, ev);
    OkHasParts(sc, shapes, g);
    OkFromParts(sc, shapes, h);
  }

  lemma LoopStepIsGated(sc: Schema, shapes: seq<Shape>, g: Engine, ev: Event)
    requires Fits(shapes, g, ev) && Gated(shapes, g) && Enabled(sc, shapes, g, ev)
    requires ev.Enter? || ev.Quiet? || ev.Skip? || ev.EndBatch? || ev.Complete?
    requires g.phase.None? ==> g.wave.None? && g.flights == map[]
    ensures Gated(shapes, Step(sc, shapes, g, ev))
  {
    var h := Step(sc, shapes, g, ev);
    if ev.Quiet? || ev.Skip? || ev.EndBatch? {
      forall i | 0 <= i < |shapes| && Gate(shapes, h, i, h.world) ensures Gate(shapes, g, i, g.world) {}
    }
  }

  // ---- a finished run ----

  /** Every system's coverage and cursor survive a move of the world. */
  lemma MovesCoverAll(sc: Schema, shapes: seq<Shape>, w: WorldState, w': WorldState, planners: seq<Planner>, known: Known, excused: set<Owner>)
    requires |planners| == |shapes| && forall i :: 0 <= i < |shapes| ==> shapes[i].Valid()
    requires RevisionsBounded(w) && Evolves(sc, w, w') && ConsistentAll(shapes, w, planners)
    ensures ConsistentAll(shapes, w', planners)
    ensures CoveredAll(sc, shapes, w, planners, known, excused) ==> CoveredAll(sc, shapes, w', planners, known, excused)
  {
    forall i | 0 <= i < |shapes|
      ensures Consistent(shapes[i], planners[i], w')
      ensures Covered(sc, w, w, i, shapes[i], planners[i], known, excused) ==> Covered(sc, w', w', i, shapes[i], planners[i], known, excused)
    {
      ConsistentLater(sc, shapes[i], planners[i], w, w');
      if Covered(sc, w, w, i, shapes[i], planners[i], known, excused) {
        WorldMovesCovered(sc, w, w', i, shapes[i], planners[i], known, excused);
      }
    }
  }

  /** A discarded run's row is forced back before the run stops counting as in flight. */
  lemma DiscardedIsCovered(sc: Schema, shapes: seq<Shape>, g: Engine, o: Owner, w: WorldState)
    requires Ok(sc, shapes, g) && g.wave.None? && o in g.flights && Evolves(sc, g.world, w)
    ensures var planners := Discard(sc, shapes, g, o).planners;
      && ConsistentAll(shapes, w, planners)
      && (!g.draining ==> CoveredAll(sc, shapes, w, planners, OnRecord(g), Excused(g) - {o}))
  {
    OkHasParts(sc, shapes, g);
    MovesCoverAll(sc, shapes, g.world, w, g.planners, OnRecord(g), Excused(g));
    if !g.draining { ForcedRunLeaves(sc, shapes, w, g.planners, OnRecord(g), Excused(g), o); }
  }

  lemma ForcedRunLeaves(sc: Schema, shapes: seq<Shape>, w: WorldState, planners: seq<Planner>, known: Known, excused: set<Owner>, o: Owner)
    requires |planners| == |shapes| && forall i :: 0 <= i < |shapes| ==> shapes[i].Valid()
    requires CoveredAll(sc, shapes, w, planners, known, excused) && ConsistentAll(shapes, w, planners)
    requires o.system < |shapes| && |o.keys| == |shapes[o.system].queries|
    ensures var forced := Force(shapes, planners, o);
      ConsistentAll(shapes, w, forced) && CoveredAll(sc, shapes, w, forced, known, excused - {o})
  {
    var forced := Force(shapes, planners, o);
    forall i | 0 <= i < |shapes|
      ensures Consistent(shapes[i], forced[i], w) && Covered(sc, w, w, i, shapes[i], forced[i], known, excused - {o})
    {
      ForceIsConsistent(shapes, w, planners, o, i);
      ForcedCovers(sc, shapes, w, w, i, planners, known, excused, o);
      MoreCovers(sc, w, w, i, shapes[i], forced[i], Without(known, o), excused - {o}, known, excused - {o});
    }
  }

  lemma DiscardedWorld(sc: Schema, shapes: seq<Shape>, g: Engine, o: Owner)
    requires Grounded(sc, shapes, g)
    ensures var w := Discard(sc, shapes, g, o).world;
      && Inv(sc, w, {}) && Evolves(sc, g.world, w)
      && w.removedEntities == [] && w.removedOwners == [] && w.removedComponentOwners == []
      && (g.cache.Some? ==> Follows(g.cache.value, w))
  {
    P.ReconcileAllKeepsInv(sc, g.world, WrittenBy(shapes, o), {});
    ReconcileKeepsLists(sc, g.world, WrittenBy(shapes, o));
    if g.cache.Some? { FollowsLater(sc, g.cache.value, g.world, Discard(sc, shapes, g, o).world); }
  }

  lemma ForceKeepsSettleFresh(shapes: seq<Shape>, planners: seq<Planner>, o: Owner)
    requires |planners| == |shapes| && SettleFresh(shapes, planners)
    ensures SettleFresh(shapes, Force(shapes, planners, o))
  {}

  /** Replacing only what a discard replaces, by a sound world and sound planners. */
  lemma DiscardIsGrounded(sc: Schema, shapes: seq<Shape>, g: Engine, h: Engine)
    requires Grounded(sc, shapes, g) && g.phase.Some? && |h.planners| == |shapes| && SettleFresh(shapes, h.planners)
    requires h == g.(world := h.world, planners := h.planners, flights := h.flights, batch := true, dirty := true, orphans := h.orphans)
    requires Inv(sc, h.world, {}) && h.world.removedEntities == [] && h.world.removedOwners == [] && h.world.removedComponentOwners == []
    requires (g.cache.Some? ==> Follows(g.cache.value, h.world)) && forall o :: o in h.flights ==> o in g.flights
    ensures Grounded(sc, shapes, h)
  {}

  lemma DiscardStaysGrounded(sc: Schema, shapes: seq<Shape>, g: Engine, o: Owner)
    requires Grounded(sc, shapes, g) && o in g.flights
    ensures var h := Discard(sc, shapes, g, o);
      Grounded(sc, shapes, h) && Evolves(sc, g.world, h.world) && Excused(h) == Excused(g) - {o}
  {
    var h := Discard(sc, shapes, g, o);
    DiscardedWorld(sc, shapes, g, o);
    ForceKeepsSettleFresh(shapes, g.planners, o);
    assert Excused(h) == Excused(g) - {o};
    DiscardIsGrounded(sc, shapes, g, h);
  }

  /** With a run unaccounted for that changed something, the loop knows it has to come back. */
  lemma DirtyIsGated(shapes: seq<Shape>, g: Engine, h: Engine)
    requires Gated(shapes, g) && h.wave.None? && h.dirty && h.batch
    ensures Gated(shapes, h)
  {}

  lemma DiscardKeepsOk(sc: Schema, shapes: seq<Shape>, g: Engine, o: Owner)
    requires Ok(sc, shapes, g) && g.wave.None? && o in g.flights
    ensures Ok(sc, shapes, Discard(sc, shapes, g, o))
  {
    var h := Discard(sc, shapes, g, o);
    DiscardStaysGrounded(sc, shapes, g, o);
    DiscardedIsCovered(sc, shapes, g, o, h.world);
    DirtyIsGated(shapes, g, h);
    OkFromParts(sc, shapes, h);
  }

  /** A fresh run's commit, seen by one system: its row is on record as it stands, or due, and what was removed is accounted for. */
  lemma CommitCovers(sc: Schema, shapes: seq<Shape>, g: Engine, o: Owner, w: WorldState, entry: seq<Dep>, i: nat)
    requires Grounded(sc, shapes, g) && Level(sc, shapes, g) && o in g.flights && Fresh(sc, shapes, g.world, g.flights, o) && i < |shapes| && !g.draining
    requires Inv(sc, w, {}) && Evolves(sc, g.world, w) && Tracks(g.world, w) && Shaped(shapes, g.memo[o := entry].Keys)
    requires entry == Refreshed(w, DepsAt(sc, shapes, g.flights[o], o), WrittenBy(shapes, o))
    ensures var a := Reconciled(shapes, w, g.memo[o := entry], g.planners);
      Covered(sc, a.world, a.world, i, shapes[i], a.planners[i], Records(g.store) + TaskRecords(g.tasks) + Records(a.memo), Excused(g) - {o})
  {
    var rest := Records(g.store) + TaskRecords(g.tasks);
    CommittedCovers(sc, g.world, w, i, shapes[i], g.planners[i], OnRecord(g), Excused(g), o, g.flights[o], WrittenBy(shapes, o), entry);
    ConsistentLater(sc, shapes[i], g.planners[i], g.world, w);
    ReplacedEntry(g.memo, rest, o, entry);
    MoreCovers(sc, w, w, i, shapes[i], g.planners[i], Without(OnRecord(g), o) + {(o, entry)}, Excused(g) - {o},
               rest + Records(g.memo[o := entry]), Excused(g) - {o});
    ReconciledLevel(sc, shapes, g.world, w, i, g.planners, g.memo[o := entry], rest, Excused(g) - {o});
  }

  lemma ReplacedEntry(memo: Memo, rest: Known, o: Owner, entry: seq<Dep>)
    ensures Without(rest + Records(memo), o) + {(o, entry)} <= rest + Records(memo[o := entry])
  {
    forall r | r in Without(rest + Records(memo), o) + {(o, entry)} ensures r in rest + Records(memo[o := entry]) {
      if r in Records(memo) && r.0 != o { assert memo[o := entry][r.0] == r.1; }
      if r == (o, entry) { assert memo[o := entry][o] == entry; }
    }
  }

  lemma AcceptKeepsOk(sc: Schema, shapes: seq<Shape>, g: Engine, o: Owner, cs: seq<O.Command>, previous: seq<(TypeId, Entity)>)
    requires Ok(sc, shapes, g) && g.wave.None? && o in g.flights && MayReturn(sc, g.world, g.phase, o, cs, previous)
    requires Fresh(sc, shapes, g.world, g.flights, o)
    ensures Ok(sc, shapes, Accept(sc, shapes, g, o, cs, previous))
  {
    var w := Published(sc, shapes, g.world, g.phase, o, cs, previous);
    var entry := Refreshed(w, DepsAt(sc, shapes, g.flights[o], o), WrittenBy(shapes, o));
    PublishedEvolves(sc, shapes, g.world, g.phase, o, cs, previous);
    AcceptFrame(sc, shapes, g, o, cs, previous);
    AcceptedIsOk(sc, shapes, g, Accept(sc, shapes, g, o, cs, previous), o, w, entry);
  }

  lemma AcceptedIsOk(sc: Schema, shapes: seq<Shape>, g: Engine, h: Engine, o: Owner, w: WorldState, entry: seq<Dep>)
    requires Ok(sc, shapes, g) && g.wave.None? && o in g.flights && Fresh(sc, shapes, g.world, g.flights, o)
    requires Inv(sc, w, {}) && Evolves(sc, g.world, w) && Tracks(g.world, w)
    requires entry == Refreshed(w, DepsAt(sc, shapes, g.flights[o], o), WrittenBy(shapes, o))
    requires var a := Reconciled(shapes, w, g.memo[o := entry], g.planners);
      h == g.(world := a.world, memo := a.memo, planners := a.planners, flights := g.flights - {o}, batch := true,
              dirty := g.dirty || CountersMoved(g.world, w), orphans := g.orphans - {o})
    ensures Ok(sc, shapes, h)
  {
    OkHasParts(sc, shapes, g);
    CommitFits(shapes, g, o, entry);
    AcceptIsGrounded(sc, shapes, g, h, w, g.memo[o := entry]);
    ConsistentAllLater(sc, shapes, h.planners, g.world, h.world);
    if !g.draining { CommitCoversAll(sc, shapes, g, h, o, w, entry); }
    AcceptIsGated(sc, shapes, g, h, w);
    OkFromParts(sc, shapes, h);
  }

  lemma CommitFits(shapes: seq<Shape>, g: Engine, o: Owner, entry: seq<Dep>)
    requires TablesFit(shapes, g) && o in g.flights
    ensures Shaped(shapes, g.memo[o := entry].Keys)
  {}

  lemma CommitCoversAll(sc: Schema, shapes: seq<Shape>, g: Engine, h: Engine, o: Owner, w: WorldState, entry: seq<Dep>)
    requires Grounded(sc, shapes, g) && Level(sc, shapes, g) && o in g.flights && Fresh(sc, shapes, g.world, g.flights, o) && !g.draining
    requires Inv(sc, w, {}) && Evolves(sc, g.world, w) && Tracks(g.world, w) && Shaped(shapes, g.memo[o := entry].Keys)
    requires entry == Refreshed(w, DepsAt(sc, shapes, g.flights[o], o), WrittenBy(shapes, o))
    requires var a := Reconciled(shapes, w, g.memo[o := entry], g.planners);
      h.world == a.world && h.memo == a.memo && h.planners == a.planners && h.store == g.store && h.tasks == g.tasks
    requires h.flights == g.flights - {o} && h.orphans == g.orphans - {o}
    ensures CoveredAll(sc, shapes, h.world, h.planners, OnRecord(h), Excused(h))
  {
    assert Excused(h) == Excused(g) - {o};
    forall i | 0 <= i < |shapes| ensures Covered(sc, h.world, h.world, i, shapes[i], h.planners[i], OnRecord(h), Excused(h)) {
      CommitCovers(sc, shapes, g, o, w, entry, i);
    }
  }

  lemma ConsistentAllLater(sc: Schema, shapes: seq<Shape>, planners: seq<Planner>, w: WorldState, w': WorldState)
    requires |planners| == |shapes| && ConsistentAll(shapes, w, planners) && RevisionsBounded(w) && Evolves(sc, w, w')
    ensures ConsistentAll(shapes, w', planners)
  {
    forall i | 0 <= i < |shapes| ensures Consistent(shapes[i], planners[i], w') { ConsistentLater(sc, shapes[i], planners[i], w, w'); }
  }

  lemma AcceptIsGrounded(sc: Schema, shapes: seq<Shape>, g: Engine, h: Engine, w: WorldState, memo: Memo)
    requires Grounded(sc, shapes, g) && g.phase.Some? && Inv(sc, w, {}) && Evolves(sc, g.world, w) && Shaped(shapes, memo.Keys)
    requires var a := Reconciled(shapes, w, memo, g.planners); h.world == a.world && h.memo == a.memo && h.planners == a.planners
    requires h == g.(world := h.world, memo := h.memo, planners := h.planners, flights := h.flights, batch := true, dirty := h.dirty, orphans := h.orphans)
    requires forall o :: o in h.flights ==> o in g.flights
    ensures Grounded(sc, shapes, h) && Evolves(sc, g.world, h.world) && SameObservations(w, h.world)
    ensures forall i, v :: 0 <= i < |shapes| && Consistent(shapes[i], g.planners[i], v) ==> Consistent(shapes[i], h.planners[i], v)
    ensures w.removedComponentOwners == [] ==> h.planners == g.planners
  {
    ReconciledFrame(sc, shapes, w, memo, g.planners);
    EvolvesTransitive(sc, g.world, w, h.world);
    if g.cache.Some? { FollowsLater(sc, g.cache.value, g.world, h.world); }
  }

  /** A commit that changed nothing removed nothing, so it forced nothing and moved no gate. */
  lemma AcceptIsGated(sc: Schema, shapes: seq<Shape>, g: Engine, h: Engine, w: WorldState)
    requires Gated(shapes, g) && g.world.removedComponentOwners == [] && g.wave.None? && |h.planners| == |g.planners| == |shapes|
    requires h == g.(world := h.world, memo := h.memo, planners := h.planners, flights := h.flights, batch := true, dirty := h.dirty, orphans := h.orphans)
    requires h.dirty == (g.dirty || CountersMoved(g.world, w))
    requires Tracks(g.world, w) && Evolves(sc, g.world, w) && SameObservations(w, h.world)
    requires w.removedComponentOwners == [] ==> h.planners == g.planners
    ensures Gated(shapes, h)
  {
    if !h.dirty {
      forall i | 0 <= i < |shapes| && Gate(shapes, h, i, h.world) ensures Gate(shapes, g, i, g.world) {
        assert w.removedComponentOwners == [];
        GateUnmoved(shapes[i], g.planners[i], g.world, w);
        GateUnmoved(shapes[i], g.planners[i], w, h.world);
      }
    }
  }

  // ---- dropping work ----

  lemma ResetCoversAll(sc: Schema, shapes: seq<Shape>, w: WorldState, planners: seq<Planner>, known: Known, inflight: set<Owner>)
    requires |planners| == |shapes| && forall i :: 0 <= i < |shapes| ==> shapes[i].Valid()
    ensures CoveredAll(sc, shapes, w, AllReset(planners), known, inflight) && ConsistentAll(shapes, w, AllReset(planners))
  {
    forall i | 0 <= i < |shapes|
      ensures Covered(sc, w, w, i, shapes[i], AllReset(planners)[i], known, inflight)
      ensures Consistent(shapes[i], AllReset(planners)[i], w)
    {
      ResetCovers(sc, w, w, i, shapes[i], planners[i], known, inflight);
    }
  }

  lemma DropKeepsOk(sc: Schema, shapes: seq<Shape>, g: Engine, ev: Event)
    requires Ok(sc, shapes, g) && Enabled(sc, shapes, g, ev)
    requires ev.Preempt? || ev.Restart? || ev.Abandon?
    ensures Ok(sc, shapes, Step(sc, shapes, g, ev))
  {
    var h := Step(sc, shapes, g, ev);
    if ev.Preempt? {
      OkHasParts(sc, shapes, g);
      PreemptIsGrounded(sc, shapes, g);
    } else {
      ResetCoversAll(sc, shapes, g.world, g.planners, OnRecord(h), Excused(h));
      RestIsGated(shapes, h);
      ResetIsGrounded(sc, shapes, g, h);
    }
    OkFromParts(sc, shapes, h);
  }

  lemma PreemptIsGrounded(sc: Schema, shapes: seq<Shape>, g: Engine)
    requires Grounded(sc, shapes, g) && Gated(shapes, g) && Enabled(sc, shapes, g, Preempt)
    ensures var h := Step(sc, shapes, g, Preempt); Grounded(sc, shapes, h) && Gated(shapes, h)
  {}

  /** Every planner starts over; the table stays with the driver, or is delivered by its guard. */
  lemma ResetIsGrounded(sc: Schema, shapes: seq<Shape>, g: Engine, h: Engine)
    requires Grounded(sc, shapes, g)
    requires h == g.(flights := map[], wave := None, planners := AllReset(g.planners), draining := false, phase := None, orphans := {},
                     store := h.store, memo := h.memo, running := h.running)
    requires (h.store == g.store && h.memo == g.memo && h.running == g.running) || (h.store == g.memo && h.memo == map[])
    ensures Grounded(sc, shapes, h)
  {}
}
