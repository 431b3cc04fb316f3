/** No run of the phase loop misses an invalidated row. */
module PhaseProofs {
  import opened Ids
  import opened World
  import opened Queries
  import opened Joins
  import opened Hints
  import opened Planners
  import opened Coverage
  import opened Admission
  import opened Phases
  import opened RemovedLists

  // ---- the invariant ----

  /** Equal counters since an earlier state mean equal observations: the cached snapshot is as good as a fresh one. */
  ghost predicate Follows(w: WorldState, w': WorldState) {
    && w.revision <= w'.revision && w.mutations <= w'.mutations
    && (w.revision == w'.revision && w.mutations == w'.mutations ==> SameObservations(w, w'))
  }

  /** The tables of the engine and of its tasks are about registered systems; tasks run settle systems only. */
  ghost predicate TablesFit(shapes: seq<Shape>, g: Engine) {
    && Shaped(shapes, g.store.Keys) && Shaped(shapes, g.memo.Keys) && Shaped(shapes, g.flights.Keys)
    && forall id :: id in g.tasks ==> TaskFits(shapes, g.tasks[id])
  }

  ghost predicate TaskFits(shapes: seq<Shape>, task: Task) {
    && Shaped(shapes, task.memo.Keys) && Shaped(shapes, task.flights.Keys)
    && forall o :: o in task.flights ==> shapes[o.system].phase.Settle?
  }

  ghost predicate Grounded(sc: Schema, shapes: seq<Shape>, g: Engine) {
    && sc.Valid()
    && (forall i :: 0 <= i < |shapes| ==> shapes[i].Valid())
    && |g.planners| == |shapes|
    && Inv(sc, g.world, {})
    && g.world.removedEntities == [] && g.world.removedOwners == [] && g.world.removedComponentOwners == []
    && TablesFit(shapes, g)
    && (!g.running ==> g.memo == map[] && g.phase.None?)
    && (g.phase.None? ==> g.flights == map[] && g.wave.None? && !g.draining)
    && g.phase != Some(Settle)
    && SettleFresh(shapes, g.planners)
    && (g.cache.Some? ==> Inv(sc, g.cache.value, {}) && Follows(g.cache.value, g.world))
  }

  /** No wave ever plans a settle system, so its mark and cursor stay unset: each of its rows is due at any time. */
  ghost predicate SettleFresh(shapes: seq<Shape>, planners: seq<Planner>)
    requires |planners| == |shapes|
  {
    forall i :: 0 <= i < |shapes| && shapes[i].phase.Settle? ==> planners[i].mark.None? && planners[i].epoch.None?
  }

  ghost predicate WaveOk(sc: Schema, shapes: seq<Shape>, wave: Wave, w: WorldState) {
    && wave.next <= |shapes|
    && Inv(sc, wave.base, {}) && Inv(sc, wave.snap, {})
    && SameObservations(wave.snap, wave.base)
    && Evolves(sc, wave.base, w)
  }

  /** The state a system's coverage is stated in: the wave's, until the wave has dealt with it. */
  function ViewOf(g: Engine, i: nat): WorldState {
    if g.wave.Some? && g.wave.value.next <= i then g.wave.value.base else g.world
  }

  /** Every matching row of every system is up to date, excused, or due. While readers are being dropped it need not be. */
  ghost predicate Safe(sc: Schema, shapes: seq<Shape>, g: Engine)
    requires Grounded(sc, shapes, g)
  {
    forall i :: 0 <= i < |shapes| ==>
      && Consistent(shapes[i], g.planners[i], ViewOf(g, i))
      && (!g.draining ==> Covered(sc, ViewOf(g, i), g.world, i, shapes[i], g.planners[i], OnRecord(g), Excused(g)))
  }

  /** An open gate is one the loop knows it has to come back to. */
  ghost predicate Gated(shapes: seq<Shape>, g: Engine) {
    && (g.dirty ==> g.batch)
    && (g.wave.Some? ==> g.needsPlan && !g.batch && !g.draining)
    && (g.conflicts && !g.draining && g.phase.Some? ==> g.flights != map[] || g.batch || (g.needsPlan && g.wave.None?))
    && (!g.interfered && !g.draining ==>
          forall i :: 0 <= i < |shapes| && Gate(shapes, g, i, g.world) ==>
            (g.needsPlan && g.wave.None?) || g.dirty || g.conflicts || (g.wave.Some? && g.wave.value.next <= i))
    && (!g.interfered && g.wave.Some? ==>
          g.world.revision == g.wave.value.base.revision && g.world.mutations == g.wave.value.base.mutations)
  }

  ghost predicate Ok(sc: Schema, shapes: seq<Shape>, g: Engine) {
    && Grounded(sc, shapes, g)
    && (g.wave.Some? ==> WaveOk(sc, shapes, g.wave.value, g.world))
    && Safe(sc, shapes, g)
    && Gated(shapes, g)
  }

  /** Equal counters along a run leave every gate as it was. */
  lemma GateUnmoved(sh: Shape, p: Planner, w: WorldState, w': WorldState)
    requires SameObservations(w, w')
    ensures Open(sh, p, w) == Open(sh, p, w')
    ensures HighMark(w, sh.Interest()) == HighMark(w', sh.Interest())
  {
    HighMarkSame(w, w', sh.Interest());
  }

  lemma ObservedRowIsSame(sc: Schema, w: WorldState, w': WorldState, sh: Shape, row: seq<Entity>)
    requires sh.Valid() && |row| == |sh.queries| && SameObservations(w, w')
    ensures IsRow(w, sh, row) <==> IsRow(w', sh, row)
    ensures Deps(sc, w, sh, row) == Deps(sc, w', sh, row)
  {
    assert !Moved(w, w', sh, row);
    UnmovedRowIsSame(sc, w, w', sh, row);
  }

  // ---- planning one system ----

  /** A full plan enumerates every row; a hinted one every row that was due under its hint. */
  lemma PlanEnumerates(sc: Schema, sh: Shape, p: Planner, wave: Wave, row: seq<Entity>)
    requires sc.Valid() && sh.Valid() && Inv(sc, wave.snap, {}) && IsRow(wave.snap, sh, row)
    requires NextHint(sh, p, wave.base).None? || Touches(row, NextHint(sh, p, wave.base).value)
    ensures row in PlannedRows(sc, sh, p, wave)
  {
    if NextHint(sh, p, wave.base).Some? {
      TouchedRowsArePlanned(sc, wave.snap, sh.queries, NextHint(sh, p, wave.base).value, row);
    }
  }

  lemma ConsumedIsConsistent(sh: Shape, p: Planner, wave: Wave)
    requires Consistent(sh, p, wave.base) && SameObservations(wave.snap, wave.base)
    ensures var p' := Consumed(sh, Marked(sh, p, wave.snap), wave.base);
      Consistent(sh, p', wave.base) && !Open(sh, p', wave.base)
  {
    GateUnmoved(sh, p, wave.snap, wave.base);
  }

  /** Planning a covered system leaves it covered in the live world, which may have moved since the snapshot. */
  lemma PlanCovers(sc: Schema, shapes: seq<Shape>, i: nat, p: Planner, wave: Wave, w: WorldState, memo: Memo, known: Known,
                   flights: Flights, conflicts: bool, lost: set<Owner>)
    requires sc.Valid() && i < |shapes| && shapes[i].Valid() && WaveOk(sc, shapes, wave, w)
    requires Consistent(shapes[i], p, wave.base) && Shaped(shapes, flights.Keys)
    requires Covered(sc, wave.base, w, i, shapes[i], p, known, flights.Keys + lost) && Records(memo) <= known
    requires RowsFit(shapes, i, PlannedRows(sc, shapes[i], Marked(shapes[i], p, wave.snap), wave))
    ensures var q := Marked(shapes[i], p, wave.snap);
      var start := Admitting(Consumed(shapes[i], q, wave.base), flights, conflicts);
      var done := AdmitRows(sc, shapes, i, wave.snap, memo, PlannedRows(sc, shapes[i], q, wave), start);
      && Covered(sc, w, w, i, shapes[i], done.p, known, done.flights.Keys + lost)
      && Consistent(shapes[i], done.p, w)
      && Advances(shapes[i], w, start, done)
  {
    var sh := shapes[i];
    var q := Marked(sh, p, wave.snap);
    var rows := PlannedRows(sc, sh, q, wave);
    var start := Admitting(Consumed(sh, q, wave.base), flights, conflicts);
    var done := AdmitRows(sc, shapes, i, wave.snap, memo, rows, start);
    AdmitRowsSettle(sc, shapes, i, wave.snap, w, memo, rows, start);
    ConsumedIsConsistent(sh, p, wave);
    ConsistentLater(sc, sh, start.p, wave.base, w);
    forall row | IsRow(w, sh, row) && |row| == |sh.queries|
      ensures Recalled(sc, w, sh, known, Owner(i, row)) || Owner(i, row) in done.flights.Keys + lost || Due(sh, done.p, w, row)
    {
      if Disturbed(wave.base, w, sh, row) {
        DisturbedRowIsDue(sc, wave.base, w, sh, start.p, row);
      } else {
        if Moved(wave.base, w, sh, row) { MovedIsDisturbed(wave.base, w, sh, row); }
        UnmovedRowIsSame(sc, wave.base, w, sh, row);
        ObservedRowIsSame(sc, wave.snap, wave.base, sh, row);
        PlannedRowIsCovered(sc, shapes, i, p, wave, w, known, flights.Keys + lost, row);
        if row in rows {
          var k :| 0 <= k < |rows| && rows[k] == row;
          assert Settled(sc, sh, i, wave.snap, w, memo, rows[k], done);
          CurrentIsRecalled(sc, wave.snap, sh, memo, known, Owner(i, row));
        }
      }
    }
  }

  lemma CurrentIsRecalled(sc: Schema, w: WorldState, sh: Shape, memo: Memo, known: Known, o: Owner)
    requires |o.keys| == |sh.queries| && Records(memo) <= known
    ensures MemoCurrent(sc, w, sh, memo, o) ==> Recalled(sc, w, sh, known, o)
  {
    if MemoCurrent(sc, w, sh, memo, o) { assert (o, memo[o]) in Records(memo); }
  }

  /** An undisturbed row the plan leaves out was on record as it stands, or excused already. */
  lemma PlannedRowIsCovered(sc: Schema, shapes: seq<Shape>, i: nat, p: Planner, wave: Wave, w: WorldState, known: Known, excused: set<Owner>, row: seq<Entity>)
    requires sc.Valid() && i < |shapes| && shapes[i].Valid() && Inv(sc, wave.snap, {})
    requires |row| == |shapes[i].queries| && IsRow(wave.base, shapes[i], row) && IsRow(wave.snap, shapes[i], row)
    requires Covered(sc, wave.base, w, i, shapes[i], p, known, excused) && !Disturbed(wave.base, w, shapes[i], row)
    ensures || row in PlannedRows(sc, shapes[i], Marked(shapes[i], p, wave.snap), wave)
            || Recalled(sc, wave.base, shapes[i], known, Owner(i, row)) || Owner(i, row) in excused
  {
    if Due(shapes[i], p, wave.base, row) {
      assert NextHint(shapes[i], Marked(shapes[i], p, wave.snap), wave.base) == NextHint(shapes[i], p, wave.base);
      PlanEnumerates(sc, shapes[i], Marked(shapes[i], p, wave.snap), wave, row);
    }
  }

  lemma ConsistentLater(sc: Schema, sh: Shape, p: Planner, w: WorldState, w': WorldState)
    requires Consistent(sh, p, w) && RevisionsBounded(w) && Evolves(sc, w, w')
    ensures Consistent(sh, p, w')
  {
    forall t ensures Mark(w, t) <= Mark(w', t) { assert Mark(w, t) <= w.revision; }
    HighMarkGrows(w, w', sh.Interest());
  }

  /** The system whose turn it is ends covered in the live world, planned or not; no run is forgotten. */
  lemma TurnCovers(sc: Schema, shapes: seq<Shape>, g: Engine)
    requires Ok(sc, shapes, g) && g.wave.Some? && g.wave.value.next < |shapes|
    ensures var h := PlanNext(sc, shapes, g); var n := g.wave.value.next;
      && g.flights.Keys <= h.flights.Keys
      && Consistent(shapes[n], h.planners[n], g.world)
      && Covered(sc, g.world, g.world, n, shapes[n], h.planners[n], OnRecord(g), h.flights.Keys + g.orphans)
  {
    var wave := g.wave.value;
    var n := wave.next;
    assert ViewOf(g, n) == wave.base;
    if Gate(shapes, g, n, wave.snap) {
      PlannedRowsFit(sc, shapes, n, Marked(shapes[n], g.planners[n], wave.snap), wave);
      PlanCovers(sc, shapes, n, g.planners[n], wave, g.world, g.memo, OnRecord(g), g.flights, g.conflicts, g.orphans);
    } else {
      CatchesUp(sc, wave.base, g.world, n, shapes[n], g.planners[n], OnRecord(g), Excused(g));
    }
  }

  /** Planning one system touches its planner, the flights and the conflict flag, and passes the turn. */
  lemma PassedFrame(g: Engine, done: Option<Admitting>)
    requires g.wave.Some? && g.wave.value.next < |g.planners|
    ensures var h := Passed(g, done); var n := g.wave.value.next;
      && h == g.(planners := h.planners, flights := h.flights, conflicts := h.conflicts, wave := Some(g.wave.value.(next := n + 1)))
      && |h.planners| == |g.planners|
      && (h.flights == if done.Some? then done.value.flights else g.flights)
      && forall i :: 0 <= i < |g.planners| && i != n ==> h.planners[i] == g.planners[i]
  {}

  lemma OthersStayCovered(sc: Schema, shapes: seq<Shape>, g: Engine, h: Engine, i: nat)
    requires Ok(sc, shapes, g) && g.wave.Some? && |h.planners| == |shapes| && i < |shapes| && i != g.wave.value.next
    requires h.world == g.world && OnRecord(h) == OnRecord(g) && h.orphans == g.orphans && h.planners[i] == g.planners[i] && g.flights.Keys <= h.flights.Keys
    requires h.wave == Some(g.wave.value.(next := g.wave.value.next + 1))
    ensures Consistent(shapes[i], h.planners[i], ViewOf(h, i))
    ensures Covered(sc, ViewOf(h, i), h.world, i, shapes[i], h.planners[i], OnRecord(h), Excused(h))
  {
    assert ViewOf(h, i) == ViewOf(g, i);
    MoreCovers(sc, ViewOf(g, i), g.world, i, shapes[i], g.planners[i], OnRecord(g), Excused(g), OnRecord(h), Excused(h));
  }

  lemma TurnIsGrounded(sc: Schema, shapes: seq<Shape>, g: Engine, h: Engine)
    requires Grounded(sc, shapes, g) && g.wave.Some? && |h.planners| == |shapes| && SettleFresh(shapes, h.planners) && Shaped(shapes, h.flights.Keys)
    requires h == g.(planners := h.planners, flights := h.flights, conflicts := h.conflicts, wave := h.wave)
    ensures Grounded(sc, shapes, h)
  {}

  /** Only systems of the phase are planned, so settle systems are left alone. */
  lemma PlanSystemKeepsSettleFresh(sc: Schema, shapes: seq<Shape>, g: Engine)
    requires Grounded(sc, shapes, g) && g.wave.Some? && g.wave.value.next < |shapes|
    ensures SettleFresh(shapes, PlanNext(sc, shapes, g).planners)
  {
    PassedFrame(g, Outcome(sc, shapes, g));
  }

  lemma PlanSystemIsSafe(sc: Schema, shapes: seq<Shape>, g: Engine)
    requires Ok(sc, shapes, g) && g.wave.Some? && g.wave.value.next < |shapes|
    ensures var h := PlanNext(sc, shapes, g);
      Grounded(sc, shapes, h) && WaveOk(sc, shapes, h.wave.value, h.world) && Safe(sc, shapes, h)
  {
    var n := g.wave.value.next;
    var h := PlanNext(sc, shapes, g);
    PassedFrame(g, Outcome(sc, shapes, g));
    PlanSystemKeepsSettleFresh(sc, shapes, g);
    TurnIsGrounded(sc, shapes, g, h);
    TurnCovers(sc, shapes, g);
    forall i | 0 <= i < |shapes|
      ensures Consistent(shapes[i], h.planners[i], ViewOf(h, i))
      ensures Covered(sc, ViewOf(h, i), h.world, i, shapes[i], h.planners[i], OnRecord(h), Excused(h))
    {
      if i != n { OthersStayCovered(sc, shapes, g, h, i); }
    }
  }

  /** A planned gate is shut in the live world unless a conflict put a row back, or the world has moved since. */
  lemma TurnShutsGate(sc: Schema, shapes: seq<Shape>, g: Engine)
    requires Ok(sc, shapes, g) && g.wave.Some? && g.wave.value.next < |shapes| && SameObservations(g.wave.value.base, g.world)
    requires Gate(shapes, g, g.wave.value.next, g.wave.value.snap)
    ensures var done := Turn(sc, shapes, g); var n := g.wave.value.next;
      && (Open(shapes[n], done.p, g.world) ==> done.conflicts)
  {
    var wave := g.wave.value;
    var n := wave.next;
    assert ViewOf(g, n) == wave.base;
    PlannedRowsFit(sc, shapes, n, Marked(shapes[n], g.planners[n], wave.snap), wave);
    PlanCovers(sc, shapes, n, g.planners[n], wave, g.world, g.memo, OnRecord(g), g.flights, g.conflicts, g.orphans);
    ConsumedIsConsistent(shapes[n], g.planners[n], wave);
    GateUnmoved(shapes[n], Consumed(shapes[n], Marked(shapes[n], g.planners[n], wave.snap), wave.base), wave.base, g.world);
  }

  /** A conflict is with a run in flight. */
  lemma TurnConflicts(sc: Schema, shapes: seq<Shape>, g: Engine)
    requires Ok(sc, shapes, g) && g.wave.Some? && g.wave.value.next < |shapes|
    ensures var done := Turn(sc, shapes, g);
      && (g.conflicts ==> done.conflicts) && (done.conflicts ==> g.conflicts || done.flights.Keys != {})
      && g.flights.Keys <= done.flights.Keys
  {
    var wave := g.wave.value;
    var n := wave.next;
    var p := Marked(shapes[n], g.planners[n], wave.snap);
    PlannedRowsFit(sc, shapes, n, p, wave);
    AdmitRowsSettle(sc, shapes, n, wave.snap, g.world, g.memo, PlannedRows(sc, shapes[n], p, wave),
                    Admitting(Consumed(shapes[n], p, wave.base), g.flights, g.conflicts));
  }

  lemma PlanSystemIsGated(sc: Schema, shapes: seq<Shape>, g: Engine)
    requires Ok(sc, shapes, g) && g.wave.Some? && g.wave.value.next < |shapes|
    ensures Gated(shapes, PlanNext(sc, shapes, g))
  {
    var wave := g.wave.value;
    var n := wave.next;
    var h := PlanNext(sc, shapes, g);
    var planned := Gate(shapes, g, n, wave.snap);
    PassedFrame(g, Outcome(sc, shapes, g));
    TurnConflicts(sc, shapes, g);
    if !h.interfered {
      assert SameObservations(wave.base, g.world);
      if planned { TurnShutsGate(sc, shapes, g); }
      GateUnmoved(shapes[n], g.planners[n], wave.snap, wave.base);
      GateUnmoved(shapes[n], g.planners[n], wave.base, g.world);
      forall i | 0 <= i < |shapes| && Gate(shapes, h, i, h.world) ensures h.conflicts || wave.next + 1 <= i {
        if i != n { assert Gate(shapes, g, i, g.world); }
      }
    }
  }
}
