/** Memoization: a row on record as it stands is neither run again nor forced back, by a wave or by a settle. */
module Memoization {
  import opened Ids
  import opened World
  import opened Queries
  import opened Joins
  import opened Hints
  import opened Planners
  import opened Coverage
  import opened Admission
  import opened Phases
  import opened PhaseProofs
  import opened OutsideSteps
  import opened EngineRuns
  import opened Exclusion
  import opened Walking
  import A = Accesses

  /** The table holds, for this row, its dependencies as the snapshot has them. */
  ghost predicate Remembered(sc: Schema, snap: WorldState, sh: Shape, memo: Memo, o: Owner)
    requires |o.keys| == |sh.queries|
  {
    o in memo && memo[o] == Deps(sc, snap, sh, o.keys)
  }

  /** The row is among those listed, and not remembered. */
  ghost predicate Called(sc: Schema, sh: Shape, id: nat, snap: WorldState, memo: Memo, rows: seq<seq<Entity>>, row: seq<Entity>) {
    row in rows && |row| == |sh.queries| && !Remembered(sc, snap, sh, memo, Owner(id, row))
  }

  /** Behind a run in flight that mutates what the row touches, or touches what it mutates. */
  ghost predicate Blocked(shapes: seq<Shape>, flights: Flights, o: Owner) {
    exists f :: f in flights && !Compatible(shapes, o, f)
  }

  /**
   What planning listed rows may do: start rows that were called for, each from this snapshot, and force back rows that
   were called for and are blocked; nothing else.
   */
  ghost predicate OnlyCalled(sc: Schema, shapes: seq<Shape>, id: nat, snap: WorldState, memo: Memo, rows: seq<seq<Entity>>, a: Admitting, b: Admitting)
    requires id < |shapes|
  {
    && (forall o :: o in a.flights ==> o in b.flights && b.flights[o] == a.flights[o])
    && (forall o :: o in b.flights && o !in a.flights ==>
          o.system == id && Called(sc, shapes[id], id, snap, memo, rows, o.keys) && b.flights[o] == snap)
    && (forall e :: e in b.p.forced && e !in a.p.forced ==>
          exists row :: e in row && Called(sc, shapes[id], id, snap, memo, rows, row) && Blocked(shapes, b.flights, Owner(id, row)))
    && ((b.p != a.p || b.conflicts != a.conflicts) ==>
          exists row :: Called(sc, shapes[id], id, snap, memo, rows, row) && Blocked(shapes, b.flights, Owner(id, row)))
  }

  lemma RefusedIsBlocked(shapes: seq<Shape>, flights: Flights, o: Owner)
    requires Shaped(shapes, flights.Keys) && Shaped(shapes, {o})
    ensures Refused(shapes, flights, o) <==> Blocked(shapes, flights, o)
  {
    if Refused(shapes, flights, o) {
      var f :| f in flights && A.Clash(AccessOf(shapes, o), AccessOf(shapes, f));
      ClashIff(shapes[o.system], o.keys, shapes[f.system], f.keys);
      assert !Compatible(shapes, o, f);
    }
    if Blocked(shapes, flights, o) {
      var f :| f in flights && !Compatible(shapes, o, f);
      ClashIff(shapes[o.system], o.keys, shapes[f.system], f.keys);
      assert A.Clash(AccessOf(shapes, o), AccessOf(shapes, f));
    }
  }

  lemma BlockedStays(shapes: seq<Shape>, flights: Flights, more: Flights, o: Owner)
    requires Blocked(shapes, flights, o) && flights.Keys <= more.Keys
    ensures Blocked(shapes, more, o)
  {
    var f :| f in flights && !Compatible(shapes, o, f);
    assert f in more;
  }

  lemma StartedWasCalled(sc: Schema, shapes: seq<Shape>, id: nat, snap: WorldState, memo: Memo, row: seq<Entity>, a: Admitting)
    requires id < |shapes| && Called(sc, shapes[id], id, snap, memo, [row], row) && Owner(id, row) !in a.flights
    ensures OnlyCalled(sc, shapes, id, snap, memo, [row], a, a.(flights := a.flights[Owner(id, row) := snap]))
  {}

  lemma ForcedWasCalled(sc: Schema, shapes: seq<Shape>, id: nat, snap: WorldState, memo: Memo, row: seq<Entity>, a: Admitting)
    requires id < |shapes| && Called(sc, shapes[id], id, snap, memo, [row], row) && Blocked(shapes, a.flights, Owner(id, row))
    ensures OnlyCalled(sc, shapes, id, snap, memo, [row], a, a.(p := ForceReplan(shapes[id], a.p, row), conflicts := true))
  {
    var p := ForceReplan(shapes[id], a.p, row);
    forall e | e in p.forced && e !in a.p.forced ensures e in row {}
  }

  lemma NothingCalled(sc: Schema, shapes: seq<Shape>, id: nat, snap: WorldState, memo: Memo, rows: seq<seq<Entity>>, a: Admitting)
    requires id < |shapes|
    ensures OnlyCalled(sc, shapes, id, snap, memo, rows, a, a)
  {}

  lemma AdmitsOnlyCalled(sc: Schema, shapes: seq<Shape>, id: nat, snap: WorldState, memo: Memo, row: seq<Entity>, a: Admitting)
    requires id < |shapes| && |row| == |shapes[id].queries| && Shaped(shapes, a.flights.Keys)
    ensures OnlyCalled(sc, shapes, id, snap, memo, [row], a, Admit(sc, shapes, id, snap, memo, row, a))
  {
    var o := Owner(id, row);
    if Remembered(sc, snap, shapes[id], memo, o) || o in a.flights {
      NothingCalled(sc, shapes, id, snap, memo, [row], a);
    } else if Refused(shapes, a.flights, o) {
      RefusedIsBlocked(shapes, a.flights, o);
      ForcedWasCalled(sc, shapes, id, snap, memo, row, a);
    } else {
      StartedWasCalled(sc, shapes, id, snap, memo, row, a);
    }
  }

  lemma {:induction false} AdmitsRowsOnlyCalled(sc: Schema, shapes: seq<Shape>, id: nat, snap: WorldState, memo: Memo, rows: seq<seq<Entity>>, a: Admitting)
    requires RowsFit(shapes, id, rows) && Shaped(shapes, a.flights.Keys)
    ensures OnlyCalled(sc, shapes, id, snap, memo, rows, a, AdmitRows(sc, shapes, id, snap, memo, rows, a))
    decreases |rows|
  {
    if rows != [] {
      var next := Admit(sc, shapes, id, snap, memo, rows[0], a);
      AdmitsOnlyCalled(sc, shapes, id, snap, memo, rows[0], a);
      AdmitsRowsOnlyCalled(sc, shapes, id, snap, memo, rows[1..], next);
      OnlyCalledTwice(sc, shapes, id, snap, memo, rows, a, next, AdmitRows(sc, shapes, id, snap, memo, rows, a));
    } else {
      NothingCalled(sc, shapes, id, snap, memo, rows, a);
    }
  }

  lemma OnlyCalledTwice(sc: Schema, shapes: seq<Shape>, id: nat, snap: WorldState, memo: Memo, rows: seq<seq<Entity>>, a: Admitting, next: Admitting, b: Admitting)
    requires id < |shapes| && rows != []
    requires OnlyCalled(sc, shapes, id, snap, memo, [rows[0]], a, next) && OnlyCalled(sc, shapes, id, snap, memo, rows[1..], next, b)
    ensures OnlyCalled(sc, shapes, id, snap, memo, rows, a, b)
  {
    var sh := shapes[id];
    assert a.flights.Keys <= next.flights.Keys <= b.flights.Keys;
    forall row ensures Called(sc, sh, id, snap, memo, [rows[0]], row) || Called(sc, sh, id, snap, memo, rows[1..], row) ==> Called(sc, sh, id, snap, memo, rows, row) {}
    forall e | e in b.p.forced && e !in a.p.forced
      ensures exists row :: e in row && Called(sc, sh, id, snap, memo, rows, row) && Blocked(shapes, b.flights, Owner(id, row))
    {
      if e in next.p.forced {
        var row :| e in row && Called(sc, sh, id, snap, memo, [rows[0]], row) && Blocked(shapes, next.flights, Owner(id, row));
        BlockedStays(shapes, next.flights, b.flights, Owner(id, row));
      }
    }
    if b.p != a.p || b.conflicts != a.conflicts {
      if next.p != a.p || next.conflicts != a.conflicts {
        var row :| Called(sc, sh, id, snap, memo, [rows[0]], row) && Blocked(shapes, next.flights, Owner(id, row));
        BlockedStays(shapes, next.flights, b.flights, Owner(id, row));
      }
    }
  }

  // ---- a wave ----

  /** The rows a wave's next system lists. */
  ghost predicate ListedNext(sc: Schema, shapes: seq<Shape>, g: Engine, row: seq<Entity>)
    requires g.wave.Some? && g.wave.value.next < |shapes| == |g.planners| && shapes[g.wave.value.next].Valid()
  {
    row in PlannedRows(sc, shapes[g.wave.value.next], g.planners[g.wave.value.next], g.wave.value)
  }

  /** A row listed next that the generation's table does not remember as the wave's snapshot has it. */
  ghost predicate CalledNext(sc: Schema, shapes: seq<Shape>, g: Engine, row: seq<Entity>)
    requires g.wave.Some? && g.wave.value.next < |shapes| == |g.planners| && shapes[g.wave.value.next].Valid()
  {
    var i := g.wave.value.next;
    ListedNext(sc, shapes, g, row) && |row| == |shapes[i].queries| && !Remembered(sc, g.wave.value.snap, shapes[i], g.memo, Owner(i, row))
  }

  /** Whatever the turn puts in flight belongs to the running phase, starts from the wave's snapshot, and was called for. */
  ghost predicate StartsOnlyCalled(sc: Schema, shapes: seq<Shape>, g: Engine, flights: Flights)
    requires g.wave.Some? && g.wave.value.next < |shapes| == |g.planners| && shapes[g.wave.value.next].Valid()
  {
    && (forall o :: o in g.flights ==> o in flights && flights[o] == g.flights[o])
    && (forall o :: o in flights && o !in g.flights ==>
          && o.system == g.wave.value.next && g.phase == Some(shapes[g.wave.value.next].phase)
          && CalledNext(sc, shapes, g, o.keys) && flights[o] == g.wave.value.snap)
  }

  /** Whatever it forces is a key of a row called for, behind a run in flight. */
  ghost predicate ForcesOnlyCalled(sc: Schema, shapes: seq<Shape>, g: Engine, flights: Flights, p: Planner)
    requires g.wave.Some? && g.wave.value.next < |shapes| == |g.planners| && shapes[g.wave.value.next].Valid()
  {
    forall e :: e in p.forced && e !in g.planners[g.wave.value.next].forced ==>
      exists row :: e in row && CalledNext(sc, shapes, g, row) && Blocked(shapes, flights, Owner(g.wave.value.next, row))
  }

  /** What is left of admission: where it began, and where it ended. */
  lemma TurnAdmits(sc: Schema, shapes: seq<Shape>, g: Engine) returns (a: Admitting, b: Admitting)
    requires Fits(shapes, g, PlanSystem) && Gate(shapes, g, g.wave.value.next, g.wave.value.snap)
    ensures var i := g.wave.value.next; var sh := shapes[i];
      && OnlyCalled(sc, shapes, i, g.wave.value.snap, g.memo, PlannedRows(sc, sh, g.planners[i], g.wave.value), a, b)
      && a == Admitting(Consumed(sh, Marked(sh, g.planners[i], g.wave.value.snap), g.wave.value.base), g.flights, g.conflicts)
      && Step(sc, shapes, g, PlanSystem) == Passed(g, Some(b))
  {
    var wave := g.wave.value;
    var i := wave.next;
    var p := Marked(shapes[i], g.planners[i], wave.snap);
    var rows := PlannedRows(sc, shapes[i], p, wave);
    a := Admitting(Consumed(shapes[i], p, wave.base), g.flights, g.conflicts);
    b := Turn(sc, shapes, g);
    PlannedRowsFit(sc, shapes, i, p, wave);
    AdmitsRowsOnlyCalled(sc, shapes, i, wave.snap, g.memo, rows, a);
    assert rows == PlannedRows(sc, shapes[i], g.planners[i], wave);
  }

  lemma CalledIsNext(sc: Schema, shapes: seq<Shape>, g: Engine, row: seq<Entity>)
    requires g.wave.Some? && g.wave.value.next < |shapes| == |g.planners| && shapes[g.wave.value.next].Valid()
    ensures var i := g.wave.value.next;
      Called(sc, shapes[i], i, g.wave.value.snap, g.memo, PlannedRows(sc, shapes[i], g.planners[i], g.wave.value), row) <==> CalledNext(sc, shapes, g, row)
  {}

  lemma AdmittedWereCalled(sc: Schema, shapes: seq<Shape>, g: Engine, a: Admitting, b: Admitting)
    requires g.wave.Some? && g.wave.value.next < |shapes| == |g.planners| && shapes[g.wave.value.next].Valid()
    requires var i := g.wave.value.next;
      OnlyCalled(sc, shapes, i, g.wave.value.snap, g.memo, PlannedRows(sc, shapes[i], g.planners[i], g.wave.value), a, b)
    requires a.flights == g.flights && g.phase == Some(shapes[g.wave.value.next].phase)
    ensures StartsOnlyCalled(sc, shapes, g, b.flights) && ForcesOnlyCalled(sc, shapes, g, b.flights, b.p)
    requires var i := g.wave.value.next; a.p == Consumed(shapes[i], Marked(shapes[i], g.planners[i], g.wave.value.snap), g.wave.value.base)
    ensures (forall row :: !CalledNext(sc, shapes, g, row)) ==>
              b.flights == a.flights && b.conflicts == a.conflicts && !Open(shapes[g.wave.value.next], b.p, g.wave.value.snap)
  {
    forall row ensures var i := g.wave.value.next;
      Called(sc, shapes[i], i, g.wave.value.snap, g.memo, PlannedRows(sc, shapes[i], g.planners[i], g.wave.value), row) <==> CalledNext(sc, shapes, g, row)
    {
      CalledIsNext(sc, shapes, g, row);
    }
    if forall row :: !CalledNext(sc, shapes, g, row) {
      assert b.flights.Keys == a.flights.Keys;
    }
  }

  /**
   A system's turn: it starts and forces only rows that are called for. When every row it lists is remembered, it starts
   nothing, leaves no conflict, and its gate is shut afterwards.
   */
  ghost predicate RanOnlyCalled(sc: Schema, shapes: seq<Shape>, g: Engine, h: Engine)
    requires g.wave.Some? && g.wave.value.next < |shapes| == |g.planners| && shapes[g.wave.value.next].Valid()
  {
    var i := g.wave.value.next;
    && |h.planners| == |shapes| && h.memo == g.memo && h.world == g.world && h.phase == g.phase
    && StartsOnlyCalled(sc, shapes, g, h.flights) && ForcesOnlyCalled(sc, shapes, g, h.flights, h.planners[i])
    && (forall j :: 0 <= j < |shapes| && j != i ==> h.planners[j] == g.planners[j])
    && ((forall row :: !CalledNext(sc, shapes, g, row)) ==>
          h.flights == g.flights && h.conflicts == g.conflicts && !Gate(shapes, h, i, g.wave.value.snap))
  }

  lemma PassedRanOnlyCalled(sc: Schema, shapes: seq<Shape>, g: Engine, b: Admitting)
    requires g.wave.Some? && g.wave.value.next < |shapes| == |g.planners| && shapes[g.wave.value.next].Valid()
    requires StartsOnlyCalled(sc, shapes, g, b.flights) && ForcesOnlyCalled(sc, shapes, g, b.flights, b.p)
    requires (forall row :: !CalledNext(sc, shapes, g, row)) ==>
               b.flights == g.flights && b.conflicts == g.conflicts && !Open(shapes[g.wave.value.next], b.p, g.wave.value.snap)
    ensures RanOnlyCalled(sc, shapes, g, Passed(g, Some(b)))
  {
    PassedFrame(g, Some(b));
  }

  lemma SkippedRanOnlyCalled(sc: Schema, shapes: seq<Shape>, g: Engine)
    requires g.wave.Some? && g.wave.value.next < |shapes| == |g.planners| && shapes[g.wave.value.next].Valid()
    requires !Gate(shapes, g, g.wave.value.next, g.wave.value.snap)
    ensures RanOnlyCalled(sc, shapes, g, Passed(g, None))
  {
    PassedFrame(g, None);
  }

  lemma OpenTurnRunsOnlyCalled(sc: Schema, shapes: seq<Shape>, g: Engine)
    requires Fits(shapes, g, PlanSystem) && Gate(shapes, g, g.wave.value.next, g.wave.value.snap)
    ensures RanOnlyCalled(sc, shapes, g, Step(sc, shapes, g, PlanSystem))
  {
    var a, b := TurnAdmits(sc, shapes, g);
    AdmittedWereCalled(sc, shapes, g, a, b);
    PassedRanOnlyCalled(sc, shapes, g, b);
  }

  lemma ShutTurnPasses(sc: Schema, shapes: seq<Shape>, g: Engine)
    requires Fits(shapes, g, PlanSystem) && !Gate(shapes, g, g.wave.value.next, g.wave.value.snap)
    ensures Step(sc, shapes, g, PlanSystem) == Passed(g, None)
  {}

  lemma TurnRunsOnlyCalled(sc: Schema, shapes: seq<Shape>, g: Engine)
    requires Fits(shapes, g, PlanSystem)
    ensures RanOnlyCalled(sc, shapes, g, Step(sc, shapes, g, PlanSystem))
  {
    if Gate(shapes, g, g.wave.value.next, g.wave.value.snap) {
      OpenTurnRunsOnlyCalled(sc, shapes, g);
    } else {
      ShutTurnPasses(sc, shapes, g);
      SkippedRanOnlyCalled(sc, shapes, g);
    }
  }

  // ---- a settle ----

  lemma {:induction false} SettleOwnersAre(sc: Schema, shapes: seq<Shape>, snap: WorldState, memo: Memo, n: nat, o: Owner)
    requires n <= |shapes| && forall i :: 0 <= i < |shapes| ==> shapes[i].Valid()
    ensures o in SettleOwners(sc, shapes, snap, memo, n) <==>
              && o.system < n && shapes[o.system].phase.Settle? && IsRow(snap, shapes[o.system], o.keys)
              && |o.keys| == |shapes[o.system].queries| && !Remembered(sc, snap, shapes[o.system], memo, o)
  {
    if n > 0 {
      SettleOwnersAre(sc, shapes, snap, memo, n - 1, o);
      assert o == Owner(o.system, o.keys);
    }
  }

  lemma SettleFlightsAre(sc: Schema, shapes: seq<Shape>, snap: WorldState, memo: Memo, o: Owner)
    requires forall i :: 0 <= i < |shapes| ==> shapes[i].Valid()
    ensures o in SettleFlights(sc, shapes, snap, memo) <==>
              && o.system < |shapes| && shapes[o.system].phase.Settle? && IsRow(snap, shapes[o.system], o.keys)
              && |o.keys| == |shapes[o.system].queries| && !Remembered(sc, snap, shapes[o.system], memo, o)
    ensures o in SettleFlights(sc, shapes, snap, memo) ==> SettleFlights(sc, shapes, snap, memo)[o] == snap
  {
    SettleOwnersAre(sc, shapes, snap, memo, |shapes|, o);
  }

  lemma LaunchFlies(sc: Schema, shapes: seq<Shape>, g: Engine, id: nat)
    requires Fits(shapes, g, Launch(id))
    ensures var h := Step(sc, shapes, g, Launch(id));
      id in h.tasks && h.tasks[id].memo == g.tasks[id].memo && h.tasks[id].flights == SettleFlights(sc, shapes, Snapshot(g), g.tasks[id].memo)
  {}

  /**
   A settle launches, from one snapshot that observes what the live world does, exactly the rows of settle systems that the
   table it took does not remember.
   */
  lemma LaunchRunsExactly(sc: Schema, shapes: seq<Shape>, g: Engine, id: nat, o: Owner)
    requires Ok(sc, shapes, g) && id in g.tasks
    ensures SameObservations(Snapshot(g), g.world)
    ensures var h, snap := Step(sc, shapes, g, Launch(id)), Snapshot(g);
      && id in h.tasks && h.tasks[id].memo == g.tasks[id].memo
      && (o in h.tasks[id].flights <==>
            && o.system < |shapes| && shapes[o.system].phase.Settle? && IsRow(snap, shapes[o.system], o.keys)
            && |o.keys| == |shapes[o.system].queries| && !Remembered(sc, snap, shapes[o.system], g.tasks[id].memo, o))
      && (o in h.tasks[id].flights ==> h.tasks[id].flights[o] == snap)
  {
    SnapshotIsCurrent(sc, shapes, g);
    LaunchFlies(sc, shapes, g, id);
    SettleFlightsAre(sc, shapes, Snapshot(g), g.tasks[id].memo, o);
  }

  // ---- over runs ----

  /**
   Over every run: whatever a generation has in flight belongs to a system of the running phase, and the last event that put
   it there was a turn at which its row was called for.
   */
  lemma RunsOnlyCalled(sc: Schema, shapes: seq<Shape>, states: seq<Engine>, events: seq<Event>, k: nat, o: Owner) returns (m: nat)
    requires Run(sc, shapes, states, events) && k <= |events| && o in states[k].flights
    ensures m < k && events[m] == PlanSystem && o !in states[m].flights && forall n :: m < n <= k ==> o in states[n].flights
    ensures Fits(shapes, states[m], PlanSystem) && o.system == states[m].wave.value.next && CalledNext(sc, shapes, states[m], o.keys)
    ensures states[m].phase == Some(shapes[o.system].phase)
  {
    m := k - 1;
    StepOfRun(sc, shapes, states, events, m);
    if o in states[m].flights {
      m := RunsOnlyCalled(sc, shapes, states, events, m, o);
    } else if events[m] == PlanSystem {
      TurnRunsOnlyCalled(sc, shapes, states[m]);
    } else {
      StepDropsFlights(sc, shapes, states[m], events[m]);
      assert false;
    }
  }
}
