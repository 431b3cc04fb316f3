/** What an invocation may touch, in terms of its queries' own fields, and that no two in flight get in each other's way. */
module Exclusion {
  import opened Ids
  import opened World
  import opened Queries
  import opened Joins
  import opened Planners
  import opened Coverage
  import opened Admission
  import opened Phases
  import opened PhaseProofs
  import opened OutsideSteps
  import opened EngineRuns
  import opened Reads
  import opened Walking
  import A = Accesses
  import O = Output

  // ---- what a row touches ----

  /** The row mutates the component `t` of its key `e`. */
  ghost predicate Mutates(sh: Shape, row: seq<Entity>, t: TypeId, e: Entity)
    requires |row| == |sh.queries|
  {
    exists j :: 0 <= j < |row| && row[j] == e && t in sh.queries[j].mutates
  }

  /** The row looks at the component `t` of its key `e`, if only for its absence. */
  ghost predicate Looks(sh: Shape, row: seq<Entity>, t: TypeId, e: Entity)
    requires |row| == |sh.queries|
  {
    exists j :: 0 <= j < |row| && row[j] == e && LooksIn(sh.queries[j], t)
  }

  predicate LooksIn(q: Query, t: TypeId) {
    t in q.refs || t in q.optional || t in q.with || t in q.without || q.binding == EqOn(t)
  }

  /** The system views the whole store, tracked or ambient. */
  predicate Views(sh: Shape, t: TypeId) {
    t in sh.views || t in sh.ambient
  }

  /** One row mutates what the other looks at, mutates or views. */
  ghost predicate Disturbs(a: Shape, row: seq<Entity>, b: Shape, other: seq<Entity>)
    requires |row| == |a.queries| && |other| == |b.queries|
  {
    exists t, e: Entity :: Mutates(a, row, t, e) && (Mutates(b, other, t, e) || Looks(b, other, t, e) || Views(b, t))
  }

  lemma EachAre(kind: A.AccessKind, ts: seq<TypeId>, e: Option<Entity>, x: A.Access)
    ensures x in Each(kind, ts, e) <==> x.kind == kind && x.component in ts && x.entity == e
  {
    if x.kind == kind && x.component in ts && x.entity == e {
      var i :| 0 <= i < |ts| && ts[i] == x.component;
      assert Each(kind, ts, e)[i] == x;
    }
  }

  lemma QueryAccessAre(q: Query, e: Entity, x: A.Access)
    ensures x in QueryAccess(q, e) <==>
              x.entity == Some(e) && if x.kind.Write? then x.component in q.mutates else LooksIn(q, x.component)
  {
    EachAre(A.Read, q.refs, Some(e), x);
    EachAre(A.Write, q.mutates, Some(e), x);
    EachAre(A.Read, q.optional + q.with + q.without + Keyed(q), Some(e), x);
  }

  lemma {:induction false} QueriesAccessAre(ps: seq<Query>, row: seq<Entity>, x: A.Access)
    requires |row| == |ps|
    ensures x in QueriesAccess(ps, row) <==>
              && x.entity.Some?
              && exists j :: 0 <= j < |row| && row[j] == x.entity.value
                   && if x.kind.Write? then x.component in ps[j].mutates else LooksIn(ps[j], x.component)
  {
    if ps != [] {
      QueryAccessAre(ps[0], row[0], x);
      QueriesAccessAre(ps[1..], row[1..], x);
      if x.entity.Some? {
        if j :| 0 <= j < |row| && row[j] == x.entity.value
                && if x.kind.Write? then x.component in ps[j].mutates else LooksIn(ps[j], x.component) {
          if j > 0 { assert row[1..][j - 1] == row[j] && ps[1..][j - 1] == ps[j]; }
        }
        if j :| 0 <= j < |row[1..]| && row[1..][j] == x.entity.value
                && if x.kind.Write? then x.component in ps[1..][j].mutates else LooksIn(ps[1..][j], x.component) {
          assert row[j + 1] == row[1..][j] && ps[j + 1] == ps[1..][j];
        }
      }
    }
  }

  /** A row's access list: writes to what it mutates, reads of what it looks at, and shared access to what it views. */
  lemma RowAccessAre(sh: Shape, row: seq<Entity>, x: A.Access)
    requires |row| == |sh.queries|
    ensures x in RowAccess(sh, row) <==>
              if x.entity.None? then x.kind.Read? && Views(sh, x.component)
              else if x.kind.Write? then Mutates(sh, row, x.component, x.entity.value)
              else Looks(sh, row, x.component, x.entity.value)
  {
    QueriesAccessAre(sh.queries, row, x);
    EachAre(A.Read, sh.views + sh.ambient, None, x);
  }

  lemma DisturbingClashes(a: Shape, row: seq<Entity>, b: Shape, other: seq<Entity>)
    requires |row| == |a.queries| && |other| == |b.queries| && Disturbs(a, row, b, other)
    ensures A.Clash(RowAccess(a, row), RowAccess(b, other)) && A.Clash(RowAccess(b, other), RowAccess(a, row))
  {
    var t, e: Entity :| Mutates(a, row, t, e) && (Mutates(b, other, t, e) || Looks(b, other, t, e) || Views(b, t));
    var x := A.Access(A.Write, t, Some(e));
    var y := if Mutates(b, other, t, e) then x else if Looks(b, other, t, e) then A.Access(A.Read, t, Some(e)) else A.Access(A.Read, t, None);
    RowAccessAre(a, row, x);
    RowAccessAre(b, other, y);
    var i :| 0 <= i < |RowAccess(a, row)| && RowAccess(a, row)[i] == x;
    var j :| 0 <= j < |RowAccess(b, other)| && RowAccess(b, other)[j] == y;
    assert A.Conflicts(RowAccess(a, row)[i], RowAccess(b, other)[j]) && A.Conflicts(RowAccess(b, other)[j], RowAccess(a, row)[i]);
  }

  lemma ClashingDisturbs(a: Shape, row: seq<Entity>, b: Shape, other: seq<Entity>, x: A.Access, y: A.Access)
    requires |row| == |a.queries| && |other| == |b.queries| && x in RowAccess(a, row) && y in RowAccess(b, other)
    requires A.Conflicts(x, y) && x.kind.Write?
    ensures Disturbs(a, row, b, other)
  {
    RowAccessAre(a, row, x);
    RowAccessAre(b, other, y);
    assert Mutates(a, row, x.component, x.entity.value);
  }

  /** Two rows may not run together exactly when one mutates what the other mutates, looks at or views. */
  lemma ClashIff(a: Shape, row: seq<Entity>, b: Shape, other: seq<Entity>)
    requires |row| == |a.queries| && |other| == |b.queries|
    ensures A.Clash(RowAccess(a, row), RowAccess(b, other)) <==> Disturbs(a, row, b, other) || Disturbs(b, other, a, row)
  {
    var xs, ys := RowAccess(a, row), RowAccess(b, other);
    if Disturbs(a, row, b, other) { DisturbingClashes(a, row, b, other); }
    if Disturbs(b, other, a, row) { DisturbingClashes(b, other, a, row); }
    if A.Clash(xs, ys) {
      var i, j :| 0 <= i < |xs| && 0 <= j < |ys| && A.Conflicts(xs[i], ys[j]);
      assert xs[i] in xs && ys[j] in ys;
      if xs[i].kind.Write? {
        ClashingDisturbs(a, row, b, other, xs[i], ys[j]);
      } else {
        ClashingDisturbs(b, other, a, row, ys[j], xs[i]);
      }
    }
  }

  // ---- writers ----

  ghost predicate Mutator(sh: Shape, row: seq<Entity>)
    requires |row| == |sh.queries|
  {
    exists t, e: Entity :: Mutates(sh, row, t, e)
  }

  lemma {:induction false} WrittenAre(xs: seq<A.Access>, t: TypeId, e: Entity)
    ensures (t, e) in Written(xs) <==> A.Access(A.Write, t, Some(e)) in xs
  {
    if xs != [] { WrittenAre(xs[1..], t, e); }
  }

  /** An invocation counts as a writer exactly when it mutates something, and reconciles exactly what it mutates. */
  lemma WritersMutate(shapes: seq<Shape>, o: Owner)
    requires o.system < |shapes| && |o.keys| == |shapes[o.system].queries|
    ensures A.Writes(AccessOf(shapes, o)) <==> Mutator(shapes[o.system], o.keys)
    ensures forall t, e: Entity :: (t, e) in WrittenBy(shapes, o) <==> Mutates(shapes[o.system], o.keys, t, e)
  {
    var sh, xs := shapes[o.system], RowAccess(shapes[o.system], o.keys);
    forall t, e: Entity ensures (t, e) in WrittenBy(shapes, o) <==> Mutates(sh, o.keys, t, e) {
      WrittenAre(xs, t, e);
      RowAccessAre(sh, o.keys, A.Access(A.Write, t, Some(e)));
    }
    if A.Writes(xs) {
      var i :| 0 <= i < |xs| && xs[i].kind.Write?;
      assert xs[i] in xs;
      RowAccessAre(sh, o.keys, xs[i]);
      assert Mutates(sh, o.keys, xs[i].component, xs[i].entity.value);
    }
    if t, e: Entity :| Mutates(sh, o.keys, t, e) {
      var x := A.Access(A.Write, t, Some(e));
      RowAccessAre(sh, o.keys, x);
      var i :| 0 <= i < |xs| && xs[i] == x;
      assert xs[i].kind.Write?;
    }
  }

  /** A preemption keeps exactly the runs that mutate something. */
  lemma PreemptionKeepsMutators(sc: Schema, shapes: seq<Shape>, g: Engine, h: Engine)
    requires Takes(sc, shapes, g, Preempt, h)
    ensures forall o :: o in g.flights ==> o.system < |shapes| && |o.keys| == |shapes[o.system].queries|
    ensures forall o :: o in h.flights <==> o in g.flights && Mutator(shapes[o.system], o.keys)
  {
    forall o | o in g.flights ensures o in h.flights <==> Mutator(shapes[o.system], o.keys) {
      WritersMutate(shapes, o);
    }
  }

  // ---- in flight together ----

  ghost predicate Compatible(shapes: seq<Shape>, o: Owner, f: Owner) {
    o.system < |shapes| && |o.keys| == |shapes[o.system].queries| && f.system < |shapes| && |f.keys| == |shapes[f.system].queries| ==>
      !Disturbs(shapes[o.system], o.keys, shapes[f.system], f.keys) && !Disturbs(shapes[f.system], f.keys, shapes[o.system], o.keys)
  }

  ghost predicate AllCompatible(shapes: seq<Shape>, flights: Flights) {
    forall o, f :: o in flights && f in flights && o != f ==> Compatible(shapes, o, f)
  }

  lemma UnrefusedIsCompatible(shapes: seq<Shape>, flights: Flights, o: Owner, f: Owner)
    requires Shaped(shapes, {o, f}) && f in flights && !Refused(shapes, flights, o)
    ensures Compatible(shapes, o, f)
  {
    assert !A.Clash(AccessOf(shapes, o), AccessOf(shapes, f));
    ClashIff(shapes[o.system], o.keys, shapes[f.system], f.keys);
  }

  lemma AdmittedCompatible(sc: Schema, shapes: seq<Shape>, id: nat, snap: WorldState, memo: Memo, row: seq<Entity>, a: Admitting)
    requires id < |shapes| && |row| == |shapes[id].queries| && Shaped(shapes, a.flights.Keys) && AllCompatible(shapes, a.flights)
    ensures AllCompatible(shapes, Admit(sc, shapes, id, snap, memo, row, a).flights)
  {
    var o := Owner(id, row);
    if !Refused(shapes, a.flights, o) {
      forall f | f in a.flights ensures Compatible(shapes, o, f) && Compatible(shapes, f, o) {
        UnrefusedIsCompatible(shapes, a.flights, o, f);
      }
    }
  }

  lemma {:induction false} AdmittedRowsCompatible(sc: Schema, shapes: seq<Shape>, id: nat, snap: WorldState, memo: Memo, rows: seq<seq<Entity>>, a: Admitting)
    requires RowsFit(shapes, id, rows) && Shaped(shapes, a.flights.Keys) && AllCompatible(shapes, a.flights)
    ensures AllCompatible(shapes, AdmitRows(sc, shapes, id, snap, memo, rows, a).flights)
    decreases |rows|
  {
    if rows != [] {
      AdmittedCompatible(sc, shapes, id, snap, memo, rows[0], a);
      AdmittedRowsCompatible(sc, shapes, id, snap, memo, rows[1..], Admit(sc, shapes, id, snap, memo, rows[0], a));
    }
  }

  lemma PlannedCompatible(sc: Schema, shapes: seq<Shape>, g: Engine)
    requires Fits(shapes, g, PlanSystem) && AllCompatible(shapes, g.flights)
    ensures AllCompatible(shapes, PlanNext(sc, shapes, g).flights)
  {
    var wave := g.wave.value;
    var i := wave.next;
    if Gate(shapes, g, i, wave.snap) {
      var p := Marked(shapes[i], g.planners[i], wave.snap);
      PlannedRowsFit(sc, shapes, i, p, wave);
      AdmittedRowsCompatible(sc, shapes, i, wave.snap, g.memo, PlannedRows(sc, shapes[i], p, wave),
                        Admitting(Consumed(shapes[i], p, wave.base), g.flights, g.conflicts));
    }
  }

  /** Only planning puts an invocation of the generation in flight. */
  lemma StepDropsFlights(sc: Schema, shapes: seq<Shape>, g: Engine, ev: Event)
    requires Fits(shapes, g, ev) && !ev.PlanSystem?
    ensures Step(sc, shapes, g, ev).flights.Keys <= g.flights.Keys
  {
    match ev
    case Return(o, cs, previous) => FinishFrame(sc, shapes, g, o, cs, previous);
    case SettleReturn(id, o, cs, previous) => SettleFrame(sc, shapes, g, id, o, cs, previous);
    case _ =>
  }

  lemma TakesKeepsCompatible(sc: Schema, shapes: seq<Shape>, g: Engine, ev: Event, h: Engine)
    requires Takes(sc, shapes, g, ev, h) && AllCompatible(shapes, g.flights)
    ensures AllCompatible(shapes, h.flights)
  {
    if ev.PlanSystem? { PlannedCompatible(sc, shapes, g); } else { StepDropsFlights(sc, shapes, g, ev); }
  }

  ghost function KeptCompatible(shapes: seq<Shape>): Engine -> bool {
    (g: Engine) => AllCompatible(shapes, g.flights)
  }

  lemma StepsKeepCompatible(sc: Schema, shapes: seq<Shape>)
    ensures forall g, ev, h :: KeptCompatible(shapes)(g) && Machine(sc, shapes)(g, ev, h) ==> KeptCompatible(shapes)(h)
  {
    forall g, ev, h | KeptCompatible(shapes)(g) && Machine(sc, shapes)(g, ev, h) ensures KeptCompatible(shapes)(h) {
      TakesKeepsCompatible(sc, shapes, g, ev, h);
    }
  }

  lemma AllRunsCompatible(sc: Schema, shapes: seq<Shape>, states: seq<Engine>, events: seq<Event>, k: nat)
    requires Run(sc, shapes, states, events) && k <= |events|
    ensures AllCompatible(shapes, states[k].flights)
  {
    StepsKeepCompatible(sc, shapes);
    RunWalks(sc, shapes, states, events);
    WalkKeeps(Machine(sc, shapes), KeptCompatible(shapes), Walk(states, events), states[0], states[|events|], k);
  }

  /**
   Over every run, of two invocations a generation has in flight neither mutates a component that the other mutates, looks
   at or views.
   */
  lemma FlightsStayApart(sc: Schema, shapes: seq<Shape>, states: seq<Engine>, events: seq<Event>, k: nat, o: Owner, f: Owner)
    requires Run(sc, shapes, states, events) && k <= |events| && o in states[k].flights && f in states[k].flights && o != f
    ensures o.system < |shapes| && |o.keys| == |shapes[o.system].queries| && f.system < |shapes| && |f.keys| == |shapes[f.system].queries|
    ensures !Disturbs(shapes[o.system], o.keys, shapes[f.system], f.keys)
  {
    RunKeepsOk(sc, shapes, states, events, k);
    AllRunsCompatible(sc, shapes, states, events, k);
    assert Compatible(shapes, o, f);
  }
}
