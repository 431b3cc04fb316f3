/**
 From planned rows to admitted runs: the memo filter, the duplicate and conflict checks, and what a run's recorded
 dependencies are worth when it comes back.
 */
module Admission {
  import opened Ids
  import opened World
  import opened Queries
  import opened Joins
  import opened Hints
  import opened Planners
  import opened Coverage
  import A = Accesses

  // ---- what a row touches ----

  function Each(kind: A.AccessKind, ts: seq<TypeId>, e: Option<Entity>): seq<A.Access> {
    seq(|ts|, i requires 0 <= i < |ts| => A.Access(kind, ts[i], e))
  }

  function QueryAccess(q: Query, e: Entity): seq<A.Access> {
    Each(A.Read, q.refs, Some(e)) + Each(A.Write, q.mutates, Some(e))
    + Each(A.Read, q.optional + q.with + q.without + Keyed(q), Some(e))
  }

  function QueriesAccess(ps: seq<Query>, row: seq<Entity>): seq<A.Access>
    requires |row| == |ps|
  {
    if ps == [] then [] else QueryAccess(ps[0], row[0]) + QueriesAccess(ps[1..], row[1..])
  }

  /** Row accesses of the queries, and shared access to whole viewed stores. */
  function RowAccess(sh: Shape, row: seq<Entity>): seq<A.Access>
    requires |row| == |sh.queries|
  {
    QueriesAccess(sh.queries, row) + Each(A.Read, sh.views + sh.ambient, None)
  }

  /** The rows a run mutates in place. */
  function Written(xs: seq<A.Access>): seq<(TypeId, Entity)> {
    if xs == [] then []
    else (if xs[0].kind.Write? && xs[0].entity.Some? then [(xs[0].component, xs[0].entity.value)] else []) + Written(xs[1..])
  }

  // ---- recorded dependencies ----

  predicate AllCurrent(w: WorldState, deps: seq<Dep>) {
    forall i :: 0 <= i < |deps| ==> IsCurrent(w, deps[i])
  }

  /** Dependencies on rows the run itself wrote take the revision after the commit; store dependencies do not. */
  function Refreshed(w: WorldState, deps: seq<Dep>, writes: seq<(TypeId, Entity)>): seq<Dep> {
    if deps == [] then []
    else
      var d := deps[0];
      [if d.RowDep? && (d.t, d.e) in writes then d.(revision := Rev(w, d.t, d.e)) else d] + Refreshed(w, deps[1..], writes)
  }

  lemma {:induction false} AllCurrentSplits(w: WorldState, xs: seq<Dep>, ys: seq<Dep>)
    ensures AllCurrent(w, xs + ys) <==> AllCurrent(w, xs) && AllCurrent(w, ys)
  {
    var all := xs + ys;
    if AllCurrent(w, all) {
      forall i | 0 <= i < |xs| ensures IsCurrent(w, xs[i]) { assert all[i] == xs[i]; }
      forall i | 0 <= i < |ys| ensures IsCurrent(w, ys[i]) { assert all[|xs| + i] == ys[i]; }
    }
  }

  lemma {:induction false} CurrentDepsOn(sc: Schema, x: WorldState, w: WorldState, ts: seq<TypeId>, e: Entity)
    requires AllCurrent(w, DepsOn(sc, x, ts, e))
    ensures DepsOn(sc, x, ts, e) == DepsOn(sc, w, ts, e)
  {
    if ts != [] {
      var head := if sc.Tracked(ts[0]) then [RowDep(ts[0], e, Rev(x, ts[0], e))] else [];
      AllCurrentSplits(w, head, DepsOn(sc, x, ts[1..], e));
      CurrentDepsOn(sc, x, w, ts[1..], e);
      if sc.Tracked(ts[0]) { assert IsCurrent(w, head[0]); }
    }
  }

  lemma {:induction false} CurrentRowDeps(sc: Schema, x: WorldState, w: WorldState, ps: seq<Query>, row: seq<Entity>)
    requires |row| == |ps| && AllCurrent(w, RowDeps(sc, x, ps, row))
    ensures RowDeps(sc, x, ps, row) == RowDeps(sc, w, ps, row)
  {
    if ps != [] {
      AllCurrentSplits(w, DepsOn(sc, x, Observed(ps[0]), row[0]), RowDeps(sc, x, ps[1..], row[1..]));
      CurrentDepsOn(sc, x, w, Observed(ps[0]), row[0]);
      CurrentRowDeps(sc, x, w, ps[1..], row[1..]);
    }
  }

  lemma {:induction false} CurrentStoreDeps(x: WorldState, w: WorldState, views: seq<TypeId>)
    requires AllCurrent(w, StoreDeps(x, views))
    ensures StoreDeps(x, views) == StoreDeps(w, views)
  {
    if views != [] {
      AllCurrentSplits(w, [StoreDep(views[0], Mark(x, views[0]))], StoreDeps(x, views[1..]));
      CurrentStoreDeps(x, w, views[1..]);
      assert IsCurrent(w, [StoreDep(views[0], Mark(x, views[0]))][0]);
    }
  }

  /** Dependencies captured anywhere that are still current are exactly the present ones. */
  lemma CurrentDepsAreDeps(sc: Schema, x: WorldState, w: WorldState, sh: Shape, row: seq<Entity>)
    requires |row| == |sh.queries|
    ensures AllCurrent(w, Deps(sc, x, sh, row)) <==> Deps(sc, x, sh, row) == Deps(sc, w, sh, row)
  {
    AllCurrentSplits(w, RowDeps(sc, x, sh.queries, row), StoreDeps(x, sh.views));
    if AllCurrent(w, Deps(sc, x, sh, row)) {
      CurrentRowDeps(sc, x, w, sh.queries, row);
      CurrentStoreDeps(x, w, sh.views);
    } else if Deps(sc, x, sh, row) == Deps(sc, w, sh, row) {
      OwnDepsAreCurrent(sc, w, sh, row);
      assert false;
    }
  }

  lemma OwnDepsAreCurrent(sc: Schema, w: WorldState, sh: Shape, row: seq<Entity>)
    requires |row| == |sh.queries|
    ensures AllCurrent(w, Deps(sc, w, sh, row))
  {
    AllCurrentSplits(w, RowDeps(sc, w, sh.queries, row), StoreDeps(w, sh.views));
    OwnRowDeps(sc, w, sh.queries, row);
    OwnStoreDeps(w, sh.views);
  }

  lemma {:induction false} OwnStoreDeps(w: WorldState, views: seq<TypeId>)
    ensures AllCurrent(w, StoreDeps(w, views))
  {
    if views != [] {
      OwnStoreDeps(w, views[1..]);
      AllCurrentSplits(w, [StoreDep(views[0], Mark(w, views[0]))], StoreDeps(w, views[1..]));
    }
  }

  lemma {:induction false} OwnRowDeps(sc: Schema, w: WorldState, ps: seq<Query>, row: seq<Entity>)
    requires |row| == |ps|
    ensures AllCurrent(w, RowDeps(sc, w, ps, row))
  {
    if ps != [] {
      OwnDepsOn(sc, w, Observed(ps[0]), row[0]);
      OwnRowDeps(sc, w, ps[1..], row[1..]);
      AllCurrentSplits(w, DepsOn(sc, w, Observed(ps[0]), row[0]), RowDeps(sc, w, ps[1..], row[1..]));
    }
  }

  lemma {:induction false} OwnDepsOn(sc: Schema, w: WorldState, ts: seq<TypeId>, e: Entity)
    ensures AllCurrent(w, DepsOn(sc, w, ts, e))
  {
    if ts != [] {
      OwnDepsOn(sc, w, ts[1..], e);
      AllCurrentSplits(w, if sc.Tracked(ts[0]) then [RowDep(ts[0], e, Rev(w, ts[0], e))] else [], DepsOn(sc, w, ts[1..], e));
    }
  }

  // ---- an invocation's own writes ----

  lemma {:induction false} RefreshedSplits(w: WorldState, xs: seq<Dep>, ys: seq<Dep>, writes: seq<(TypeId, Entity)>)
    ensures Refreshed(w, xs + ys, writes) == Refreshed(w, xs, writes) + Refreshed(w, ys, writes)
  {
    if xs == [] {
      assert xs + ys == ys;
    } else {
      assert (xs + ys)[1..] == xs[1..] + ys;
      RefreshedSplits(w, xs[1..], ys, writes);
    }
  }

  /** Nothing a row depends on moved, but for the rows in `writes`. */
  ghost predicate OnlyWritesMoved(w: WorldState, w': WorldState, sh: Shape, row: seq<Entity>, writes: seq<(TypeId, Entity)>)
    requires |row| == |sh.queries|
  {
    && (forall i :: 0 <= i < |sh.views| ==> Mark(w, sh.views[i]) == Mark(w', sh.views[i]))
    && (forall j, t :: 0 <= j < |row| && t in Interest(sh.queries[j]) && (t, row[j]) !in writes ==> Rev(w, t, row[j]) == Rev(w', t, row[j]))
  }

  lemma {:induction false} RefreshedDepsOn(sc: Schema, w: WorldState, w': WorldState, ts: seq<TypeId>, e: Entity, writes: seq<(TypeId, Entity)>)
    requires forall i :: 0 <= i < |ts| && (ts[i], e) !in writes ==> Rev(w, ts[i], e) == Rev(w', ts[i], e)
    ensures Refreshed(w', DepsOn(sc, w, ts, e), writes) == DepsOn(sc, w', ts, e)
  {
    if ts != [] {
      assert forall i :: 0 <= i < |ts[1..]| ==> ts[1..][i] == ts[i + 1];
      RefreshedDepsOn(sc, w, w', ts[1..], e, writes);
      var head := if sc.Tracked(ts[0]) then [RowDep(ts[0], e, Rev(w, ts[0], e))] else [];
      RefreshedSplits(w', head, DepsOn(sc, w, ts[1..], e), writes);
      assert sc.Tracked(ts[0]) ==> head[1..] == [];
      assert Refreshed(w', head, writes) == if sc.Tracked(ts[0]) then [RowDep(ts[0], e, Rev(w', ts[0], e))] else [];
    }
  }

  lemma {:induction false} RefreshedRowDeps(sc: Schema, w: WorldState, w': WorldState, ps: seq<Query>, row: seq<Entity>, writes: seq<(TypeId, Entity)>)
    requires |row| == |ps|
    requires forall j, t :: 0 <= j < |row| && t in Interest(ps[j]) && (t, row[j]) !in writes ==> Rev(w, t, row[j]) == Rev(w', t, row[j])
    ensures Refreshed(w', RowDeps(sc, w, ps, row), writes) == RowDeps(sc, w', ps, row)
  {
    if ps != [] {
      forall i | 0 <= i < |Observed(ps[0])| && (Observed(ps[0])[i], row[0]) !in writes
        ensures Rev(w, Observed(ps[0])[i], row[0]) == Rev(w', Observed(ps[0])[i], row[0])
      {
        ObservedIsInterest(ps[0], i);
      }
      RefreshedDepsOn(sc, w, w', Observed(ps[0]), row[0], writes);
      assert forall j :: 0 <= j < |ps[1..]| ==> ps[1..][j] == ps[j + 1] && row[1..][j] == row[j + 1];
      RefreshedRowDeps(sc, w, w', ps[1..], row[1..], writes);
      RefreshedSplits(w', DepsOn(sc, w, Observed(ps[0]), row[0]), RowDeps(sc, w, ps[1..], row[1..]), writes);
    }
  }

  lemma {:induction false} RefreshedStoreDeps(w: WorldState, w': WorldState, views: seq<TypeId>, writes: seq<(TypeId, Entity)>)
    requires forall i :: 0 <= i < |views| ==> Mark(w, views[i]) == Mark(w', views[i])
    ensures Refreshed(w', StoreDeps(w, views), writes) == StoreDeps(w', views)
  {
    if views != [] {
      assert forall i :: 0 <= i < |views[1..]| ==> views[1..][i] == views[i + 1];
      RefreshedStoreDeps(w, w', views[1..], writes);
    }
  }

  /** An invocation's own in-place writes never invalidate the memo entry it commits. */
  lemma OwnWritesStayMemoized(sc: Schema, w: WorldState, w': WorldState, sh: Shape, row: seq<Entity>, writes: seq<(TypeId, Entity)>)
    requires |row| == |sh.queries| && OnlyWritesMoved(w, w', sh, row, writes)
    ensures Refreshed(w', Deps(sc, w, sh, row), writes) == Deps(sc, w', sh, row)
  {
    RefreshedRowDeps(sc, w, w', sh.queries, row, writes);
    RefreshedStoreDeps(w, w', sh.views, writes);
    RefreshedSplits(w', RowDeps(sc, w, sh.queries, row), StoreDeps(w, sh.views), writes);
  }

  // ---- admission ----

  /** Runs in flight, each with the snapshot it was planned from. */
  type Flights = map<Owner, WorldState>

  /** Every run belongs to a registered system and has one key per query. */
  ghost predicate Shaped(shapes: seq<Shape>, owners: set<Owner>) {
    forall o :: o in owners ==> o.system < |shapes| && |o.keys| == |shapes[o.system].queries|
  }

  function AccessOf(shapes: seq<Shape>, o: Owner): seq<A.Access> {
    if o.system < |shapes| && |o.keys| == |shapes[o.system].queries| then RowAccess(shapes[o.system], o.keys) else []
  }

  /** The reservation rule: some run in flight holds a conflicting access. */
  predicate Refused(shapes: seq<Shape>, flights: Flights, o: Owner) {
    exists f :: f in flights && A.Clash(AccessOf(shapes, o), AccessOf(shapes, f))
  }

  datatype Admitting = Admitting(p: Planner, flights: Flights, conflicts: bool)

  ghost predicate RowsFit(shapes: seq<Shape>, id: nat, rows: seq<seq<Entity>>) {
    id < |shapes| && forall i :: 0 <= i < |rows| ==> |rows[i]| == |shapes[id].queries|
  }

  /** One planned row: memoized, already running, deferred behind a conflict, or started. */
  function Admit(sc: Schema, shapes: seq<Shape>, id: nat, snap: WorldState, memo: Memo, row: seq<Entity>, a: Admitting): (r: Admitting)
    requires id < |shapes| && |row| == |shapes[id].queries| && Shaped(shapes, a.flights.Keys)
    ensures Shaped(shapes, r.flights.Keys)
  {
    var o := Owner(id, row);
    if MemoCurrent(sc, snap, shapes[id], memo, o) || o in a.flights then a
    else if Refused(shapes, a.flights, o) then a.(p := ForceReplan(shapes[id], a.p, row), conflicts := true)
    else a.(flights := a.flights[o := snap])
  }

  function AdmitRows(sc: Schema, shapes: seq<Shape>, id: nat, snap: WorldState, memo: Memo, rows: seq<seq<Entity>>, a: Admitting): (r: Admitting)
    requires RowsFit(shapes, id, rows) && Shaped(shapes, a.flights.Keys)
    ensures Shaped(shapes, r.flights.Keys)
    decreases |rows|
  {
    if rows == [] then a
    else AdmitRows(sc, shapes, id, snap, memo, rows[1..], Admit(sc, shapes, id, snap, memo, rows[0], a))
  }

  /** What admission keeps: runs, dues and cursors; it forces a row back only behind a run in flight. */
  ghost predicate Advances(sh: Shape, w: WorldState, a: Admitting, b: Admitting) {
    && a.flights.Keys <= b.flights.Keys
    && (forall row :: Due(sh, a.p, w, row) ==> Due(sh, b.p, w, row))
    && (Consistent(sh, a.p, w) ==> Consistent(sh, b.p, w))
    && (Open(sh, b.p, w) ==> Open(sh, a.p, w) || b.conflicts)
    && (a.conflicts ==> b.conflicts)
    && (b.conflicts ==> a.conflicts || b.flights.Keys != {})
  }

  ghost predicate Settled(sc: Schema, sh: Shape, id: nat, snap: WorldState, w: WorldState, memo: Memo, row: seq<Entity>, a: Admitting)
    requires |row| == |sh.queries|
  {
    MemoCurrent(sc, snap, sh, memo, Owner(id, row)) || Owner(id, row) in a.flights || Due(sh, a.p, w, row)
  }

  lemma AdmitSettles(sc: Schema, shapes: seq<Shape>, id: nat, snap: WorldState, w: WorldState, memo: Memo, row: seq<Entity>, a: Admitting)
    requires id < |shapes| && |row| == |shapes[id].queries| && Shaped(shapes, a.flights.Keys)
    ensures var b := Admit(sc, shapes, id, snap, memo, row, a);
      Advances(shapes[id], w, a, b) && Settled(sc, shapes[id], id, snap, w, memo, row, b)
  {
    var sh := shapes[id];
    var b := Admit(sc, shapes, id, snap, memo, row, a);
    if b.p != a.p {
      ForcedIsDue(sh, a.p, w, row);
      forall other | Due(sh, a.p, w, other) ensures Due(sh, b.p, w, other) {
        ForcingKeepsDue(sh, a.p, w, row, other);
      }
    }
    if Refused(shapes, a.flights, Owner(id, row)) {
      var f :| f in a.flights;
      ForcedIsDue(sh, a.p, w, row);
    }
  }

  /** Every planned row ends memoized, in flight, or due again. */
  lemma {:induction false} AdmitRowsSettle(sc: Schema, shapes: seq<Shape>, id: nat, snap: WorldState, w: WorldState, memo: Memo, rows: seq<seq<Entity>>, a: Admitting)
    requires RowsFit(shapes, id, rows) && Shaped(shapes, a.flights.Keys)
    ensures var b := AdmitRows(sc, shapes, id, snap, memo, rows, a);
      && Advances(shapes[id], w, a, b)
      && (forall i :: 0 <= i < |rows| ==> Settled(sc, shapes[id], id, snap, w, memo, rows[i], b))
    decreases |rows|
  {
    if rows != [] {
      var next := Admit(sc, shapes, id, snap, memo, rows[0], a);
      AdmitSettles(sc, shapes, id, snap, w, memo, rows[0], a);
      AdmitRowsSettle(sc, shapes, id, snap, w, memo, rows[1..], next);
      var b := AdmitRows(sc, shapes, id, snap, memo, rows, a);
      forall i | 0 <= i < |rows| ensures Settled(sc, shapes[id], id, snap, w, memo, rows[i], b) {
        if i > 0 { assert rows[1..][i - 1] == rows[i]; }
      }
    }
  }
}
