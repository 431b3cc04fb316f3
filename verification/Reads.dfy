/** What a row reads, in terms of its queries' own fields, and that its dependencies record exactly that. */
module Reads {
  import opened Ids
  import opened World
  import opened Queries
  import opened Joins
  import opened Planners
  import opened Coverage
  import opened Admission

  /** A match depends on the values of these components; of a facet's anchor and of `Without` it only needs presence. */
  predicate ReadsIn(q: Query, t: TypeId) {
    t in q.refs || t in q.mutates || t in q.optional || t in q.with || q.binding == EqOn(t)
  }

  /** The row reads the component `t` of its key `e`, and `t` is tracked. */
  ghost predicate RowReads(sc: Schema, sh: Shape, row: seq<Entity>, t: TypeId, e: Entity)
    requires |row| == |sh.queries|
  {
    sc.Tracked(t) && exists j :: 0 <= j < |row| && row[j] == e && ReadsIn(sh.queries[j], t)
  }

  /** A dependency that holds of `w`: a component the row reads at its revision, or a store it views at its watermark. */
  ghost predicate Holds(sc: Schema, w: WorldState, sh: Shape, row: seq<Entity>, d: Dep)
    requires |row| == |sh.queries|
  {
    match d
    case RowDep(t, e, revision) => RowReads(sc, sh, row, t, e) && revision == Rev(w, t, e)
    case StoreDep(t, mark) => t in sh.views && mark == Mark(w, t)
  }

  /** A recorded run that stands in `w`: it holds every read of the row as `w` has it, and nothing else. */
  ghost predicate Stands(sc: Schema, w: WorldState, sh: Shape, row: seq<Entity>, deps: seq<Dep>)
    requires |row| == |sh.queries|
  {
    forall d :: d in deps <==> Holds(sc, w, sh, row, d)
  }

  /** Everything the row reads, and every store it views, is the same in both worlds. */
  ghost predicate SameReads(sc: Schema, w: WorldState, w': WorldState, sh: Shape, row: seq<Entity>)
    requires |row| == |sh.queries|
  {
    && (forall t, e: Entity :: RowReads(sc, sh, row, t, e) ==> Rev(w, t, e) == Rev(w', t, e))
    && (forall t :: t in sh.views ==> Mark(w, t) == Mark(w', t))
  }

  // ---- one query, one row ----

  lemma {:induction false} DepsOnAre(sc: Schema, w: WorldState, ts: seq<TypeId>, e: Entity, d: Dep)
    ensures d in DepsOn(sc, w, ts, e) <==> d.RowDep? && d.e == e && d.t in ts && sc.Tracked(d.t) && d.revision == Rev(w, d.t, e)
  {
    if ts != [] { DepsOnAre(sc, w, ts[1..], e, d); }
  }

  lemma ObservedAre(q: Query, t: TypeId)
    ensures t in Observed(q) <==> ReadsIn(q, t)
  {}

  lemma {:induction false} RowDepsAre(sc: Schema, w: WorldState, ps: seq<Query>, row: seq<Entity>, d: Dep)
    requires |row| == |ps|
    ensures d in RowDeps(sc, w, ps, row) <==>
              && d.RowDep? && sc.Tracked(d.t) && d.revision == Rev(w, d.t, d.e)
              && exists j :: 0 <= j < |row| && row[j] == d.e && ReadsIn(ps[j], d.t)
  {
    if ps != [] {
      DepsOnAre(sc, w, Observed(ps[0]), row[0], d);
      RowDepsAre(sc, w, ps[1..], row[1..], d);
      if d.RowDep? {
        ObservedAre(ps[0], d.t);
        if j :| 0 <= j < |row| && row[j] == d.e && ReadsIn(ps[j], d.t) {
          if j > 0 { assert row[1..][j - 1] == d.e && ReadsIn(ps[1..][j - 1], d.t); }
        }
        if j :| 0 <= j < |row[1..]| && row[1..][j] == d.e && ReadsIn(ps[1..][j], d.t) {
          assert row[j + 1] == d.e && ReadsIn(ps[j + 1], d.t);
        }
      }
    }
  }

  lemma {:induction false} StoreDepsAre(w: WorldState, views: seq<TypeId>, d: Dep)
    ensures d in StoreDeps(w, views) <==> d.StoreDep? && d.t in views && d.mark == Mark(w, d.t)
  {
    if views != [] { StoreDepsAre(w, views[1..], d); }
  }

  /** The dependencies of a row are its tracked reads at their revisions and its views at their watermarks. */
  lemma DepsAreReads(sc: Schema, w: WorldState, sh: Shape, row: seq<Entity>)
    requires |row| == |sh.queries|
    ensures Stands(sc, w, sh, row, Deps(sc, w, sh, row))
  {
    forall d ensures d in Deps(sc, w, sh, row) <==> Holds(sc, w, sh, row, d) {
      RowDepsAre(sc, w, sh.queries, row, d);
      StoreDepsAre(w, sh.views, d);
    }
  }

  /** So dependencies are equal exactly when all those reads and views are the same. */
  lemma SameDepsIffSameReads(sc: Schema, w: WorldState, w': WorldState, sh: Shape, row: seq<Entity>)
    requires |row| == |sh.queries|
    ensures Deps(sc, w, sh, row) == Deps(sc, w', sh, row) <==> SameReads(sc, w, w', sh, row)
  {
    DepsAreReads(sc, w, sh, row);
    DepsAreReads(sc, w', sh, row);
    var deps := Deps(sc, w, sh, row);
    if deps == Deps(sc, w', sh, row) {
      forall t, e: Entity | RowReads(sc, sh, row, t, e) ensures Rev(w, t, e) == Rev(w', t, e) {
        assert Holds(sc, w, sh, row, RowDep(t, e, Rev(w, t, e)));
        assert Holds(sc, w', sh, row, RowDep(t, e, Rev(w, t, e)));
      }
      forall t | t in sh.views ensures Mark(w, t) == Mark(w', t) {
        assert Holds(sc, w, sh, row, StoreDep(t, Mark(w, t)));
        assert Holds(sc, w', sh, row, StoreDep(t, Mark(w, t)));
      }
    }
    if SameReads(sc, w, w', sh, row) {
      forall i | 0 <= i < |deps| ensures IsCurrent(w', deps[i]) {
        assert deps[i] in deps;
        assert Holds(sc, w, sh, row, deps[i]);
      }
      CurrentDepsAreDeps(sc, w, w', sh, row);
    }
  }

  /** Captured dependencies are all current exactly when nothing the row reads or views has moved since. */
  lemma CurrentIffReadsStand(sc: Schema, x: WorldState, w: WorldState, sh: Shape, row: seq<Entity>)
    requires |row| == |sh.queries|
    ensures AllCurrent(w, Deps(sc, x, sh, row)) <==> SameReads(sc, x, w, sh, row)
  {
    CurrentDepsAreDeps(sc, x, w, sh, row);
    SameDepsIffSameReads(sc, x, w, sh, row);
  }

  // ---- a run's own writes ----

  lemma {:induction false} RefreshedAre(w: WorldState, deps: seq<Dep>, writes: seq<(TypeId, Entity)>, d: Dep)
    ensures d in Refreshed(w, deps, writes) <==>
              exists c :: c in deps && d == if c.RowDep? && (c.t, c.e) in writes then RowDep(c.t, c.e, Rev(w, c.t, c.e)) else c
  {
    if deps != [] {
      RefreshedAre(w, deps[1..], writes, d);
      if c :| c in deps && d == if c.RowDep? && (c.t, c.e) in writes then RowDep(c.t, c.e, Rev(w, c.t, c.e)) else c {
        assert c == deps[0] || c in deps[1..];
      }
    }
  }

  /**
   What a commit records of a row planned in `x`: it stands in the world `w` published exactly when nothing the row reads
   has moved since but what the run itself wrote in place, and no store it views has.
   */
  lemma RecordStandsIff(sc: Schema, x: WorldState, w: WorldState, sh: Shape, row: seq<Entity>, writes: seq<(TypeId, Entity)>)
    requires |row| == |sh.queries|
    ensures Stands(sc, w, sh, row, Refreshed(w, Deps(sc, x, sh, row), writes)) <==>
              && (forall t, e: Entity :: RowReads(sc, sh, row, t, e) && (t, e) !in writes ==> Rev(x, t, e) == Rev(w, t, e))
              && (forall t :: t in sh.views ==> Mark(x, t) == Mark(w, t))
  {
    var deps, entry := Deps(sc, x, sh, row), Refreshed(w, Deps(sc, x, sh, row), writes);
    DepsAreReads(sc, x, sh, row);
    forall d ensures d in entry <==>
        match d
        case RowDep(t, e, r) => RowReads(sc, sh, row, t, e) && r == if (t, e) in writes then Rev(w, t, e) else Rev(x, t, e)
        case StoreDep(t, mark) => t in sh.views && mark == Mark(x, t)
    {
      RefreshedAre(w, deps, writes, d);
      match d
      case RowDep(t, e, r) =>
        assert Holds(sc, x, sh, row, RowDep(t, e, Rev(x, t, e))) <==> RowReads(sc, sh, row, t, e);
      case StoreDep(t, mark) =>
    }
    if Stands(sc, w, sh, row, entry) {
      forall t, e: Entity | RowReads(sc, sh, row, t, e) && (t, e) !in writes ensures Rev(x, t, e) == Rev(w, t, e) {
        assert RowDep(t, e, Rev(x, t, e)) in entry;
        assert Holds(sc, w, sh, row, RowDep(t, e, Rev(x, t, e)));
      }
      forall t | t in sh.views ensures Mark(x, t) == Mark(w, t) {
        assert StoreDep(t, Mark(x, t)) in entry;
        assert Holds(sc, w, sh, row, StoreDep(t, Mark(x, t)));
      }
    }
  }
}
