/**
 Why no invalidated row is ever missed: a row whose memo is out of date is in flight, or its system's gate is open
 and the system's next plan will enumerate it.
 */
module Coverage {
  import opened Ids
  import opened Ascending
  import opened World
  import opened Queries
  import opened Joins
  import opened Hints
  import opened Planners

  function StoreDeps(w: WorldState, views: seq<TypeId>): seq<Dep> {
    if views == [] then [] else [StoreDep(views[0], Mark(w, views[0]))] + StoreDeps(w, views[1..])
  }

  /** The rows of a system in a snapshot. */
  ghost predicate IsRow(w: WorldState, sh: Shape, row: seq<Entity>)
    requires sh.Valid()
  {
    row in States(w, sh.queries)
  }

  function Deps(sc: Schema, w: WorldState, sh: Shape, row: seq<Entity>): seq<Dep>
    requires |row| == |sh.queries|
  {
    RowDeps(sc, w, sh.queries, row) + StoreDeps(w, sh.views)
  }

  type Memo = map<Owner, seq<Dep>>

  /** The planner would skip this row: its memo records exactly its present dependencies. */
  predicate MemoCurrent(sc: Schema, w: WorldState, sh: Shape, memo: Memo, o: Owner)
    requires |o.keys| == |sh.queries|
  {
    o in memo && memo[o] == Deps(sc, w, sh, o.keys)
  }

  /** The next plan will run, and will enumerate this row. */
  ghost predicate Due(sh: Shape, p: Planner, w: WorldState, row: seq<Entity>) {
    Open(sh, p, w) && (NextHint(sh, p, w).None? || Touches(row, NextHint(sh, p, w).value))
  }

  /** What is on record, in whichever table a driver or the bowl holds. */
  type Known = set<(Owner, seq<Dep>)>

  predicate Recalled(sc: Schema, w: WorldState, sh: Shape, known: Known, o: Owner)
    requires |o.keys| == |sh.queries|
  {
    (o, Deps(sc, w, sh, o.keys)) in known
  }

  function Without(known: Known, o: Owner): Known {
    set r | r in known && r.0 != o
  }

  /**
   Every matching row of one system is up to date, running, or due, as seen in an earlier world `v`: the rows that have
   been disturbed between it and the live world `w` are left out. Mostly `v` is `w`, and no row is.
   */
  ghost predicate Covered(sc: Schema, v: WorldState, w: WorldState, id: nat, sh: Shape, p: Planner, known: Known, inflight: set<Owner>)
    requires sh.Valid()
  {
    forall row :: IsRow(v, sh, row) && |row| == |sh.queries| && !Disturbed(v, w, sh, row) ==>
      || Recalled(sc, v, sh, known, Owner(id, row))
      || Owner(id, row) in inflight
      || Due(sh, p, v, row)
  }

  /** The planner's bookkeeping is consistent with the world. */
  ghost predicate Consistent(sh: Shape, p: Planner, w: WorldState) {
    && (p.mark.Some? ==> p.mark.value <= HighMark(w, sh.Interest()))
    && (p.epoch.Some? ==> p.epoch.value <= w.epoch)
    && (p.epoch == Some(w.epoch) ==> p.pos <= |w.log|)
  }

  // ---- the world moves ----

  /** Something a system plans from changed for this row: a store dependency, or a component on one of its keys. */
  ghost predicate Moved(w: WorldState, w': WorldState, sh: Shape, row: seq<Entity>)
    requires |row| == |sh.queries|
  {
    || (exists i :: 0 <= i < |sh.views| && Mark(w, sh.views[i]) != Mark(w', sh.views[i]))
    || (exists j, t :: 0 <= j < |row| && t in Interest(sh.queries[j]) && Rev(w, t, row[j]) != Rev(w', t, row[j]))
  }

  /** A viewed store moved, or something of interest on one of the keys was written past all earlier revisions. */
  ghost predicate Disturbed(w: WorldState, w': WorldState, sh: Shape, row: seq<Entity>)
    requires |row| == |sh.queries|
  {
    || (exists i :: 0 <= i < |sh.views| && Mark(w, sh.views[i]) != Mark(w', sh.views[i]))
    || (exists j, t :: 0 <= j < |row| && t in Interest(sh.queries[j]) && Logged(w, w', t, row[j]) && Mark(w', t) > w.revision)
  }

  lemma NothingDisturbed(w: WorldState, sh: Shape, row: seq<Entity>)
    requires |row| == |sh.queries|
    ensures !Disturbed(w, w, sh, row)
  {
    assert w.log[|w.log|..] == [];
  }

  lemma MovedIsDisturbed(w: WorldState, w': WorldState, sh: Shape, row: seq<Entity>)
    requires |row| == |sh.queries| && RevsGrow(w, w') && Moved(w, w', sh, row)
    ensures Disturbed(w, w', sh, row)
  {
    if j, t :| 0 <= j < |row| && t in Interest(sh.queries[j]) && Rev(w, t, row[j]) != Rev(w', t, row[j]) {
      assert Logged(w, w', t, row[j]) && Mark(w', t) > w.revision;
    }
  }

  /** Once disturbed, a row stays so. */
  lemma DisturbedStays(sc: Schema, v: WorldState, w: WorldState, w': WorldState, sh: Shape, row: seq<Entity>)
    requires |row| == |sh.queries| && Disturbed(v, w, sh, row)
    requires RevisionsBounded(v) && RevisionsBounded(w) && Evolves(sc, v, w) && Evolves(sc, w, w')
    ensures Disturbed(v, w', sh, row)
  {
    forall t ensures Mark(w, t) <= Mark(w', t) { assert Mark(w, t) <= w.revision; }
    if j, t :| 0 <= j < |row| && t in Interest(sh.queries[j]) && Logged(v, w, t, row[j]) && Mark(w, t) > v.revision {
      LoggedTransitive(v, w, w', t, row[j]);
      assert Logged(v, w', t, row[j]) && Mark(w', t) > v.revision;
    } else {
      var i :| 0 <= i < |sh.views| && Mark(v, sh.views[i]) != Mark(w, sh.views[i]);
      assert Mark(v, sh.views[i]) <= v.revision < Mark(w, sh.views[i]) <= Mark(w', sh.views[i]);
    }
  }

  lemma {:induction false} StoreDepsSame(w: WorldState, w': WorldState, views: seq<TypeId>)
    requires forall i :: 0 <= i < |views| ==> Mark(w, views[i]) == Mark(w', views[i])
    ensures StoreDeps(w, views) == StoreDeps(w', views)
  {
    if views != [] {
      assert forall i :: 0 <= i < |views[1..]| ==> views[1..][i] == views[i + 1];
      StoreDepsSame(w, w', views[1..]);
    }
  }

  /** A row for which nothing moved matches as before, with the same dependencies. */
  lemma UnmovedRowIsSame(sc: Schema, w: WorldState, w': WorldState, sh: Shape, row: seq<Entity>)
    requires sh.Valid() && |row| == |sh.queries| && !Moved(w, w', sh, row)
    ensures IsRow(w, sh, row) <==> IsRow(w', sh, row)
    ensures Deps(sc, w, sh, row) == Deps(sc, w', sh, row)
  {
    var ps := sh.queries;
    forall j, t | 0 <= j < |ps| && t in Interest(ps[j]) ensures Rev(w, t, row[j]) == Rev(w', t, row[j]) {
      assert 0 <= j < |row|;
    }
    RowDepsSame(sc, w, w', ps, row);
    StoreDepsSame(w, w', sh.views);
    BuildMembers(w, ps, [], Paired, row);
    BuildMembers(w', ps, [], Paired, row);
    forall j | 0 <= j < |ps|
      ensures row[j] in Candidates(w, ps, row[..j], Paired) <==> row[j] in Candidates(w', ps, row[..j], Paired)
    {
      FreeCandidateIsSame(w, w', ps, row, j);
    }
  }

  lemma FreeCandidateIsSame(w: WorldState, w': WorldState, ps: seq<Query>, row: seq<Entity>, j: nat)
    requires WellBound(ps) && j < |ps| == |row| && ps[j].binding.Free?
    requires forall t :: t in Interest(ps[j]) ==> Rev(w, t, row[j]) == Rev(w', t, row[j])
    ensures row[j] in Candidates(w, ps, row[..j], Paired) <==> row[j] in Candidates(w', ps, row[..j], Paired)
  {
    RowsAre(w, ps[j]);
    RowsAre(w', ps[j]);
    MatchesSame(w, w', ps[j], row[j]);
  }

  /** A move opens the gate and reaches the hint: the mark outruns the planner's, and the log names the key. */
  lemma MovedRowIsDue(sc: Schema, w: WorldState, w': WorldState, sh: Shape, p: Planner, row: seq<Entity>)
    requires |row| == |sh.queries| && Moved(w, w', sh, row)
    requires MarksGrow(w, w') && RevsGrow(w, w') && RevisionsBounded(w) && w.log <= w'.log && w.epoch == w'.epoch
    requires Consistent(sh, p, w)
    ensures Due(sh, p, w', row)
  {
    MovedIsDisturbed(w, w', sh, row);
    DisturbedRowIsDue(sc, w, w', sh, p, row);
  }

  lemma DisturbedRowIsDue(sc: Schema, w: WorldState, w': WorldState, sh: Shape, p: Planner, row: seq<Entity>)
    requires |row| == |sh.queries| && Disturbed(w, w', sh, row)
    requires MarksGrow(w, w') && RevisionsBounded(w) && w.log <= w'.log && w.epoch == w'.epoch
    requires Consistent(sh, p, w)
    ensures Due(sh, p, w', row)
  {
    HighMarkWithin(w, sh.Interest());
    if j, t :| 0 <= j < |row| && t in Interest(sh.queries[j]) && Logged(w, w', t, row[j]) && Mark(w', t) > w.revision {
      InterestCovers(sh.queries, j);
      assert t in sh.Interest();
      HighMarkBounds(w', sh.Interest(), t);
      if Current(sh, p, w') { LoggedReachesHint(sh, p, w, w', t, row[j]); }
    } else {
      var i :| 0 <= i < |sh.views| && Mark(w, sh.views[i]) != Mark(w', sh.views[i]);
      assert sh.views[i] in sh.Interest();
      HighMarkBounds(w', sh.Interest(), sh.views[i]);
    }
  }

  lemma LoggedReachesHint(sh: Shape, p: Planner, w: WorldState, w': WorldState, t: TypeId, e: Entity)
    requires Current(sh, p, w') && w.epoch == w'.epoch && p.pos <= |w.log| && t in sh.Interest()
    requires Logged(w, w', t, e)
    ensures e in NextHint(sh, p, w').value
  {
    var k :| 0 <= k < |w'.log[|w.log|..]| && w'.log[|w.log|..][k] == (t, e);
    assert w'.log[|w.log| + k] == (t, e);
    TailHas(sh, w'.log, p.pos, |w.log| + k);
  }

  /** What was due stays due while the world moves on. */
  lemma DueStaysDue(sh: Shape, p: Planner, w: WorldState, w': WorldState, row: seq<Entity>)
    requires Due(sh, p, w, row) && MarksGrow(w, w') && RevisionsBounded(w) && w.log <= w'.log && w.epoch == w'.epoch
    ensures Due(sh, p, w', row)
  {
    forall t ensures Mark(w, t) <= Mark(w', t) { assert Mark(w, t) <= w.revision; }
    HighMarkGrows(w, w', sh.Interest());
    TailGrows(sh, w.log, w'.log, p.pos);
    if Current(sh, p, w) {
      var j :| 0 <= j < |row| && row[j] in NextHint(sh, p, w).value;
      assert row[j] in NextHint(sh, p, w').value;
    }
  }

  /** The live world moves on while the view stays behind. */
  lemma MovesAhead(sc: Schema, v: WorldState, w: WorldState, w': WorldState, id: nat, sh: Shape, p: Planner, known: Known, inflight: set<Owner>)
    requires sh.Valid() && RevisionsBounded(v) && RevisionsBounded(w) && Evolves(sc, v, w) && Evolves(sc, w, w')
    requires Covered(sc, v, w, id, sh, p, known, inflight)
    ensures Covered(sc, v, w', id, sh, p, known, inflight)
  {
    forall row | IsRow(v, sh, row) && |row| == |sh.queries| && !Disturbed(v, w', sh, row) ensures !Disturbed(v, w, sh, row) {
      if Disturbed(v, w, sh, row) { DisturbedStays(sc, v, w, w', sh, row); }
    }
  }

  /** A view left behind catches up with the live world: what was disturbed in between is due. */
  lemma CatchesUp(sc: Schema, v: WorldState, w: WorldState, id: nat, sh: Shape, p: Planner, known: Known, inflight: set<Owner>)
    requires sh.Valid() && RevisionsBounded(v) && Evolves(sc, v, w) && Consistent(sh, p, v)
    requires Covered(sc, v, w, id, sh, p, known, inflight)
    ensures Covered(sc, w, w, id, sh, p, known, inflight) && Consistent(sh, p, w)
  {
    forall t ensures Mark(v, t) <= Mark(w, t) { assert Mark(v, t) <= v.revision; }
    HighMarkGrows(v, w, sh.Interest());
    forall row | IsRow(w, sh, row) && |row| == |sh.queries|
      ensures Recalled(sc, w, sh, known, Owner(id, row)) || Owner(id, row) in inflight || Due(sh, p, w, row)
    {
      if Disturbed(v, w, sh, row) {
        DisturbedRowIsDue(sc, v, w, sh, p, row);
      } else {
        if Moved(v, w, sh, row) { MovedIsDisturbed(v, w, sh, row); }
        UnmovedRowIsSame(sc, v, w, sh, row);
        if Due(sh, p, v, row) { DueStaysDue(sh, p, v, w, row); }
      }
    }
  }

  lemma WorldMovesCovered(sc: Schema, w: WorldState, w': WorldState, id: nat, sh: Shape, p: Planner, known: Known, inflight: set<Owner>)
    requires sh.Valid() && RevisionsBounded(w) && Evolves(sc, w, w') && Consistent(sh, p, w)
    requires Covered(sc, w, w, id, sh, p, known, inflight)
    ensures Covered(sc, w', w', id, sh, p, known, inflight) && Consistent(sh, p, w')
  {
    EvolvesReflexive(sc, w);
    MovesAhead(sc, w, w, w', id, sh, p, known, inflight);
    CatchesUp(sc, w, w', id, sh, p, known, inflight);
  }

  /** More on record, or more in flight, covers no less. */
  lemma MoreCovers(sc: Schema, v: WorldState, w: WorldState, id: nat, sh: Shape, p: Planner, known: Known, inflight: set<Owner>,
                   known': Known, inflight': set<Owner>)
    requires sh.Valid() && Covered(sc, v, w, id, sh, p, known, inflight)
    requires forall o, d :: (o, d) in known && o.system == id ==> (o, d) in known' || o in inflight'
    requires forall o :: o in inflight && o.system == id ==> o in inflight'
    ensures Covered(sc, v, w, id, sh, p, known', inflight')
  {}

  // ---- forcing, resetting, forgetting ----

  lemma ResetCovers(sc: Schema, v: WorldState, w: WorldState, id: nat, sh: Shape, p: Planner, known: Known, inflight: set<Owner>)
    requires sh.Valid()
    ensures Covered(sc, v, w, id, sh, ResetFull(p), known, inflight)
    ensures Consistent(sh, p, v) ==> Consistent(sh, ResetFull(p), v)
  {}

  lemma ForcedIsDue(sh: Shape, p: Planner, w: WorldState, keys: seq<Entity>)
    requires |keys| == |sh.queries|
    ensures Due(sh, ForceReplan(sh, p, keys), w, keys)
  {
    var p' := ForceReplan(sh, p, keys);
    if sh.DeltaEligible() && keys != [] {
      assert keys[0] in p'.forced;
      if Current(sh, p', w) { assert keys[0] in NextHint(sh, p', w).value; }
    }
  }

  lemma ForcingKeepsDue(sh: Shape, p: Planner, w: WorldState, keys: seq<Entity>, row: seq<Entity>)
    requires Due(sh, p, w, row)
    ensures Due(sh, ForceReplan(sh, p, keys), w, row)
  {
    var p' := ForceReplan(sh, p, keys);
    if sh.DeltaEligible() && keys != [] && Current(sh, p, w) {
      var j :| 0 <= j < |row| && row[j] in NextHint(sh, p, w).value;
      assert row[j] in NextHint(sh, p', w).value;
    }
  }

  /** Forcing a row back covers it whatever is on record of it, and uncovers nothing. */
  lemma ForceCovers(sc: Schema, v: WorldState, w: WorldState, id: nat, sh: Shape, p: Planner, known: Known, inflight: set<Owner>, o: Owner)
    requires sh.Valid() && Covered(sc, v, w, id, sh, p, known, inflight) && o.system == id && |o.keys| == |sh.queries|
    ensures Covered(sc, v, w, id, sh, ForceReplan(sh, p, o.keys), Without(known, o), inflight - {o})
    ensures Consistent(sh, p, v) ==> Consistent(sh, ForceReplan(sh, p, o.keys), v)
  {
    var p' := ForceReplan(sh, p, o.keys);
    forall row | IsRow(v, sh, row) && |row| == |sh.queries| && !Disturbed(v, w, sh, row)
      ensures Recalled(sc, v, sh, Without(known, o), Owner(id, row)) || Owner(id, row) in inflight - {o} || Due(sh, p', v, row)
    {
      if Owner(id, row) == o {
        ForcedIsDue(sh, p, v, row);
      } else if Due(sh, p, v, row) {
        ForcingKeepsDue(sh, p, v, o.keys, row);
      }
    }
  }

  // ---- log compaction ----

  function Compacted(w: WorldState): WorldState {
    w.(log := [], epoch := w.epoch + 1)
  }

  /**
   What one compaction leaves of a hint, for every cursor: all of it under an open gate, and nothing under a shut one; a
   cursor that was not valid, and any of a startup system, means a full plan.
   */
  lemma CompactionKeepsHint(sh: Shape, p: Planner, w: WorldState)
    requires Consistent(sh, p, w)
    ensures var p' := CompactLog(sh, p, w);
      && Open(sh, p', Compacted(w)) == Open(sh, p, w)
      && NextHint(sh, p', Compacted(w)) ==
           if !Current(sh, p, w) || sh.phase.Startup? then None
           else if Open(sh, p, w) then NextHint(sh, p, w)
           else Some({})
  {
    var p', w' := CompactLog(sh, p, w), Compacted(w);
    SameMarks(w, w');
    HighMarkSame(w, w', sh.Interest());
    if p.forced != [] { CompactedStaysForced(sh, p, w); }
    if Current(sh, p, w) && !sh.phase.Startup? {
      if Open(sh, p, w) {
        assert p'.forced == Deduped(p.forced + Tail(sh, w.log, p.pos));
        assert NextHint(sh, p', w').value == NextHint(sh, p, w).value;
      } else {
        assert NextHint(sh, p', w').value == {};
      }
    }
  }

  lemma CompactedStaysForced(sh: Shape, p: Planner, w: WorldState)
    requires p.forced != []
    ensures CompactLog(sh, p, w).forced != []
  {
    assert p.forced[0] in p.forced + Tail(sh, w.log, p.pos);
  }

  lemma CompactionKeepsDue(sh: Shape, p: Planner, w: WorldState, row: seq<Entity>)
    requires Consistent(sh, p, w) && Due(sh, p, w, row)
    ensures Due(sh, CompactLog(sh, p, w), Compacted(w), row)
  {
    CompactionKeepsHint(sh, p, w);
  }

  lemma CompactionConsistent(sh: Shape, p: Planner, w: WorldState)
    requires Consistent(sh, p, w)
    ensures Consistent(sh, CompactLog(sh, p, w), Compacted(w))
  {
    SameMarks(w, Compacted(w));
    HighMarkSame(w, Compacted(w), sh.Interest());
  }

  /** A valid cursor's unread rows survive in the forced rows; an invalid one still means a full plan. */
  lemma CompactionCovers(sc: Schema, w: WorldState, id: nat, sh: Shape, p: Planner, known: Known, inflight: set<Owner>)
    requires sh.Valid() && Consistent(sh, p, w) && Covered(sc, w, w, id, sh, p, known, inflight)
    ensures Covered(sc, Compacted(w), Compacted(w), id, sh, CompactLog(sh, p, w), known, inflight)
    ensures Consistent(sh, CompactLog(sh, p, w), Compacted(w))
  {
    var w', p' := Compacted(w), CompactLog(sh, p, w);
    CompactionConsistent(sh, p, w);
    forall row | IsRow(w', sh, row) && |row| == |sh.queries|
      ensures Recalled(sc, w', sh, known, Owner(id, row)) || Owner(id, row) in inflight || Due(sh, p', w', row)
    {
      SameStoresNotMoved(w, w', sh, row);
      UnmovedRowIsSame(sc, w, w', sh, row);
      NothingDisturbed(w, sh, row);
      if Due(sh, p, w, row) { CompactionKeepsDue(sh, p, w, row); }
    }
  }

  lemma SameMarks(w: WorldState, w': WorldState)
    requires w'.stores == w.stores
    ensures forall t :: Mark(w, t) == Mark(w', t)
  {}

  lemma SameStoresNotMoved(w: WorldState, w': WorldState, sh: Shape, row: seq<Entity>)
    requires |row| == |sh.queries| && w'.stores == w.stores
    ensures !Moved(w, w', sh, row)
  {
    assert forall t :: Mark(w, t) == Mark(w', t);
    assert forall t, e: Entity :: Rev(w, t, e) == Rev(w', t, e);
  }

  lemma {:induction false} HighMarkSame(w: WorldState, w': WorldState, ts: seq<TypeId>)
    requires forall t :: Mark(w, t) == Mark(w', t)
    ensures HighMark(w, ts) == HighMark(w', ts)
  {
    if ts != [] { HighMarkSame(w, w', ts[1..]); }
  }
}
