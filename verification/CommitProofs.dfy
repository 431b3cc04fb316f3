/** What one finished run, accepted or stale, does to coverage. */
module CommitProofs {
  import opened Ids
  import opened World
  import opened WorldLemmas
  import opened Queries
  import opened Joins
  import opened Planners
  import opened Coverage
  import opened Admission
  import opened Phases
  import opened RemovedLists
  import opened PhaseProofs
  import O = Output
  import P = InPlace

  lemma FollowsLater(sc: Schema, a: WorldState, w: WorldState, w': WorldState)
    requires Follows(a, w) && Evolves(sc, w, w')
    ensures Follows(a, w')
  {
    if a.revision == w'.revision && a.mutations == w'.mutations {
      forall t, e: Entity ensures Rev(a, t, e) == Rev(w', t, e) { assert Rev(a, t, e) == Rev(w, t, e); }
      forall t ensures Mark(a, t) == Mark(w', t) { assert Mark(a, t) == Mark(w, t); }
    }
  }

  lemma DrainedIsSame(sc: Schema, w: WorldState)
    requires Inv(sc, w, {})
    ensures Inv(sc, Drained(w), {}) && Evolves(sc, w, Drained(w)) && SameObservations(w, Drained(w))
  {
    var w' := Drained(w);
    StoresDecide(sc, w, w');
    assert forall t, e: Entity :: Lookup(w', t, e) == Lookup(w, t, e);
    assert forall o, t, e: Entity :: Indexed(w', o, t, e) == Indexed(w, o, t, e);
    OwnersDecide(w, w');
    EvolvesReflexive(sc, w);
    BookkeepingEvolves(sc, w, w, w');
  }

  lemma CompactedIsSame(sc: Schema, w: WorldState)
    requires Inv(sc, w, {})
    ensures Inv(sc, Compacted(w), {}) && SameObservations(w, Compacted(w)) && StampsFollow(sc, w, Compacted(w))
  {
    var w' := Compacted(w);
    StoresDecide(sc, w, w');
    assert forall t, e: Entity :: Lookup(w', t, e) == Lookup(w, t, e);
    assert forall t :: Mark(w', t) == Mark(w, t);
    P.ShapeDecides(sc, w, w', {}) by { assert P.SameShape(w, w'); }
  }

  lemma OwnersDecide(w: WorldState, w': WorldState)
    requires OwnersExact(w, {}) && w'.owners == w.owners && w'.stores == w.stores
    ensures OwnersExact(w', {})
  {
    assert forall t, e: Entity :: Lookup(w', t, e) == Lookup(w, t, e);
    forall o, t, e: Entity ensures Indexed(w', o, t, e) ==> OwnerAt(w', t, e) == Some(o) {
      assert Indexed(w, o, t, e) ==> OwnerAt(w, t, e) == Some(o);
    }
    forall t, e: Entity | OwnerAt(w', t, e).Some? ensures Indexed(w', OwnerAt(w', t, e).value, t, e) {
      assert Indexed(w, OwnerAt(w, t, e).value, t, e);
    }
  }

  /** A commit is a step of the world's run, and what it removed and put back is newer than the world it started from. */
  lemma PublishedEvolves(sc: Schema, shapes: seq<Shape>, w: WorldState, phase: Option<Phase>, o: Owner, cs: seq<O.Command>, previous: seq<(TypeId, Entity)>)
    requires Inv(sc, w, {}) && w.removedEntities == [] && MayReturn(sc, w, phase, o, cs, previous)
    ensures var w' := Published(sc, shapes, w, phase, o, cs, previous);
      Inv(sc, w', {}) && Evolves(sc, w, w') && Tracks(w, w')
  {
    var kept := Kept(phase, cs);
    var out := O.Replace(sc, w, kept, o, previous);
    var writes := WrittenBy(shapes, o);
    ReplacedEvolves(sc, w, phase, o, cs, previous);
    P.ReconcileAllKeepsInv(sc, out, writes, {});
    ReconcileSpares(sc, out, writes);
    SparedTracks(sc, w, out, P.ReconcileAll(sc, out, writes));
    EvolvesTransitive(sc, w, out, P.ReconcileAll(sc, out, writes));
  }

  lemma ReplacedEvolves(sc: Schema, w: WorldState, phase: Option<Phase>, o: Owner, cs: seq<O.Command>, previous: seq<(TypeId, Entity)>)
    requires Inv(sc, w, {}) && w.removedEntities == [] && MayReturn(sc, w, phase, o, cs, previous)
    ensures var w' := O.Replace(sc, w, Kept(phase, cs), o, previous);
      Inv(sc, w', {}) && Evolves(sc, w, w') && Tracks(w, w')
  {
    O.ReplaceOwnsEmitted(sc, w, Kept(phase, cs), o, previous);
    ReplaceTracks(sc, w, Kept(phase, cs), o, previous);
  }

  /** The committed row is on record as it stands, or due; every other row stands as the world's move left it. */
  lemma CommittedCovers(sc: Schema, w: WorldState, w': WorldState, id: nat, sh: Shape, p: Planner, known: Known,
                        inflight: set<Owner>, o: Owner, captured: WorldState, writes: seq<(TypeId, Entity)>, entry: seq<Dep>)
    requires sh.Valid() && RevisionsBounded(w) && Evolves(sc, w, w') && Consistent(sh, p, w)
    requires Covered(sc, w, w, id, sh, p, known, inflight)
    requires o.system == id ==> |o.keys| == |sh.queries| && AllCurrent(w, Deps(sc, captured, sh, o.keys))
                                && entry == Refreshed(w', Deps(sc, captured, sh, o.keys), writes)
    ensures Covered(sc, w', w', id, sh, p, Without(known, o) + {(o, entry)}, inflight - {o})
  {
    WorldMovesCovered(sc, w, w', id, sh, p, known, inflight);
    if o.system == id {
      CurrentDepsAreDeps(sc, captured, w, sh, o.keys);
      if Moved(w, w', sh, o.keys) {
        MovedRowIsDue(sc, w, w', sh, p, o.keys);
      } else {
        OwnWritesStayMemoized(sc, w, w', sh, o.keys, writes);
      }
    }
  }

  // ---- retiring ----

  /** What forgetting a table's entries keyed by `es` loses, if each such row that matches is due. */
  lemma ForgetCovers(sc: Schema, v: WorldState, w: WorldState, id: nat, sh: Shape, p: Planner, memo: Memo, rest: Known, inflight: set<Owner>, es: seq<Entity>)
    requires sh.Valid() && Covered(sc, v, w, id, sh, p, rest + Records(memo), inflight)
    requires forall row :: IsRow(v, sh, row) && |row| == |sh.queries| && KeyedBy(Owner(id, row), es) && !Disturbed(v, w, sh, row) ==> Due(sh, p, v, row)
    ensures Covered(sc, v, w, id, sh, p, rest + Records(Forget(memo, es)), inflight)
  {
    forall row | IsRow(v, sh, row) && |row| == |sh.queries| && !Disturbed(v, w, sh, row)
      ensures Recalled(sc, v, sh, rest + Records(Forget(memo, es)), Owner(id, row)) || Owner(id, row) in inflight || Due(sh, p, v, row)
    {
      if !KeyedBy(Owner(id, row), es) { KeptOnRecord(memo, es, Owner(id, row), Deps(sc, v, sh, row)); }
    }
  }

  lemma KeptOnRecord(memo: Memo, es: seq<Entity>, o: Owner, d: seq<Dep>)
    requires !KeyedBy(o, es)
    ensures (o, d) in Records(memo) ==> (o, d) in Records(Forget(memo, es))
  {
    if (o, d) in Records(memo) { assert o in Forget(memo, es) && Forget(memo, es)[o] == d; }
  }

  /** A row that matched before and is keyed by an entity removed since has been disturbed. */
  lemma RemovedRowIsDisturbed(sc: Schema, v: WorldState, w: WorldState, w': WorldState, sh: Shape, id: nat, row: seq<Entity>)
    requires sh.Valid() && Inv(sc, v, {}) && Inv(sc, w, {}) && Evolves(sc, v, w) && Evolves(sc, w, w') && Renewed(w, w')
    requires |row| == |sh.queries| && IsRow(v, sh, row) && KeyedBy(Owner(id, row), w'.removedEntities)
    ensures Disturbed(v, w', sh, row)
  {
    var j :| 0 <= j < |row| && row[j] in w'.removedEntities;
    var k :| 0 <= k < |w'.removedEntities| && w'.removedEntities[k] == row[j];
    if Disturbed(v, w, sh, row) {
      DisturbedStays(sc, v, w, w', sh, row);
    } else {
      if Moved(v, w, sh, row) { MovedIsDisturbed(v, w, sh, row); }
      UnmovedRowIsSame(sc, v, w, sh, row);
      var t := ListedByKey(w, sh, row, j);
      assert Lookup(w, t, row[j]).value.revision <= Mark(w, t) <= w.revision;
      assert Rev(w', t, row[j]).Some? ==> Rev(w', t, w'.removedEntities[k]).value > w.revision;
      assert Moved(w, w', sh, row);
      MovedIsDisturbed(w, w', sh, row);
      DisturbedSince(v, w, w', sh, row);
    }
  }

  /** Each key of a matching row carries a component of interest. */
  lemma ListedByKey(w: WorldState, sh: Shape, row: seq<Entity>, j: nat) returns (t: TypeId)
    requires sh.Valid() && |row| == |sh.queries| && IsRow(w, sh, row) && j < |row|
    ensures t in Interest(sh.queries[j]) && Has(w, t, row[j])
  {
    var q := sh.queries[j];
    t := Listing(q)[0];
    BuildMembers(w, sh.queries, [], Paired, row);
    assert row[j] in Candidates(w, sh.queries, row[..j], Paired);
    RowsAre(w, q);
    assert Has(w, t, row[j]);
    assert t in Interest(q);
  }

  lemma DisturbedSince(v: WorldState, w: WorldState, w': WorldState, sh: Shape, row: seq<Entity>)
    requires |row| == |sh.queries| && Disturbed(w, w', sh, row)
    requires RevisionsBounded(v) && RevisionsBounded(w) && v.revision <= w.revision && v.log <= w.log <= w'.log
    requires MarksGrow(v, w) && MarksGrow(w, w')
    ensures Disturbed(v, w', sh, row)
  {
    if j, t :| 0 <= j < |row| && t in Interest(sh.queries[j]) && Logged(w, w', t, row[j]) && Mark(w', t) > w.revision {
      LoggedTransitive(v, w, w', t, row[j]);
      assert Logged(v, w', t, row[j]) && Mark(w', t) > v.revision;
    } else {
      var i :| 0 <= i < |sh.views| && Mark(w, sh.views[i]) != Mark(w', sh.views[i]);
      assert Mark(v, sh.views[i]) <= v.revision <= w.revision < Mark(w', sh.views[i]);
    }
  }

  /** A row keyed by a removed entity that matches again has moved, so forgetting its memo loses nothing. */
  lemma RenewedRowIsDue(sc: Schema, w: WorldState, w': WorldState, sh: Shape, p: Planner, id: nat, row: seq<Entity>)
    requires sh.Valid() && Inv(sc, w, {}) && Evolves(sc, w, w') && Renewed(w, w') && Consistent(sh, p, w)
    requires |row| == |sh.queries| && IsRow(w', sh, row) && KeyedBy(Owner(id, row), w'.removedEntities)
    ensures Due(sh, p, w', row)
  {
    var j :| 0 <= j < |row| && row[j] in w'.removedEntities;
    var t := ListedByKey(w', sh, row, j);
    var k :| 0 <= k < |w'.removedEntities| && w'.removedEntities[k] == row[j];
    assert Rev(w', t, w'.removedEntities[k]).value > w.revision;
    assert Has(w, t, row[j]) ==> Lookup(w, t, row[j]).value.revision <= Mark(w, t) <= w.revision;
    assert Moved(w, w', sh, row);
    MovedRowIsDue(sc, w, w', sh, p, row);
  }

  ghost predicate ConsistentAll(shapes: seq<Shape>, w: WorldState, planners: seq<Planner>)
    requires |planners| == |shapes|
  {
    forall i :: 0 <= i < |shapes| ==> Consistent(shapes[i], planners[i], w)
  }

  lemma ForceIsConsistent(shapes: seq<Shape>, v: WorldState, planners: seq<Planner>, o: Owner, i: nat)
    requires |planners| == |shapes| && i < |shapes|
    ensures Consistent(shapes[i], planners[i], v) ==> Consistent(shapes[i], Force(shapes, planners, o)[i], v)
  {}

  /** Forcing one row back makes up for its entry, or for its run, whichever system is looked at. */
  lemma ForcedCovers(sc: Schema, shapes: seq<Shape>, v: WorldState, w: WorldState, i: nat, planners: seq<Planner>, known: Known, inflight: set<Owner>, o: Owner)
    requires |planners| == |shapes| && i < |shapes| && shapes[i].Valid() && Shaped(shapes, {o})
    requires Covered(sc, v, w, i, shapes[i], planners[i], known, inflight)
    ensures Covered(sc, v, w, i, shapes[i], Force(shapes, planners, o)[i], Without(known, o), inflight - {o})
  {
    assert o in {o};
    if i == o.system {
      ForceCovers(sc, v, w, i, shapes[i], planners[i], known, inflight, o);
    } else {
      MoreCovers(sc, v, w, i, shapes[i], planners[i], known, inflight, Without(known, o), inflight - {o});
    }
  }

  lemma WithoutEntry(memo: Memo, rest: Known, o: Owner)
    ensures Without(rest + Records(memo), o) <= rest + Records(memo - {o})
  {
    forall r | r in Without(rest + Records(memo), o) ensures r in rest + Records(memo - {o}) {
      if r in Records(memo) { assert r.0 in memo - {o} && (memo - {o})[r.0] == r.1; }
    }
  }

  /** Retiring owners whose components were removed: each forgotten row is forced back. */
  lemma {:induction false} RetireCovers(sc: Schema, shapes: seq<Shape>, v: WorldState, w: WorldState, i: nat, planners: seq<Planner>,
                                        memo: Memo, rest: Known, inflight: set<Owner>, owners: seq<Owner>)
    requires |planners| == |shapes| && i < |shapes| && shapes[i].Valid() && Shaped(shapes, memo.Keys)
    requires Covered(sc, v, w, i, shapes[i], planners[i], rest + Records(memo), inflight)
    ensures var r := RetireOwners(shapes, memo, planners, owners);
      Covered(sc, v, w, i, shapes[i], r.planners[i], rest + Records(r.memo), inflight)
    decreases |owners|
  {
    if owners != [] {
      var o := owners[0];
      if o in memo {
        var forced := Force(shapes, planners, o);
        assert Shaped(shapes, {o});
        ForcedCovers(sc, shapes, v, w, i, planners, rest + Records(memo), inflight, o);
        WithoutEntry(memo, rest, o);
        MoreCovers(sc, v, w, i, shapes[i], forced[i], Without(rest + Records(memo), o), inflight - {o}, rest + Records(memo - {o}), inflight);
        RetireCovers(sc, shapes, v, w, i, forced, memo - {o}, rest, inflight, owners[1..]);
      } else {
        RetireCovers(sc, shapes, v, w, i, planners, memo, rest, inflight, owners[1..]);
      }
    }
  }

  /** What retiring leaves alone: shapes, cursors, settle systems, and everything when no owner had an entry. */
  lemma {:induction false} RetireFrame(shapes: seq<Shape>, planners: seq<Planner>, memo: Memo, owners: seq<Owner>)
    requires |planners| == |shapes|
    ensures var r := RetireOwners(shapes, memo, planners, owners);
      && (Shaped(shapes, memo.Keys) ==> Shaped(shapes, r.memo.Keys))
      && (SettleFresh(shapes, planners) ==> SettleFresh(shapes, r.planners))
      && (forall i, v :: 0 <= i < |shapes| && Consistent(shapes[i], planners[i], v) ==> Consistent(shapes[i], r.planners[i], v))
      && (!r.any ==> r.memo == memo && r.planners == planners)
      && r.memo.Keys <= memo.Keys
    decreases |owners|
  {
    if owners != [] {
      var o := owners[0];
      if o in memo {
        forall i, v | 0 <= i < |shapes| && Consistent(shapes[i], planners[i], v) ensures Consistent(shapes[i], Force(shapes, planners, o)[i], v) {
          ForceIsConsistent(shapes, v, planners, o, i);
        }
        RetireFrame(shapes, Force(shapes, planners, o), memo - {o}, owners[1..]);
      } else {
        RetireFrame(shapes, planners, memo, owners[1..]);
      }
    }
  }

  /** What accounting for removals leaves alone. */
  lemma ReconciledFrame(sc: Schema, shapes: seq<Shape>, w: WorldState, memo: Memo, planners: seq<Planner>)
    requires |planners| == |shapes| && Inv(sc, w, {})
    ensures var a := Reconciled(shapes, w, memo, planners);
      && Inv(sc, a.world, {}) && Evolves(sc, w, a.world) && SameObservations(w, a.world)
      && (Shaped(shapes, memo.Keys) ==> Shaped(shapes, a.memo.Keys))
      && (SettleFresh(shapes, planners) ==> SettleFresh(shapes, a.planners))
      && (forall i, v :: 0 <= i < |shapes| && Consistent(shapes[i], planners[i], v) ==> Consistent(shapes[i], a.planners[i], v))
      && (w.removedComponentOwners == [] ==> a.planners == planners)
      && a.memo.Keys <= memo.Keys
  {
    DrainedIsSame(sc, w);
    RetireFrame(shapes, planners, memo, w.removedComponentOwners);
  }

  /**
   Accounting for what a commit removed leaves every system covered: in the view it had before, disturbed rows apart; and
   a view that was the world committed to can then catch up.
   */
  lemma ReconciledCovers(sc: Schema, shapes: seq<Shape>, v: WorldState, before: WorldState, w: WorldState, i: nat, planners: seq<Planner>,
                         memo: Memo, rest: Known, inflight: set<Owner>)
    requires |planners| == |shapes| && i < |shapes| && shapes[i].Valid() && Shaped(shapes, memo.Keys)
    requires Inv(sc, v, {}) && Inv(sc, before, {}) && Inv(sc, w, {})
    requires Evolves(sc, v, before) && Evolves(sc, before, w) && Evolves(sc, v, w) && Renewed(before, w)
    requires Covered(sc, v, w, i, shapes[i], planners[i], rest + Records(memo), inflight)
    ensures var a := Reconciled(shapes, w, memo, planners);
      Covered(sc, v, a.world, i, shapes[i], a.planners[i], rest + Records(a.memo), inflight)
  {
    var r := RetireOwners(shapes, memo, planners, w.removedComponentOwners);
    var a := Reconciled(shapes, w, memo, planners);
    DrainedIsSame(sc, w);
    RetireCovers(sc, shapes, v, w, i, planners, memo, rest, inflight, w.removedComponentOwners);
    if !r.any {
      forall row | IsRow(v, shapes[i], row) && |row| == |shapes[i].queries| && KeyedBy(Owner(i, row), w.removedEntities)
        ensures Disturbed(v, w, shapes[i], row)
      {
        RemovedRowIsDisturbed(sc, v, before, w, shapes[i], i, row);
      }
      ForgetCovers(sc, v, w, i, shapes[i], r.planners[i], r.memo, rest, inflight, w.removedEntities);
    }
    MovesAhead(sc, v, w, a.world, i, shapes[i], a.planners[i], rest + Records(a.memo), inflight);
  }

  /** The same in the world committed to, once the commit's own row is on record in it. */
  lemma ReconciledLevel(sc: Schema, shapes: seq<Shape>, before: WorldState, w: WorldState, i: nat, planners: seq<Planner>,
                        memo: Memo, rest: Known, inflight: set<Owner>)
    requires |planners| == |shapes| && i < |shapes| && shapes[i].Valid() && Shaped(shapes, memo.Keys)
    requires Inv(sc, before, {}) && Inv(sc, w, {}) && Evolves(sc, before, w) && Renewed(before, w)
    requires Consistent(shapes[i], planners[i], before) && Consistent(shapes[i], planners[i], w)
    requires Covered(sc, w, w, i, shapes[i], planners[i], rest + Records(memo), inflight)
    ensures var a := Reconciled(shapes, w, memo, planners);
      Covered(sc, a.world, a.world, i, shapes[i], a.planners[i], rest + Records(a.memo), inflight)
      && Consistent(shapes[i], a.planners[i], a.world)
  {
    var r := RetireOwners(shapes, memo, planners, w.removedComponentOwners);
    var a := Reconciled(shapes, w, memo, planners);
    ReconciledFrame(sc, shapes, w, memo, planners);
    RetireFrame(shapes, planners, memo, w.removedComponentOwners);
    RetireCovers(sc, shapes, w, w, i, planners, memo, rest, inflight, w.removedComponentOwners);
    if !r.any {
      forall row | IsRow(w, shapes[i], row) && |row| == |shapes[i].queries| && KeyedBy(Owner(i, row), w.removedEntities)
        ensures Due(shapes[i], r.planners[i], w, row)
      {
        RenewedRowIsDue(sc, before, w, shapes[i], planners[i], i, row);
      }
      ForgetCovers(sc, w, w, i, shapes[i], r.planners[i], r.memo, rest, inflight, w.removedEntities);
    }
    WorldMovesCovered(sc, w, a.world, i, shapes[i], a.planners[i], rest + Records(a.memo), inflight);
  }
}
