/**
 How far a commit's accounting for removals reaches: into the table of whoever commits, and no further. An invocation on
 record in somebody else's table that loses an output keeps its entry and is not forced.
 */
module StrayOutputs {
  import opened Ids
  import opened World
  import opened Queries
  import opened Joins
  import opened Planners
  import opened Coverage
  import opened Admission
  import opened Phases
  import opened PhaseProofs
  import opened CommitProofs
  import opened OutsideSteps
  import opened EngineRuns
  import opened TableHolders
  import O = Output

  /** Exactly the listed owners with an entry lose it, and exactly when there is one is anything done. */
  lemma {:induction false} RetiresListed(shapes: seq<Shape>, memo: Memo, planners: seq<Planner>, owners: seq<Owner>)
    requires |planners| == |shapes|
    ensures var r := RetireOwners(shapes, memo, planners, owners);
      && (forall o :: o in r.memo <==> o in memo && o !in owners) && (forall o :: o in r.memo ==> r.memo[o] == memo[o])
      && (r.any <==> exists o :: o in owners && o in memo)
    decreases |owners|
  {
    if owners != [] {
      var o := owners[0];
      if o in memo {
        RetiresListed(shapes, memo - {o}, Force(shapes, planners, o), owners[1..]);
      } else {
        RetiresListed(shapes, memo, planners, owners[1..]);
      }
    }
  }

  /** A system none of whose listed invocations has an entry keeps its planner. */
  lemma {:induction false} OthersKeepPlanner(shapes: seq<Shape>, memo: Memo, planners: seq<Planner>, owners: seq<Owner>, i: nat)
    requires |planners| == |shapes| && i < |shapes| && forall o :: o in owners && o in memo ==> o.system != i
    ensures RetireOwners(shapes, memo, planners, owners).planners[i] == planners[i]
    decreases |owners|
  {
    if owners != [] {
      var o := owners[0];
      assert forall p :: p in owners[1..] ==> p in owners;
      if o in memo {
        OthersKeepPlanner(shapes, memo - {o}, Force(shapes, planners, o), owners[1..], i);
      } else {
        OthersKeepPlanner(shapes, memo, planners, owners[1..], i);
      }
    }
  }

  lemma {:induction false} DueStaysForced(shapes: seq<Shape>, memo: Memo, planners: seq<Planner>, owners: seq<Owner>, i: nat, v: WorldState, row: seq<Entity>)
    requires |planners| == |shapes| && i < |shapes| && Due(shapes[i], planners[i], v, row)
    ensures Due(shapes[i], RetireOwners(shapes, memo, planners, owners).planners[i], v, row)
    decreases |owners|
  {
    if owners != [] {
      var o := owners[0];
      if o in memo {
        if o.system == i { ForcingKeepsDue(shapes[i], planners[i], v, o.keys, row); }
        DueStaysForced(shapes, memo - {o}, Force(shapes, planners, o), owners[1..], i, v, row);
      } else {
        DueStaysForced(shapes, memo, planners, owners[1..], i, v, row);
      }
    }
  }

  /** A listed owner with an entry is forced back: its row is due whatever world its system plans from. */
  lemma {:induction false} ListedIsDue(shapes: seq<Shape>, memo: Memo, planners: seq<Planner>, owners: seq<Owner>, o: Owner, v: WorldState)
    requires |planners| == |shapes| && o in owners && o in memo && Shaped(shapes, memo.Keys)
    ensures Due(shapes[o.system], RetireOwners(shapes, memo, planners, owners).planners[o.system], v, o.keys)
    decreases |owners|
  {
    var first := owners[0];
    if first == o {
      var forced := Force(shapes, planners, o);
      ForcedIsDue(shapes[o.system], planners[o.system], v, o.keys);
      DueStaysForced(shapes, memo - {o}, forced, owners[1..], o.system, v, o.keys);
    } else if first in memo {
      ListedIsDue(shapes, memo - {first}, Force(shapes, planners, first), owners[1..], o, v);
    } else {
      ListedIsDue(shapes, memo, planners, owners[1..], o, v);
    }
  }

  /** No invocation of the system lost an output it is on record for in this table. */
  predicate Spared(w: WorldState, memo: Memo, i: nat) {
    forall p :: p in w.removedComponentOwners && p in memo ==> p.system != i
  }

  /**
   A settle's commit, for an invocation that lost an output in it: it is forgotten in the settle's own table, and if it had
   an entry there it is forced back. Any other table stays as it is, and so does the planner of every system spared.
   */
  lemma CommitReachesOwnTable(shapes: seq<Shape>, g: Engine, id: nat, w: WorldState, memo: Memo, flights: Flights, o: Owner)
    requires id in g.tasks && |g.planners| == |shapes| && Shaped(shapes, memo.Keys) && o in w.removedComponentOwners
    ensures var h := TaskCommits(shapes, g, id, w, memo, flights);
      && id in h.tasks && o !in h.tasks[id].memo && Besides(h, id) == Besides(g, id)
      && (o in memo ==> forall v :: Due(shapes[o.system], h.planners[o.system], v, o.keys))
      && |h.planners| == |shapes| && forall i :: 0 <= i < |shapes| && Spared(w, memo, i) ==> h.planners[i] == g.planners[i]
  {
    var h := TaskCommits(shapes, g, id, w, memo, flights);
    TaskCommitFrame(shapes, g, id, w, memo, flights);
    RetiresListed(shapes, memo, g.planners, w.removedComponentOwners);
    assert h.tasks - {id} == g.tasks - {id};
    if o in memo {
      forall v ensures Due(shapes[o.system], h.planners[o.system], v, o.keys) {
        ListedIsDue(shapes, memo, g.planners, w.removedComponentOwners, o, v);
      }
    }
    forall i | 0 <= i < |shapes| && Spared(w, memo, i) ensures h.planners[i] == g.planners[i] {
      OthersKeepPlanner(shapes, memo, g.planners, w.removedComponentOwners, i);
    }
  }

  /** Over every run in which settles overlap neither each other nor a generation there is no other table. */
  lemma AloneReachesAll(sc: Schema, shapes: seq<Shape>, states: seq<Engine>, events: seq<Event>, k: nat, id: nat)
    requires Run(sc, shapes, states, events) && k <= |events| && id in states[k].tasks
    requires forall m :: 0 <= m < k ==> Alone(states[m], events[m])
    ensures Besides(states[k], id) == {}
  {
    AloneRuns(sc, shapes, states, events, k);
    RunKeepsOk(sc, shapes, states, events, k);
    assert states[k].tasks - {id} == map[] by { assert forall n :: n !in states[k].tasks - {id}; }
  }

  // ---- an output taken from under a generation ----

  /** `w'` is `w` less one plain component. */
  ghost predicate Less(w: WorldState, w': WorldState, t: TypeId, e: Entity) {
    && !Has(w', t, e) && (forall u, f: Entity :: (u, f) != (t, e) ==> Lookup(w', u, f) == Lookup(w, u, f))
    && (forall u :: u != t ==> Mark(w', u) == Mark(w, u)) && w'.log == w.log + [(t, e)] && w'.epoch == w.epoch
  }

  lemma DropReads(sc: Schema, w: WorldState, t: TypeId, e: Entity, hook: Owner, o: Owner)
    requires Inv(sc, w, {}) && sc.Kind(t) == Plain && OwnerAt(w, t, e) == Some(o) && o != hook && hook !in w.owners
    requires w.removedComponentOwners == []
    ensures var w' := O.Replace(sc, w, [O.Drop(t, e)], hook, []); Less(w, w', t, e) && w'.removedComponentOwners == [o]
    ensures O.LegalSteps(sc, O.Take(w, hook), O.Reordered(sc, [O.Drop(t, e)]), hook) && O.Lists([], O.Outputs(w, hook))
  {
    var cs := [O.Drop(t, e)];
    assert O.Take(w, hook) == w;
    O.NoAnchorsNothingDeferred(sc, cs);
    O.DeferralReorders(sc, w, cs, hook);
    assert cs[1..] == [];
    assert O.Replace(sc, w, cs, hook, []) == EraseComponent(w, t, e, Some(hook));
  }

  lemma {:induction false} TailIgnores(sh: Shape, log: seq<(TypeId, Entity)>, pos: nat, t: TypeId, e: Entity)
    requires t !in sh.Interest()
    ensures Tail(sh, log + [(t, e)], pos) == Tail(sh, log, pos)
    decreases |log| - pos
  {
    if pos < |log| {
      assert (log + [(t, e)])[pos] == log[pos];
      TailIgnores(sh, log, pos + 1, t, e);
    } else if pos == |log| {
      assert Tail(sh, log + [(t, e)], pos + 1) == [];
    }
  }

  lemma {:induction false} MarksElsewhere(w: WorldState, w': WorldState, ts: seq<TypeId>, t: TypeId)
    requires t !in ts && forall u :: u != t ==> Mark(w', u) == Mark(w, u)
    ensures HighMark(w', ts) == HighMark(w, ts)
  {
    if ts != [] { MarksElsewhere(w, w', ts[1..], t); }
  }

  lemma UnconcernedDeps(sc: Schema, w: WorldState, w': WorldState, sh: Shape, row: seq<Entity>, t: TypeId, e: Entity)
    requires Less(w, w', t, e) && sh.Valid() && t !in sh.Interest() && |row| == |sh.queries|
    ensures (IsRow(w', sh, row) <==> IsRow(w, sh, row)) && Deps(sc, w', sh, row) == Deps(sc, w, sh, row)
  {
    forall i | 0 <= i < |sh.views| ensures Mark(w, sh.views[i]) == Mark(w', sh.views[i]) {
      assert sh.views[i] in sh.Interest();
    }
    forall j, u | 0 <= j < |row| && u in Interest(sh.queries[j]) ensures Rev(w, u, row[j]) == Rev(w', u, row[j]) {
      InterestCovers(sh.queries, j);
      assert u in sh.Interest();
    }
    UnmovedRowIsSame(sc, w, w', sh, row);
  }

  lemma UnconcernedHint(w: WorldState, w': WorldState, sh: Shape, p: Planner, t: TypeId, e: Entity)
    requires Less(w, w', t, e) && t !in sh.Interest()
    ensures (Open(sh, p, w') <==> Open(sh, p, w)) && NextHint(sh, p, w') == NextHint(sh, p, w)
  {
    MarksElsewhere(w, w', sh.Interest(), t);
    TailIgnores(sh, w.log, p.pos, t, e);
  }

  /** A component a system has no interest in concerns neither its rows and their dependencies nor what it plans next. */
  lemma UnconcernedIsSame(sc: Schema, w: WorldState, w': WorldState, sh: Shape, p: Planner, row: seq<Entity>, t: TypeId, e: Entity)
    requires Less(w, w', t, e) && sh.Valid() && t !in sh.Interest() && |row| == |sh.queries|
    ensures (IsRow(w', sh, row) <==> IsRow(w, sh, row)) && Deps(sc, w', sh, row) == Deps(sc, w, sh, row)
    ensures Due(sh, p, w', row) <==> Due(sh, p, w, row)
  {
    UnconcernedDeps(sc, w, w', sh, row, t, e);
    UnconcernedHint(w, w', sh, p, t, e);
  }

  /**
   A settled hook drops an output that an invocation of the running generation has committed. The row keeps its entry and
   its planner is left alone; unless its system reads the component dropped, it is as current, and as little due, as it
   was. So the output is gone, and nothing asks for it again.
   */
  lemma HookLeavesStray(sc: Schema, shapes: seq<Shape>, g: Engine, id: nat, hook: Owner, t: TypeId, e: Entity, o: Owner)
    requires Ok(sc, shapes, g) && id in g.tasks && o in g.memo && o !in g.tasks[id].memo
    requires sc.Kind(t) == Plain && OwnerAt(g.world, t, e) == Some(o) && o != hook && hook !in g.world.owners
    ensures MayReturn(sc, g.world, None, hook, [O.Drop(t, e)], []) && o.system < |shapes| && |o.keys| == |shapes[o.system].queries|
    ensures var h, sh := HookFinish(sc, shapes, g, id, hook, [O.Drop(t, e)], []), shapes[o.system];
      && !Has(h.world, t, e) && o in h.memo && h.memo[o] == g.memo[o] && h.planners == g.planners && h.flights == g.flights
      && (t !in sh.Interest() ==>
            && (MemoCurrent(sc, h.world, sh, h.memo, o) <==> MemoCurrent(sc, g.world, sh, g.memo, o))
            && (Due(sh, h.planners[o.system], h.world, o.keys) <==> Due(sh, g.planners[o.system], g.world, o.keys)))
  {
    var w, task := O.Replace(sc, g.world, [O.Drop(t, e)], hook, []), g.tasks[id];
    DropReads(sc, g.world, t, e, hook, o);
    assert Kept(None, [O.Drop(t, e)]) == [O.Drop(t, e)];
    CommitLeavesStray(shapes, g, id, w, t, e, o);
    if t !in shapes[o.system].Interest() {
      UnconcernedIsSame(sc, g.world, Drained(w), shapes[o.system], g.planners[o.system], o.keys, t, e);
    }
  }

  lemma CommitLeavesStray(shapes: seq<Shape>, g: Engine, id: nat, w: WorldState, t: TypeId, e: Entity, o: Owner)
    requires id in g.tasks && |g.planners| == |shapes| && Shaped(shapes, g.tasks[id].memo.Keys) && o !in g.tasks[id].memo
    requires Less(g.world, w, t, e) && w.removedComponentOwners == [o]
    ensures var h := TaskCommits(shapes, g, id, w, g.tasks[id].memo, g.tasks[id].flights);
      h.world == Drained(w) && Less(g.world, h.world, t, e) && h.memo == g.memo && h.planners == g.planners && h.flights == g.flights
  {
    assert o in w.removedComponentOwners;
    CommitReachesOwnTable(shapes, g, id, w, g.tasks[id].memo, g.tasks[id].flights, o);
    assert forall i :: 0 <= i < |shapes| ==> Spared(w, g.tasks[id].memo, i);
    TaskCommitFrame(shapes, g, id, w, g.tasks[id].memo, g.tasks[id].flights);
    DrainedLess(g.world, w, t, e);
  }

  lemma DrainedLess(w: WorldState, w': WorldState, t: TypeId, e: Entity)
    requires Less(w, w', t, e)
    ensures Less(w, Drained(w'), t, e)
  {
    assert forall u, f: Entity :: Lookup(Drained(w'), u, f) == Lookup(w', u, f);
    assert forall u :: Mark(Drained(w'), u) == Mark(w', u);
  }
}
