/**
 A commit that both takes a component from another invocation and removes an entity: its retirement stops at the first,
 and what is keyed by the removed entity stays.
 */
module CutShort {
  import opened Ids
  import opened World
  import opened Retirement
  import H = Handles
  import M = Mutators
  import R = Removal
  import O = Output

  const FACT := Value(0, None, None, [], [])

  /** Keyed by entity 1, with an output on entity 3. */
  const KEPT := Owner(0, [1])

  /** Its output on entity 7 is about to be dropped by another invocation. */
  const LOSER := Owner(1, [5])

  const COMMITTER := Owner(2, [9])

  function TwoOutputs(): WorldState {
    M.Insert(H.Edged(), M.Insert(H.Edged(), H.OneFact(), 2, 3, FACT, Some(KEPT)), 2, 7, FACT, Some(LOSER))
  }

  const BUFFER := [O.Drop(2, 7), O.Despawn(1, [1, 2])]

  lemma OutputAdded(sc: Schema, w: WorldState, e: Entity, o: Owner)
    requires Inv(sc, w, {}) && sc.Kind(2) == Plain && !Has(w, 2, e)
    ensures var w' := M.Insert(sc, w, 2, e, FACT, Some(o));
      && Inv(sc, w', {}) && w'.owners.Keys == w.owners.Keys + {o} && w'.stores.Keys == w.stores.Keys + {2}
      && w'.removedComponentOwners == w.removedComponentOwners
      && OwnerAt(w', 2, e) == Some(o)
      && (forall t, f: Entity :: !sc.Kind(t).Inverse? && (t, f) != (2, e) ==> Lookup(w', t, f) == Lookup(w, t, f))
  {
    M.InsertKeepsInv(sc, w, 2, e, FACT, Some(o), {});
    M.InsertReads(sc, w, 2, e, FACT, Some(o), {});
    assert M.Insert(sc, w, 2, e, FACT, Some(o)) == Write(sc, w, 2, e, FACT, Some(o));
  }

  /** The world the committer finds: the two outputs, and nothing of its own. */
  ghost predicate Found(sc: Schema, w: WorldState) {
    && Inv(sc, w, {}) && COMMITTER !in w.owners && w.stores.Keys == {1, 2} && w.removedComponentOwners == []
    && sc.derivedFrom == 0 && sc.Kind(1) == Plain && sc.Kind(2) == Plain
    && OwnerAt(w, 2, 3) == Some(KEPT) && OwnerAt(w, 2, 7) == Some(LOSER)
  }

  lemma TwoOutputsAdded(sc: Schema, w: WorldState)
    requires Inv(sc, w, {}) && sc.derivedFrom == 0 && sc.Kind(1) == Plain && sc.Kind(2) == Plain
    requires w.stores.Keys == {1} && w.owners == map[] && w.removedComponentOwners == []
    ensures Found(sc, M.Insert(sc, M.Insert(sc, w, 2, 3, FACT, Some(KEPT)), 2, 7, FACT, Some(LOSER)))
  {
    var first := M.Insert(sc, w, 2, 3, FACT, Some(KEPT));
    assert 2 !in w.stores && !Has(w, 2, 3) && !Has(w, 2, 7);
    OutputAdded(sc, w, 3, KEPT);
    assert Lookup(first, 2, 7) == Lookup(w, 2, 7);
    OutputAdded(sc, first, 7, LOSER);
  }

  lemma TwoOutputsAreFound()
    ensures Found(H.Edged(), TwoOutputs())
  {
    H.OneFactHolds();
    H.OneFactOwnsNothing();
    TwoOutputsAdded(H.Edged(), H.OneFact());
  }

  /** The committing run's buffer, over the world it finds. */
  lemma BufferApplies(sc: Schema, w: WorldState)
    requires Found(sc, w)
    ensures var dropped := M.RemoveComponent(sc, w, 2, 7, Some(COMMITTER));
      && O.Replace(sc, w, BUFFER, COMMITTER, []) == R.RemoveEntity(sc, dropped, 1, [1, 2])
      && O.LegalSteps(sc, O.Take(w, COMMITTER), O.Reordered(sc, BUFFER), COMMITTER)
      && R.Visits(dropped, [1, 2])
  {
    var dropped := M.RemoveComponent(sc, w, 2, 7, Some(COMMITTER));
    assert O.Take(w, COMMITTER) == w;
    assert dropped.stores.Keys == {1, 2};
    var rest := [O.Despawn(1, [1, 2])];
    assert BUFFER[1..] == rest && rest[1..] == [];
    forall i | 0 <= i < |BUFFER| ensures !O.Anchors(sc, BUFFER[i]) {}
    O.NoAnchorsNothingDeferred(sc, BUFFER);
    O.DeferralReorders(sc, w, BUFFER, COMMITTER);
    assert O.Steps(sc, w, BUFFER, COMMITTER) == O.Steps(sc, dropped, rest, COMMITTER);
    assert O.Steps(sc, dropped, rest, COMMITTER) == R.RemoveEntity(sc, dropped, 1, [1, 2]);
  }

  lemma {:induction false} PlainHasNoEdges(sc: Schema, w: WorldState, e: Entity, order: seq<TypeId>)
    requires forall t :: t in order ==> sc.Kind(t) == Plain
    ensures R.EdgesOf(sc, w, e, order) == [] && R.RetractionsOf(sc, w, e, order) == []
  {
    if order != [] { PlainHasNoEdges(sc, w, e, order[1..]); }
  }

  /** An entity without relationships retracts nothing of others. */
  lemma DespawnLists(sc: Schema, w: WorldState, e: Entity, order: seq<TypeId>)
    requires forall t :: t in order ==> sc.Kind(t) == Plain
    ensures var x := R.RemoveEntity(sc, w, e, order);
      x.removedEntities == w.removedEntities + [e] && x.removedComponentOwners == w.removedComponentOwners
  {
    PlainHasNoEdges(sc, w, e, order);
    R.StripAllReads(w, e, order);
  }

  lemma BufferRemoves(sc: Schema, w: WorldState)
    requires Found(sc, w) && R.Visits(M.RemoveComponent(sc, w, 2, 7, Some(COMMITTER)), [1, 2])
    ensures var x := R.RemoveEntity(sc, M.RemoveComponent(sc, w, 2, 7, Some(COMMITTER)), 1, [1, 2]);
      Inv(sc, x, {}) && x.removedComponentOwners == [LOSER] && 1 in x.removedEntities && OwnerAt(x, 2, 3) == Some(KEPT)
  {
    var dropped := M.RemoveComponent(sc, w, 2, 7, Some(COMMITTER));
    M.RemoveComponentKeepsInv(sc, w, 2, 7, Some(COMMITTER), {});
    assert dropped.removedComponentOwners == [LOSER];
    R.RemoveEntityKeepsInv(sc, dropped, 1, [1, 2], {});
    DespawnLists(sc, dropped, 1, [1, 2]);
    assert (dropped.removedEntities + [1])[|dropped.removedEntities|] == 1;
    assert Lookup(dropped, 2, 3) == Lookup(w, 2, 3);
  }

  lemma KeptIsNotCleared(owners: Index, left: map<Owner, bool>, systems: Option<set<nat>>, removed: set<Entity>)
    requires KEPT in left && 1 in removed
    ensures KeyedIn(KEPT, {1}) && !Cleared(owners, left, systems, removed)
  {
    assert KEPT.keys[0] == 1;
  }

  lemma CommitRemoves(sc: Schema, w: WorldState)
    requires Found(sc, w)
    ensures O.LegalSteps(sc, O.Take(w, COMMITTER), O.Reordered(sc, BUFFER), COMMITTER)
    ensures var x := O.Replace(sc, w, BUFFER, COMMITTER, []);
      Inv(sc, x, {}) && x.removedComponentOwners == [LOSER] && 1 in x.removedEntities && OwnerAt(x, 2, 3) == Some(KEPT)
  {
    BufferApplies(sc, w);
    BufferRemoves(sc, w);
  }

  /** One commit, and the retirement that ends it, over any such world. */
  method CommitAndRetire(sc: Schema, w: WorldState, memo: map<Owner, bool>)
    returns (x: WorldState, done: WorldState, left: map<Owner, bool>)
    requires Found(sc, w) && KEPT in memo && LOSER in memo
    ensures O.LegalSteps(sc, O.Take(w, COMMITTER), O.Reordered(sc, BUFFER), COMMITTER)
    ensures x == O.Replace(sc, w, BUFFER, COMMITTER, []) && 1 in x.removedEntities && x.removedComponentOwners == [LOSER]
    ensures KeyedIn(KEPT, {1}) && LOSER !in left && KEPT in left && OwnerAt(done, 2, 3) == Some(KEPT)
    ensures !Cleared(done.owners, left, Some({KEPT.system}), set e | e in x.removedEntities)
  {
    x := O.Replace(sc, w, BUFFER, COMMITTER, []);
    CommitRemoves(sc, w);
    assert LOSER in x.removedComponentOwners;
    var forced, clean, removed := [], true, set e | e in x.removedEntities;
    ghost var visited;
    done, left, forced, clean, visited := RetireInCommit(sc, x, memo, removed, x.removedOwners, x.removedComponentOwners, {KEPT.system});
    assert KEPT !in (set o | o in x.removedComponentOwners);
    KeptIsNotCleared(done.owners, left, Some({KEPT.system}), removed);
  }

  /**
   The commit retires the loser's memo and stops: the invocation keyed by the entity the same commit removed keeps its
   memo and its output.
   */
  method MemoOutlivesItsKey() returns (sc: Schema, w: WorldState, x: WorldState, done: WorldState, left: map<Owner, bool>)
    ensures Inv(sc, w, {}) && O.LegalSteps(sc, O.Take(w, COMMITTER), O.Reordered(sc, BUFFER), COMMITTER)
    ensures x == O.Replace(sc, w, BUFFER, COMMITTER, []) && 1 in x.removedEntities && KeyedIn(KEPT, {1})
    ensures KEPT in left && OwnerAt(done, 2, 3) == Some(KEPT)
    ensures !Cleared(done.owners, left, Some({KEPT.system}), set e | e in x.removedEntities)
  {
    sc, w := H.Edged(), TwoOutputs();
    TwoOutputsAreFound();
    x, done, left := CommitAndRetire(sc, w, map[KEPT := true, LOSER := true]);
  }
}
