/**
 The world's lists of what was removed since they were last drained: they name every removed entity, they change
 only when the world's revision does, and whatever is back on a removed entity was written after its removal.
 */
module RemovedLists {
  import opened Ids
  import opened World
  import opened WorldLemmas
  import M = Mutators
  import R = Removal
  import P = InPlace
  import O = Output

  /** No entity was removed, and the owner lists moved only along with the revision. */
  ghost predicate Spared(w: WorldState, w': WorldState) {
    && w.revision <= w'.revision
    && w'.removedEntities == w.removedEntities
    && (w.revision < w'.revision
        || (w'.removedOwners == w.removedOwners && w'.removedComponentOwners == w.removedComponentOwners))
  }

  /** What is stored on an entity removed since `base` was written since `base`. */
  ghost predicate Renewed(base: WorldState, w: WorldState) {
    forall i, t :: 0 <= i < |w.removedEntities| && Rev(w, t, w.removedEntities[i]).Some? ==>
      Rev(w, t, w.removedEntities[i]).value > base.revision
  }

  lemma EvolvingKeepsRenewed(sc: Schema, base: WorldState, w: WorldState, w': WorldState)
    requires base.revision <= w.revision && Renewed(base, w)
    requires Evolves(sc, w, w') && w'.removedEntities == w.removedEntities
    ensures Renewed(base, w')
  {
    forall i, t | 0 <= i < |w'.removedEntities| && Rev(w', t, w'.removedEntities[i]).Some?
      ensures Rev(w', t, w'.removedEntities[i]).value > base.revision
    {
      var e := w'.removedEntities[i];
      if Rev(w', t, e) == Rev(w, t, e) { assert w.removedEntities[i] == e; }
    }
  }

  lemma RelinkSpares(sc: Schema, w: WorldState, t: TypeId, e: Entity, before: Option<Entity>, after: Option<Entity>)
    ensures Spared(w, M.Relink(sc, w, t, e, before, after))
  {}

  lemma InsertSpares(sc: Schema, w: WorldState, t: TypeId, e: Entity, v: Value, owner: Option<Owner>)
    ensures Spared(w, M.Insert(sc, w, t, e, v, owner))
  {
    RelinkSpares(sc, Write(sc, w, t, e, v, owner), t, e, EdgeAt(sc, w, t, e), EdgeOf(sc, t, v));
  }

  lemma RemoveComponentSpares(sc: Schema, w: WorldState, t: TypeId, e: Entity, remover: Option<Owner>)
    ensures Spared(w, M.RemoveComponent(sc, w, t, e, remover))
  {
    if Has(w, t, e) { RelinkSpares(sc, EraseComponent(w, t, e, remover), t, e, EdgeAt(sc, w, t, e), None); }
  }

  lemma RemoveDerivedSpares(sc: Schema, w: WorldState, t: TypeId, e: Entity, owner: Owner)
    ensures Spared(w, M.RemoveDerivedEntry(sc, w, t, e, owner))
  {
    if OwnerAt(w, t, e) == Some(owner) { RelinkSpares(sc, Erase(w, t, e), t, e, EdgeAt(sc, w, t, e), None); }
  }

  lemma {:induction false} DetachSpares(sc: Schema, w: WorldState, e: Entity, edges: seq<(TypeId, Entity)>)
    ensures Spared(w, R.Detach(sc, w, e, edges))
    decreases |edges|
  {
    if edges != [] { DetachSpares(sc, RemoveMember(sc, w, edges[0].0, e, edges[0].1), e, edges[1..]); }
  }

  lemma {:induction false} RetractSpares(sc: Schema, w: WorldState, rs: seq<(TypeId, Entity)>)
    ensures Spared(w, R.Retract(sc, w, rs))
    decreases |rs|
  {
    if rs != [] {
      RemoveComponentSpares(sc, w, rs[0].0, rs[0].1, None);
      RetractSpares(sc, M.RemoveComponent(sc, w, rs[0].0, rs[0].1, None), rs[1..]);
    }
  }

  lemma {:induction false} UnownedHasNoOwners(w: WorldState, e: Entity, order: seq<TypeId>)
    requires forall t :: !Has(w, t, e)
    ensures R.OwnersOf(w, e, order) == []
    decreases |order|
  {
    if order != [] { UnownedHasNoOwners(w, e, order[1..]); }
  }

  /** A removed entity is listed; its owners are listed only if it carried something, which moved the revision. */
  lemma RemoveEntityLists(sc: Schema, w: WorldState, e: Entity, order: seq<TypeId>)
    requires R.Visits(w, order)
    ensures var w' := R.RemoveEntity(sc, w, e, order);
      && w.revision <= w'.revision
      && w'.removedEntities == w.removedEntities + [e]
      && (w.revision < w'.revision
          || (w'.removedOwners == w.removedOwners && w'.removedComponentOwners == w.removedComponentOwners))
  {
    R.ClearedReads(w, e, order);
    R.StripAllReads(w, e, order);
    var c := R.Cleared(w, e, order);
    var d := R.Detach(sc, c, e, R.EdgesOf(sc, w, e, order));
    DetachSpares(sc, c, e, R.EdgesOf(sc, w, e, order));
    RetractSpares(sc, d, R.RetractionsOf(sc, w, e, order));
    if forall t :: !Has(w, t, e) { UnownedHasNoOwners(w, e, order); }
  }

  lemma RemovingRenews(sc: Schema, base: WorldState, w: WorldState, e: Entity, order: seq<TypeId>, loose: Loose)
    requires Inv(sc, w, loose) && R.Visits(w, order)
    requires base.revision <= w.revision && Renewed(base, w)
    ensures Renewed(base, R.RemoveEntity(sc, w, e, order))
  {
    var w' := R.RemoveEntity(sc, w, e, order);
    R.RemoveEntityKeepsInv(sc, w, e, order, loose);
    RemoveEntityLists(sc, w, e, order);
    forall i, t | 0 <= i < |w'.removedEntities| && Rev(w', t, w'.removedEntities[i]).Some?
      ensures Rev(w', t, w'.removedEntities[i]).value > base.revision
    {
      var f := w'.removedEntities[i];
      if f != e && Rev(w', t, f) == Rev(w, t, f) { assert w.removedEntities[i] == f; }
    }
  }

  // ---- over a buffer, a sweep and a reconcile ----

  /** The lists grow only along with the revision, and the removed entities are renewed since `base`. */
  ghost predicate Tracks(base: WorldState, w: WorldState) {
    && base.revision <= w.revision && Renewed(base, w)
    && (base.revision < w.revision
        || (w.removedOwners == base.removedOwners && w.removedComponentOwners == base.removedComponentOwners))
  }

  lemma SparedTracks(sc: Schema, base: WorldState, w: WorldState, w': WorldState)
    requires Tracks(base, w) && Spared(w, w') && Evolves(sc, w, w')
    ensures Tracks(base, w')
  {
    EvolvingKeepsRenewed(sc, base, w, w');
  }

  lemma StepTracks(sc: Schema, base: WorldState, w: WorldState, c: O.Command, o: Owner, loose: Loose)
    requires Inv(sc, w, loose) && O.Legal(sc, w, c) && Tracks(base, w)
    ensures Tracks(base, O.Step(sc, w, c, o))
  {
    match c
    case Put(t, e, v) =>
      var stored := if t == sc.derivedFrom then O.Capture(sc, w, v) else v;
      M.InsertKeepsInv(sc, w, t, e, stored, Some(o), loose);
      InsertSpares(sc, w, t, e, stored, Some(o));
      SparedTracks(sc, base, w, O.Step(sc, w, c, o));
    case Drop(t, e) =>
      M.RemoveComponentKeepsInv(sc, w, t, e, Some(o), loose);
      RemoveComponentSpares(sc, w, t, e, Some(o));
      SparedTracks(sc, base, w, O.Step(sc, w, c, o));
    case Despawn(e, order) =>
      RemoveEntityLists(sc, w, e, order);
      RemovingRenews(sc, base, w, e, order, loose);
  }

  lemma {:induction false} StepsTrack(sc: Schema, base: WorldState, w: WorldState, cs: seq<O.Command>, o: Owner,
                                      emitted: set<(TypeId, Entity)>, loose: Loose)
    requires O.Replacing(sc, w, o, emitted, loose) && O.LegalSteps(sc, w, cs, o) && Tracks(base, w)
    ensures Tracks(base, O.Steps(sc, w, cs, o))
    decreases |cs|
  {
    if cs != [] {
      var c := cs[0];
      var next := O.Step(sc, w, c, o);
      StepTracks(sc, base, w, c, o, loose);
      O.StepReplaces(sc, w, c, o, emitted, loose);
      StepsTrack(sc, base, next, cs[1..], o,
                 O.Present(next, if c.Put? then emitted + {(c.t, c.e)} else emitted),
                 if c.Put? then loose - {(o, c.t, c.e)} else loose);
    }
  }

  lemma {:induction false} SweepSpares(sc: Schema, w: WorldState, o: Owner, previous: seq<(TypeId, Entity)>)
    ensures Spared(w, O.Sweep(sc, w, o, previous))
    decreases |previous|
  {
    if previous != [] {
      var (t, e) := previous[0];
      RemoveDerivedSpares(sc, w, t, e, o);
      SweepSpares(sc, if Indexed(w, o, t, e) then w else M.RemoveDerivedEntry(sc, w, t, e, o), o, previous[1..]);
    }
  }

  /** One accepted output, from take to sweep. */
  lemma ReplaceTracks(sc: Schema, w: WorldState, cs: seq<O.Command>, o: Owner, previous: seq<(TypeId, Entity)>)
    requires Inv(sc, w, {}) && O.Lists(previous, O.Outputs(w, o)) && w.removedEntities == []
    requires O.LegalSteps(sc, O.Take(w, o), O.Reordered(sc, cs), o)
    ensures Tracks(w, O.Replace(sc, w, cs, o, previous))
  {
    var taken := O.Take(w, o);
    var loose := set p | p in O.Outputs(w, o) :: (o, p.0, p.1);
    O.TakeLoosens(sc, w, o);
    O.DeferralReorders(sc, taken, cs, o);
    var applied := O.ApplyBuffer(sc, taken, cs, o);
    StepsTrack(sc, w, taken, O.Reordered(sc, cs), o, {}, loose);
    var left := O.StepsReplace(sc, taken, O.Reordered(sc, cs), o, {}, loose);
    SweptTracks(sc, w, applied, o, previous, O.Emitted(sc, taken, O.Reordered(sc, cs), o, {}), left) by {
      O.OutputsAreOrdinary(sc, w, o, previous);
      forall x | x in left ensures x.0 == o && (x.1, x.2) in previous {
        assert x in loose;
        var p :| p in O.Outputs(w, o) && x == (o, p.0, p.1);
        assert p == (x.1, x.2);
      }
    }
  }

  lemma SweptTracks(sc: Schema, base: WorldState, w: WorldState, o: Owner, previous: seq<(TypeId, Entity)>,
                    emitted: set<(TypeId, Entity)>, left: Loose)
    requires O.Replacing(sc, w, o, emitted, left) && Tracks(base, w)
    requires forall i :: 0 <= i < |previous| ==> !sc.Kind(previous[i].0).Inverse?
    requires forall x :: x in left ==> x.0 == o && (x.1, x.2) in previous
    ensures Tracks(base, O.Sweep(sc, w, o, previous))
  {
    O.SweepClears(sc, w, o, previous, emitted, left);
    SweepSpares(sc, w, o, previous);
    SparedTracks(sc, base, w, O.Sweep(sc, w, o, previous));
  }

  lemma {:induction false} ReconcileSpares(sc: Schema, w: WorldState, writes: seq<(TypeId, Entity)>)
    ensures Spared(w, P.ReconcileAll(sc, w, writes))
    decreases |writes|
  {
    if writes != [] {
      ReconcileSpares(sc, P.Reconcile(sc, w, writes[0].0, writes[0].1), writes[1..]);
    }
  }
}
