/**
 Writes that mutate a component's shared cell: `MutRef` rows, whose bookkeeping waits for the commit's reconcile,
 and external `Mut`/`Cow` updates, which keep their books at once. Neither maintains relationships, so the
 mutated value must keep its edge target and its member list.
 */
module InPlace {
  import opened Ids
  import opened Ascending
  import opened Presence
  import opened World
  import opened WorldLemmas

  predicate KeepsLinks(before: Value, after: Value) {
    before.target == after.target && before.members == after.members
  }

  /** A running invocation writes through its guard: the value moves, the books do not. */
  function Poke(w: WorldState, t: TypeId, e: Entity, v: Value): WorldState {
    if !Has(w, t, e) then w
    else
      var st := StoreOf(w, t);
      w.(stores := w.stores[t := st.(entries := st.entries[e := st.entries[e].(value := v)])])
  }

  /** Whether a recomputed stamp counts as a change: only for tracked types, and always when there was none. */
  predicate CountsAsChange(sc: Schema, t: TypeId, before: Option<Stamp>, after: Option<Stamp>) {
    sc.Tracked(t) && (before.None? || before != after)
  }

  /** Restamps one entry; a change raises the world, entry and store revisions together. */
  function Restamped(sc: Schema, w: WorldState, t: TypeId, e: Entity, v: Value): WorldState
    requires Has(w, t, e)
  {
    var st := StoreOf(w, t);
    var before := st.entries[e].stamp;
    var changed := CountsAsChange(sc, t, before, v.stamp);
    var revision := if changed then w.revision + 1 else w.revision;
    var at := if changed then revision else st.entries[e].revision;
    w.(revision := revision,
       stores := w.stores[t := Store(
         st.entries[e := st.entries[e].(value := v, stamp := v.stamp, revision := at)],
         Restamp(st.index, e, before, v.stamp),
         if changed then Max(st.watermark, revision) else st.watermark)])
  }

  /** `reconcile_written` for one row: always logged when the store exists. */
  function Reconcile(sc: Schema, w: WorldState, t: TypeId, e: Entity): WorldState {
    if t !in w.stores then w
    else
      var done := if Has(w, t, e) then Restamped(sc, w, t, e, Lookup(w, t, e).value.value) else w;
      done.(log := w.log + [(t, e)])
  }

  function ReconcileAll(sc: Schema, w: WorldState, writes: seq<(TypeId, Entity)>): WorldState
    decreases |writes|
  {
    if writes == [] then w else ReconcileAll(sc, Reconcile(sc, w, writes[0].0, writes[0].1), writes[1..])
  }

  /** `update_component_live`: logged only when it counts as a change. */
  function Update(sc: Schema, w: WorldState, t: TypeId, e: Entity, v: Value): WorldState {
    if !Has(w, t, e) then w
    else
      var changed := CountsAsChange(sc, t, StampAt(w, t, e), v.stamp);
      var done := Restamped(sc, w, t, e, v);
      if changed then done.(log := w.log + [(t, e)]) else done
  }

  function Spawn(w: WorldState): WorldState {
    w.(next := w.next + 1)
  }

  // ---- the invariant ----

  /** Entries may change value, stamp and revision but not presence, owner or links. */
  ghost predicate SameShape(w: WorldState, w': WorldState) {
    forall t, e: Entity ::
      && (Has(w', t, e) <==> Has(w, t, e))
      && OwnerAt(w', t, e) == OwnerAt(w, t, e)
      && Members(w', t, e) == Members(w, t, e)
      && Link(w', t, e) == Link(w, t, e)
  }

  lemma ShapeDecides(sc: Schema, w: WorldState, w': WorldState, loose: Loose)
    requires SameShape(w, w') && w'.presence == w.presence && w'.owners == w.owners
    requires Inv(sc, w, loose) && IndexExact(w') && RevisionsBounded(w')
    ensures Inv(sc, w', loose)
  {
    forall o, t, e: Entity ensures Indexed(w', o, t, e) ==> OwnerAt(w', t, e) == Some(o) {
      assert Indexed(w, o, t, e) ==> OwnerAt(w, t, e) == Some(o);
    }
    forall t, e: Entity | OwnerAt(w', t, e).Some?
      ensures Indexed(w', OwnerAt(w', t, e).value, t, e) || (OwnerAt(w', t, e).value, t, e) in loose
    {
      assert Indexed(w, OwnerAt(w, t, e).value, t, e) || (OwnerAt(w, t, e).value, t, e) in loose;
    }
    forall v, e: Entity | sc.Kind(v).Inverse? && Has(w', v, e)
      ensures StrictlySorted(Members(w', v, e)) && Members(w', v, e) != [] && OwnerAt(w', v, e).None?
    {
      assert Has(w, v, e);
    }
    forall v, s: Entity, e: Entity | sc.Kind(v).Inverse? ensures Linked(w', v, s, e) <==> Points(sc, w', v, s, e) {
      assert Link(w', sc.Kind(v).edge, s) == Link(w, sc.Kind(v).edge, s);
      assert Linked(w, v, s, e) <==> Points(sc, w, v, s, e);
    }
    assert PresenceExact(w') by {
      if w.presence.Some? {
        forall t: TypeId, e: Entity
          ensures w.presence.value.Bit(t, e) <==> t in w.presence.value.bitFor && Has(w', t, e)
        {
          assert Has(w', t, e) <==> Has(w, t, e);
        }
      }
    }
  }

  lemma PokeKeepsInv(sc: Schema, w: WorldState, t: TypeId, e: Entity, v: Value, loose: Loose)
    requires Inv(sc, w, loose) && (Has(w, t, e) ==> KeepsLinks(Lookup(w, t, e).value.value, v))
    ensures Inv(sc, Poke(w, t, e, v), loose) && Evolves(sc, w, Poke(w, t, e, v))
  {
    var w' := Poke(w, t, e, v);
    EvolvesReflexive(sc, w);
    if Has(w, t, e) {
      assert forall u, f: Entity :: (u, f) != (t, e) ==> Lookup(w', u, f) == Lookup(w, u, f);
      assert SameShape(w, w');
      assert forall u, f: Entity :: Rev(w', u, f) == Rev(w, u, f) && StampAt(w', u, f) == StampAt(w, u, f);
      assert forall u :: Mark(w', u) == Mark(w, u);
      PokeKeepsIndex(w, t, e, v);
      forall u, f: Entity | Has(w', u, f) ensures Lookup(w', u, f).value.revision <= Mark(w', u) { assert Has(w, u, f); }
      ShapeDecides(sc, w, w', loose);
    }
  }

  lemma PokeKeepsIndex(w: WorldState, t: TypeId, e: Entity, v: Value)
    requires IndexExact(w) && Has(w, t, e)
    ensures IndexExact(Poke(w, t, e, v))
  {
    var w' := Poke(w, t, e, v);
    IndexExactByStore(w);
    IndexExactByStore(w');
    forall u ensures StoreIndexExact(StoreOf(w', u)) {
      assert StoreIndexExact(StoreOf(w, u));
      if u == t {
        assert forall s, f: Entity :: f in StoreOf(w', t).entries && StoreOf(w', t).entries[f].stamp == Some(s)
                 <==> f in StoreOf(w, t).entries && StoreOf(w, t).entries[f].stamp == Some(s);
      }
    }
  }

  lemma RestampedKeepsInv(sc: Schema, w: WorldState, t: TypeId, e: Entity, v: Value, loose: Loose)
    requires Inv(sc, w, loose) && Has(w, t, e) && KeepsLinks(Lookup(w, t, e).value.value, v)
    ensures Inv(sc, Restamped(sc, w, t, e, v), loose)
  {
    var w' := Restamped(sc, w, t, e, v);
    assert forall u, f: Entity :: (u, f) != (t, e) ==> Lookup(w', u, f) == Lookup(w, u, f);
    assert SameShape(w, w');
    IndexExactByStore(w);
    IndexExactByStore(w');
    forall u ensures StoreIndexExact(StoreOf(w', u)) {
      assert StoreIndexExact(StoreOf(w, u));
      if u == t { WriteStoreIndex(StoreOf(w, t), e, Lookup(w', t, e).value, Mark(w', t)); }
    }
    forall u, f: Entity | Has(w', u, f) ensures Lookup(w', u, f).value.revision <= Mark(w', u) { assert Has(w, u, f); }
    forall u ensures Mark(w', u) <= w'.revision { assert Mark(w, u) <= w.revision; }
    ShapeDecides(sc, w, w', loose);
  }

  lemma RestampedEvolves(sc: Schema, w: WorldState, t: TypeId, e: Entity, v: Value)
    requires RevisionsBounded(w) && Has(w, t, e) && KeepsLinks(Lookup(w, t, e).value.value, v)
    ensures var w' := Restamped(sc, w, t, e, v);
      && Evolves(sc, w, w'.(log := w.log + [(t, e)]))
      && (!CountsAsChange(sc, t, StampAt(w, t, e), v.stamp) ==> Evolves(sc, w, w'))
  {
    var bare := Restamped(sc, w, t, e, v);
    var w' := bare.(log := w.log + [(t, e)]);
    AppendLogged(w, w', t, e);
    assert Lookup(w, t, e).value.revision <= Mark(w, t) <= w.revision;
    assert forall u, f: Entity :: (u, f) != (t, e) ==> Lookup(bare, u, f) == Lookup(w, u, f);
    assert forall u, f: Entity :: Lookup(w', u, f) == Lookup(bare, u, f);
    assert forall u :: Mark(w', u) == Mark(bare, u);
    assert forall u :: u != t ==> Mark(bare, u) == Mark(w, u);
  }

  lemma RelogKeepsInv(sc: Schema, w: WorldState, log: seq<(TypeId, Entity)>, loose: Loose)
    requires Inv(sc, w, loose)
    ensures Inv(sc, w.(log := log), loose)
  {
    var w' := w.(log := log);
    StoresDecide(sc, w, w');
    assert SameShape(w, w') by { assert forall t, e: Entity :: Lookup(w', t, e) == Lookup(w, t, e); }
    ShapeDecides(sc, w, w', loose);
  }

  lemma ReconcileKeepsInv(sc: Schema, w: WorldState, t: TypeId, e: Entity, loose: Loose)
    requires Inv(sc, w, loose)
    ensures Inv(sc, Reconcile(sc, w, t, e), loose) && Evolves(sc, w, Reconcile(sc, w, t, e))
  {
    EvolvesReflexive(sc, w);
    if t in w.stores {
      if Has(w, t, e) {
        RestampedKeepsInv(sc, w, t, e, Lookup(w, t, e).value.value, loose);
        RestampedEvolves(sc, w, t, e, Lookup(w, t, e).value.value);
        RelogKeepsInv(sc, Restamped(sc, w, t, e, Lookup(w, t, e).value.value), w.log + [(t, e)], loose);
      } else {
        RelogKeepsInv(sc, w, w.log + [(t, e)], loose);
        var w' := w.(log := w.log + [(t, e)]);
        assert forall u, f: Entity :: Lookup(w', u, f) == Lookup(w, u, f);
      }
    }
  }

  lemma {:induction false} ReconcileAllKeepsInv(sc: Schema, w: WorldState, writes: seq<(TypeId, Entity)>, loose: Loose)
    requires Inv(sc, w, loose)
    ensures Inv(sc, ReconcileAll(sc, w, writes), loose) && Evolves(sc, w, ReconcileAll(sc, w, writes))
    decreases |writes|
  {
    EvolvesReflexive(sc, w);
    if writes != [] {
      var next := Reconcile(sc, w, writes[0].0, writes[0].1);
      ReconcileKeepsInv(sc, w, writes[0].0, writes[0].1, loose);
      ReconcileAllKeepsInv(sc, next, writes[1..], loose);
      EvolvesTransitive(sc, w, next, ReconcileAll(sc, w, writes));
    }
  }

  lemma UpdateKeepsInv(sc: Schema, w: WorldState, t: TypeId, e: Entity, v: Value, loose: Loose)
    requires Inv(sc, w, loose) && (Has(w, t, e) ==> KeepsLinks(Lookup(w, t, e).value.value, v))
    ensures Inv(sc, Update(sc, w, t, e, v), loose) && Evolves(sc, w, Update(sc, w, t, e, v))
  {
    EvolvesReflexive(sc, w);
    if Has(w, t, e) {
      RestampedKeepsInv(sc, w, t, e, v, loose);
      RestampedEvolves(sc, w, t, e, v);
      RelogKeepsInv(sc, Restamped(sc, w, t, e, v), w.log + [(t, e)], loose);
    }
  }

  lemma SpawnKeepsInv(sc: Schema, w: WorldState, loose: Loose)
    requires Inv(sc, w, loose)
    ensures Inv(sc, Spawn(w), loose) && Evolves(sc, w, Spawn(w))
  {
    var w' := Spawn(w);
    StoresDecide(sc, w, w');
    assert forall t, e: Entity :: Lookup(w', t, e) == Lookup(w, t, e);
    assert SameShape(w, w');
    ShapeDecides(sc, w, w', loose);
    EvolvesReflexive(sc, w);
    BookkeepingEvolves(sc, w, w, w');
  }
}
