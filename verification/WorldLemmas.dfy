/** What the two primitive store updates, `Write` and `Erase`, keep and change. */
module WorldLemmas {
  import opened Ids
  import opened Ascending
  import opened Presence
  import opened World

  // ---- pointwise readings ----

  /** An untracked or restamped write gets a fresh revision; a kept one its old revision. */
  lemma WriteReads(sc: Schema, w: WorldState, t: TypeId, e: Entity, v: Value, owner: Option<Owner>)
    ensures var w' := Write(sc, w, t, e, v, owner);
      && Has(w', t, e) && Lookup(w', t, e).value.value == v && Lookup(w', t, e).value.owner == owner
      && StampAt(w', t, e) == v.stamp
      && (forall u, f: Entity :: (u, f) != (t, e) ==> Lookup(w', u, f) == Lookup(w, u, f))
      && (forall u :: u != t ==> StoreOf(w', u) == StoreOf(w, u))
  {}

  lemma EraseReads(w: WorldState, t: TypeId, e: Entity)
    requires Has(w, t, e)
    ensures var w' := Erase(w, t, e);
      && !Has(w', t, e)
      && (forall u, f: Entity :: (u, f) != (t, e) ==> Lookup(w', u, f) == Lookup(w, u, f))
      && (forall u :: u != t ==> StoreOf(w', u) == StoreOf(w, u))
  {}

  // ---- the fingerprint index ----

  ghost predicate StoreIndexExact(st: Store) {
    && (forall s, e: Entity :: s in st.index && e in st.index[s] <==> e in st.entries && st.entries[e].stamp == Some(s))
    && (forall s :: s in st.index ==> st.index[s] != {})
  }

  lemma IndexExactByStore(w: WorldState)
    ensures IndexExact(w) <==> forall t :: StoreIndexExact(StoreOf(w, t))
  {
    if IndexExact(w) {
      forall t ensures StoreIndexExact(StoreOf(w, t)) {
        forall s, e: Entity
          ensures s in StoreOf(w, t).index && e in StoreOf(w, t).index[s]
                  <==> e in StoreOf(w, t).entries && StoreOf(w, t).entries[e].stamp == Some(s)
        {
          assert e in Bucket(w, t, s) <==> Has(w, t, e) && StampAt(w, t, e) == Some(s);
        }
        forall s | s in StoreOf(w, t).index ensures StoreOf(w, t).index[s] != {} {
          assert Bucket(w, t, s) != {};
        }
      }
    }
    if forall t :: StoreIndexExact(StoreOf(w, t)) {
      forall t, s, e: Entity
        ensures e in Bucket(w, t, s) <==> Has(w, t, e) && StampAt(w, t, e) == Some(s)
      {
        assert StoreIndexExact(StoreOf(w, t));
      }
      forall t, s | s in StoreOf(w, t).index ensures Bucket(w, t, s) != {} {
        assert StoreIndexExact(StoreOf(w, t));
      }
    }
  }

  lemma WriteStoreIndex(st: Store, e: Entity, entry: Entry, mark: nat)
    requires StoreIndexExact(st)
    ensures StoreIndexExact(Store(st.entries[e := entry],
              if e in st.entries then Restamp(st.index, e, st.entries[e].stamp, entry.stamp)
              else IndexStamp(st.index, e, entry.stamp), mark))
  {}

  lemma EraseStoreIndex(st: Store, e: Entity, mark: nat)
    requires StoreIndexExact(st) && e in st.entries
    ensures StoreIndexExact(Store(st.entries - {e}, UnindexStamp(st.index, e, st.entries[e].stamp), mark))
  {}

  lemma WriteKeepsIndex(sc: Schema, w: WorldState, t: TypeId, e: Entity, v: Value, owner: Option<Owner>)
    requires IndexExact(w)
    ensures IndexExact(Write(sc, w, t, e, v, owner))
  {
    var w' := Write(sc, w, t, e, v, owner);
    IndexExactByStore(w);
    IndexExactByStore(w');
    forall u ensures StoreIndexExact(StoreOf(w', u)) {
      assert StoreIndexExact(StoreOf(w, u));
      if u == t {
        WriteStoreIndex(StoreOf(w, t), e, Lookup(w', t, e).value, Mark(w', t));
      }
    }
  }

  lemma EraseKeepsIndex(w: WorldState, t: TypeId, e: Entity)
    requires Has(w, t, e) && IndexExact(w)
    ensures IndexExact(Erase(w, t, e))
  {
    var w' := Erase(w, t, e);
    IndexExactByStore(w);
    IndexExactByStore(w');
    forall u ensures StoreIndexExact(StoreOf(w', u)) {
      assert StoreIndexExact(StoreOf(w, u));
      if u == t {
        EraseStoreIndex(StoreOf(w, t), e, Mark(w', t));
      }
    }
  }

  // ---- presence bits ----

  lemma WriteKeepsPresence(sc: Schema, w: WorldState, t: TypeId, e: Entity, v: Value, owner: Option<Owner>)
    requires PresenceExact(w)
    ensures PresenceExact(Write(sc, w, t, e, v, owner))
  {
    WriteReads(sc, w, t, e, v, owner);
    if w.presence.Some? { SetChangesOneBit(w.presence.value, t, e, true); }
  }

  lemma EraseKeepsPresence(w: WorldState, t: TypeId, e: Entity)
    requires PresenceExact(w) && Has(w, t, e)
    ensures PresenceExact(Erase(w, t, e))
  {
    EraseReads(w, t, e);
    if w.presence.Some? { SetChangesOneBit(w.presence.value, t, e, false); }
  }

  // ---- revisions and watermarks ----

  lemma WriteKeepsRevisions(sc: Schema, w: WorldState, t: TypeId, e: Entity, v: Value, owner: Option<Owner>)
    requires RevisionsBounded(w)
    ensures RevisionsBounded(Write(sc, w, t, e, v, owner))
  {
    var w' := Write(sc, w, t, e, v, owner);
    forall u, f: Entity | Has(w', u, f) ensures Lookup(w', u, f).value.revision <= Mark(w', u) {
      if (u, f) != (t, e) { assert Has(w, u, f); }
    }
    forall u ensures Mark(w', u) <= w'.revision { assert Mark(w, u) <= w.revision; }
  }

  lemma EraseKeepsRevisions(w: WorldState, t: TypeId, e: Entity)
    requires Has(w, t, e) && RevisionsBounded(w)
    ensures RevisionsBounded(Erase(w, t, e))
  {
    var w' := Erase(w, t, e);
    forall u, f: Entity | Has(w', u, f) ensures Lookup(w', u, f).value.revision <= Mark(w', u) {
      assert Has(w, u, f);
    }
    forall u ensures Mark(w', u) <= w'.revision { assert Mark(w, u) <= w.revision; }
  }

  // ---- ownership ----

  /** The pairs an index lists for an owner. */
  ghost predicate Listed(owners: map<Owner, set<(TypeId, Entity)>>, o: Owner, t: TypeId, e: Entity) {
    o in owners && (t, e) in owners[o]
  }

  ghost predicate NoneEmpty(owners: map<Owner, set<(TypeId, Entity)>>) {
    forall o :: o in owners ==> owners[o] != {}
  }

  lemma OwnLists(owners: map<Owner, set<(TypeId, Entity)>>, o: Owner, t: TypeId, e: Entity)
    ensures forall p, u, f: Entity :: Listed(Own(owners, o, t, e), p, u, f) <==> Listed(owners, p, u, f) || (p, u, f) == (o, t, e)
    ensures NoneEmpty(owners) ==> NoneEmpty(Own(owners, o, t, e))
  {
    assert (t, e) in Own(owners, o, t, e)[o];
  }

  lemma DisownLists(owners: map<Owner, set<(TypeId, Entity)>>, o: Owner, t: TypeId, e: Entity)
    ensures forall p, u, f: Entity :: Listed(Disown(owners, o, t, e), p, u, f) <==> Listed(owners, p, u, f) && (p, u, f) != (o, t, e)
    ensures NoneEmpty(owners) ==> NoneEmpty(Disown(owners, o, t, e))
  {
    if o in owners {
      var rest := owners[o] - {(t, e)};
      forall u, f: Entity ensures (u, f) in rest <==> (u, f) in owners[o] && (u, f) != (t, e) {}
    }
  }

  /** A write takes its pair from the previous owner and gives it to the new one; no other pair moves. */
  lemma WriteLists(sc: Schema, w: WorldState, t: TypeId, e: Entity, v: Value, owner: Option<Owner>)
    requires forall o :: Indexed(w, o, t, e) ==> OwnerAt(w, t, e) == Some(o)
    ensures var w' := Write(sc, w, t, e, v, owner);
      && (forall p, u, f: Entity :: (u, f) != (t, e) ==> (Indexed(w', p, u, f) <==> Indexed(w, p, u, f)))
      && (forall p :: Indexed(w', p, t, e) <==> owner == Some(p))
      && (NoneEmpty(w.owners) ==> NoneEmpty(w'.owners))
  {
    var w' := Write(sc, w, t, e, v, owner);
    var previous := OwnerAt(w, t, e);
    var released := if previous.Some? && previous != owner then Disown(w.owners, previous.value, t, e) else w.owners;
    if previous.Some? && previous != owner { DisownLists(w.owners, previous.value, t, e); }
    if owner.Some? { OwnLists(released, owner.value, t, e); }
    assert forall p, u, f: Entity :: Indexed(w, p, u, f) <==> Listed(w.owners, p, u, f);
    assert forall p, u, f: Entity :: Indexed(w', p, u, f) <==> Listed(w'.owners, p, u, f);
  }

  lemma WriteKeepsOwners(sc: Schema, w: WorldState, t: TypeId, e: Entity, v: Value, owner: Option<Owner>,
                         loose: Loose)
    requires OwnersExact(w, loose)
    ensures OwnersExact(Write(sc, w, t, e, v, owner), loose)
    ensures owner.Some? ==> Indexed(Write(sc, w, t, e, v, owner), owner.value, t, e)
  {
    var w' := Write(sc, w, t, e, v, owner);
    WriteReads(sc, w, t, e, v, owner);
    WriteLists(sc, w, t, e, v, owner);
    forall o, u, f: Entity ensures Indexed(w', o, u, f) ==> OwnerAt(w', u, f) == Some(o) {
      if (u, f) != (t, e) { assert Indexed(w, o, u, f) ==> OwnerAt(w, u, f) == Some(o); }
    }
    forall u, f: Entity | OwnerAt(w', u, f).Some?
      ensures Indexed(w', OwnerAt(w', u, f).value, u, f) || (OwnerAt(w', u, f).value, u, f) in loose
    {
      if (u, f) != (t, e) {
        assert Indexed(w, OwnerAt(w, u, f).value, u, f) || (OwnerAt(w, u, f).value, u, f) in loose;
      }
    }
    assert NoneEmpty(w.owners);
  }

  lemma EraseKeepsOwners(w: WorldState, t: TypeId, e: Entity, loose: Loose)
    requires Has(w, t, e) && OwnersExact(w, loose)
    requires forall o :: !Indexed(w, o, t, e)
    ensures OwnersExact(Erase(w, t, e), loose)
  {
    var w' := Erase(w, t, e);
    EraseReads(w, t, e);
    forall o, u, f: Entity ensures Indexed(w', o, u, f) ==> OwnerAt(w', u, f) == Some(o) {
      assert Indexed(w, o, u, f) ==> OwnerAt(w, u, f) == Some(o);
    }
    forall u, f: Entity | OwnerAt(w', u, f).Some?
      ensures Indexed(w', OwnerAt(w', u, f).value, u, f) || (OwnerAt(w', u, f).value, u, f) in loose
    {
      assert Indexed(w, OwnerAt(w, u, f).value, u, f) || (OwnerAt(w, u, f).value, u, f) in loose;
    }
  }

  lemma EraseComponentKeepsOwners(w: WorldState, t: TypeId, e: Entity, remover: Option<Owner>, loose: Loose)
    requires Has(w, t, e) && OwnersExact(w, loose)
    ensures OwnersExact(EraseComponent(w, t, e, remover), loose)
  {
    var w' := EraseComponent(w, t, e, remover);
    EraseReads(w, t, e);
    assert forall u, f: Entity :: Lookup(w', u, f) == Lookup(Erase(w, t, e), u, f);
    forall o, u, f: Entity ensures Indexed(w', o, u, f) ==> OwnerAt(w', u, f) == Some(o) {
      assert Indexed(w, o, u, f) ==> OwnerAt(w, u, f) == Some(o);
    }
    forall u, f: Entity | OwnerAt(w', u, f).Some?
      ensures Indexed(w', OwnerAt(w', u, f).value, u, f) || (OwnerAt(w', u, f).value, u, f) in loose
    {
      assert (u, f) != (t, e) && OwnerAt(w', u, f) == OwnerAt(w, u, f);
      var o := OwnerAt(w, u, f).value;
      assert Indexed(w, o, u, f) || (o, u, f) in loose;
      if Indexed(w, o, u, f) && OwnerAt(w, t, e) == Some(o) {
        assert (u, f) in w.owners[o] - {(t, e)};
      }
    }
  }

  // ---- the invariant without the edge/inverse correspondence ----

  ghost predicate ShapeAllowed(sc: Schema, t: TypeId, v: Value, owner: Option<Owner>) {
    sc.Kind(t).Inverse? ==> StrictlySorted(v.members) && v.members != [] && owner.None?
  }

  lemma WriteSound(sc: Schema, w: WorldState, t: TypeId, e: Entity, v: Value, owner: Option<Owner>,
                   loose: Loose)
    requires Sound(sc, w, loose) && ShapeAllowed(sc, t, v, owner)
    ensures Sound(sc, Write(sc, w, t, e, v, owner), loose)
  {
    WriteReads(sc, w, t, e, v, owner);
    WriteKeepsIndex(sc, w, t, e, v, owner);
    WriteKeepsPresence(sc, w, t, e, v, owner);
    WriteKeepsRevisions(sc, w, t, e, v, owner);
    WriteKeepsOwners(sc, w, t, e, v, owner, loose);
    var w' := Write(sc, w, t, e, v, owner);
    forall u, f: Entity | sc.Kind(u).Inverse? && Has(w', u, f)
      ensures StrictlySorted(Members(w', u, f)) && Members(w', u, f) != [] && OwnerAt(w', u, f).None?
    {
      if (u, f) != (t, e) { assert Has(w, u, f); }
    }
  }

  lemma ErasedShapes(sc: Schema, w: WorldState, t: TypeId, e: Entity)
    requires Has(w, t, e) && InversesShaped(sc, w)
    ensures InversesShaped(sc, Erase(w, t, e))
  {
    EraseReads(w, t, e);
    var w' := Erase(w, t, e);
    forall u, f: Entity | sc.Kind(u).Inverse? && Has(w', u, f)
      ensures StrictlySorted(Members(w', u, f)) && Members(w', u, f) != [] && OwnerAt(w', u, f).None?
    {
      assert Has(w, u, f);
    }
  }

  lemma EraseSound(sc: Schema, w: WorldState, t: TypeId, e: Entity, loose: Loose)
    requires Sound(sc, w, loose) && Has(w, t, e)
    requires forall o :: !Indexed(w, o, t, e)
    ensures Sound(sc, Erase(w, t, e), loose)
  {
    EraseKeepsIndex(w, t, e);
    EraseKeepsPresence(w, t, e);
    EraseKeepsRevisions(w, t, e);
    EraseKeepsOwners(w, t, e, loose);
    ErasedShapes(sc, w, t, e);
  }

  /** Bookkeeping that leaves every store alone keeps everything that only the stores decide. */
  lemma StoresDecide(sc: Schema, w: WorldState, w': WorldState)
    requires w'.stores == w.stores && w'.presence == w.presence && w'.revision == w.revision
    ensures IndexExact(w) ==> IndexExact(w')
    ensures PresenceExact(w) ==> PresenceExact(w')
    ensures RevisionsBounded(w) ==> RevisionsBounded(w')
    ensures InversesShaped(sc, w) ==> InversesShaped(sc, w')
    ensures InversesExact(sc, w) ==> InversesExact(sc, w')
  {
    assert forall t :: StoreOf(w', t) == StoreOf(w, t);
    assert forall t, e: Entity :: Lookup(w', t, e) == Lookup(w, t, e);
    if IndexExact(w) {
      IndexExactByStore(w);
      IndexExactByStore(w');
    }
    if RevisionsBounded(w) {
      forall t ensures Mark(w', t) <= w'.revision { assert Mark(w, t) <= w.revision; }
    }
    if InversesShaped(sc, w) {
      forall v, e: Entity | sc.Kind(v).Inverse? && Has(w', v, e)
        ensures StrictlySorted(Members(w', v, e)) && Members(w', v, e) != [] && OwnerAt(w', v, e).None?
      {
        assert Has(w, v, e);
      }
    }
    if InversesExact(sc, w) {
      forall v, s: Entity, e: Entity | sc.Kind(v).Inverse? ensures Linked(w', v, s, e) <==> Points(sc, w', v, s, e) {
        assert Linked(w, v, s, e) <==> Points(sc, w, v, s, e);
      }
    }
  }

  lemma EraseComponentSound(sc: Schema, w: WorldState, t: TypeId, e: Entity, remover: Option<Owner>,
                            loose: Loose)
    requires Sound(sc, w, loose) && Has(w, t, e)
    ensures Sound(sc, EraseComponent(w, t, e, remover), loose)
  {
    EraseKeepsIndex(w, t, e);
    EraseKeepsPresence(w, t, e);
    EraseKeepsRevisions(w, t, e);
    ErasedShapes(sc, w, t, e);
    StoresDecide(sc, Erase(w, t, e), EraseComponent(w, t, e, remover));
    EraseComponentKeepsOwners(w, t, e, remover, loose);
  }

  // ---- what a planner sees of them ----

  lemma AppendLogged(w: WorldState, w': WorldState, t: TypeId, e: Entity)
    requires w'.log == w.log + [(t, e)]
    ensures Logged(w, w', t, e)
  {
    assert w'.log[|w.log|..] == [(t, e)];
  }

  lemma WriteEvolves(sc: Schema, w: WorldState, t: TypeId, e: Entity, v: Value, owner: Option<Owner>)
    requires RevisionsBounded(w)
    ensures Evolves(sc, w, Write(sc, w, t, e, v, owner))
  {
    var w' := Write(sc, w, t, e, v, owner);
    WriteReads(sc, w, t, e, v, owner);
    AppendLogged(w, w', t, e);
    assert Has(w, t, e) ==> Lookup(w, t, e).value.revision <= Mark(w, t) <= w.revision;
    assert forall u, f: Entity :: (u, f) != (t, e) ==> Rev(w', u, f) == Rev(w, u, f) && Link(w', u, f) == Link(w, u, f);
  }

  lemma EraseEvolves(sc: Schema, w: WorldState, t: TypeId, e: Entity)
    requires RevisionsBounded(w) && Has(w, t, e)
    ensures Evolves(sc, w, Erase(w, t, e))
  {
    var w' := Erase(w, t, e);
    EraseReads(w, t, e);
    AppendLogged(w, w', t, e);
    assert Mark(w, t) <= w.revision;
    assert forall u, f: Entity :: (u, f) != (t, e) ==> Rev(w', u, f) == Rev(w, u, f) && Link(w', u, f) == Link(w, u, f);
  }

  lemma BookkeepingEvolves(sc: Schema, a: WorldState, w: WorldState, w': WorldState)
    requires Evolves(sc, a, w)
    requires w'.stores == w.stores && w'.revision == w.revision && w'.mutations == w.mutations
    requires w'.log == w.log && w'.epoch == w.epoch && w.next <= w'.next
    ensures Evolves(sc, a, w')
  {
    assert forall t, e: Entity :: Lookup(w', t, e) == Lookup(w, t, e);
    assert forall t :: Mark(w', t) == Mark(w, t);
    assert forall t, e: Entity :: Logged(a, w, t, e) == Logged(a, w', t, e);
  }

  lemma EraseComponentEvolves(sc: Schema, w: WorldState, t: TypeId, e: Entity, remover: Option<Owner>)
    requires RevisionsBounded(w) && Has(w, t, e)
    ensures Evolves(sc, w, EraseComponent(w, t, e, remover))
  {
    EraseEvolves(sc, w, t, e);
    BookkeepingEvolves(sc, w, Erase(w, t, e), EraseComponent(w, t, e, remover));
  }
}
