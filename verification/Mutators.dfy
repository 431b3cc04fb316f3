/** The world's mutators, each with its re-entrant relationship upkeep, and the invariant they keep. */
module Mutators {
  import opened Ids
  import opened Ascending
  import opened Presence
  import opened World
  import opened WorldLemmas

  // ---- relationship upkeep ----

  /** Moves `e` from the inverse of its old target to the inverse of its new one; an unchanged target touches nothing. */
  function Relink(sc: Schema, w: WorldState, t: TypeId, e: Entity, before: Option<Entity>, after: Option<Entity>): WorldState {
    if before == after || !sc.Kind(t).Edge? then w
    else
      var v := sc.Kind(t).inverse;
      var left := if before.Some? then RemoveMember(sc, w, v, e, before.value) else w;
      if after.Some? then AddMember(sc, left, v, e, after.value) else left
  }

  lemma AddMemberLinks(sc: Schema, w: WorldState, v: TypeId, s: Entity, x: Entity, loose: Loose)
    requires Sound(sc, w, loose) && sc.Kind(v).Inverse?
    ensures var w' := AddMember(sc, w, v, s, x);
      && Sound(sc, w', loose)
      && Evolves(sc, w, w')
      && (forall u, r: Entity, y: Entity :: Linked(w', u, r, y) <==> Linked(w, u, r, y) || (u, r, y) == (v, s, x))
      && (forall u :: u != v ==> StoreOf(w', u) == StoreOf(w, u))
  {
    if s in Members(w, v, x) {
      EvolvesReflexive(sc, w);
    } else {
      var value := InverseValue(sc, InsertSorted(Members(w, v, x), s));
      assert StrictlySorted(Members(w, v, x)) by { if Has(w, v, x) {} }
      assert s in value.members;
      WriteSound(sc, w, v, x, value, None, loose);
      WriteEvolves(sc, w, v, x, value, None);
      WriteReads(sc, w, v, x, value, None);
    }
  }

  lemma RemoveMemberLinks(sc: Schema, w: WorldState, v: TypeId, s: Entity, x: Entity, loose: Loose)
    requires Sound(sc, w, loose) && sc.Kind(v).Inverse?
    ensures var w' := RemoveMember(sc, w, v, s, x);
      && Sound(sc, w', loose)
      && Evolves(sc, w, w')
      && (forall u, r: Entity, y: Entity :: Linked(w', u, r, y) <==> Linked(w, u, r, y) && (u, r, y) != (v, s, x))
      && (forall u :: u != v ==> StoreOf(w', u) == StoreOf(w, u))
      && (forall u, y: Entity :: Has(w', u, y) ==> Has(w, u, y))
  {
    if s !in Members(w, v, x) {
      EvolvesReflexive(sc, w);
    } else {
      assert Has(w, v, x);
      var rest := RemoveSorted(Members(w, v, x), s);
      if rest == [] {
        EraseComponentSound(sc, w, v, x, None, loose);
        EraseComponentEvolves(sc, w, v, x, None);
        EraseReads(w, v, x);
        var w' := EraseComponent(w, v, x, None);
        assert forall u, y: Entity :: Lookup(w', u, y) == Lookup(Erase(w, v, x), u, y);
        assert forall r :: r in Members(w, v, x) ==> r == s by {
          forall r | r in Members(w, v, x) ensures r == s { assert r in rest <==> r != s; }
        }
      } else {
        var value := InverseValue(sc, rest);
        WriteSound(sc, w, v, x, value, None, loose);
        WriteEvolves(sc, w, v, x, value, None);
        WriteReads(sc, w, v, x, value, None);
      }
    }
  }

  /** The correspondence holds everywhere but for the edges of type `t` on `e`. */
  ghost predicate ExactBut(sc: Schema, w: WorldState, t: TypeId, e: Entity) {
    forall v, s: Entity, x: Entity :: sc.Kind(v).Inverse? && !(sc.Kind(v).edge == t && s == e) ==>
      (Linked(w, v, s, x) <==> Points(sc, w, v, s, x))
  }

  /** What a changed edge target does to the stored inverses. */
  lemma RelinkLinks(sc: Schema, w: WorldState, t: TypeId, e: Entity, before: Option<Entity>, after: Option<Entity>,
                    loose: Loose)
    requires Sound(sc, w, loose) && sc.Kind(t).Edge? && before != after
    ensures var w' := Relink(sc, w, t, e, before, after);
      var v := sc.Kind(t).inverse;
      && Sound(sc, w', loose) && Evolves(sc, w, w')
      && (forall u :: u != v ==> StoreOf(w', u) == StoreOf(w, u))
      && (forall u, s: Entity, x: Entity :: (u, s) != (v, e) ==> (Linked(w', u, s, x) <==> Linked(w, u, s, x)))
      && (forall x: Entity :: Linked(w', v, e, x) <==> after == Some(x) || (Linked(w, v, e, x) && before != Some(x)))
      && (after.None? ==> forall u, y: Entity :: Has(w', u, y) ==> Has(w, u, y))
  {
    var v := sc.Kind(t).inverse;
    assert sc.Kind(v) == Inverse(t);
    EvolvesReflexive(sc, w);
    if before.Some? { RemoveMemberLinks(sc, w, v, e, before.value, loose); }
    if after.Some? {
      var left := if before.Some? then RemoveMember(sc, w, v, e, before.value) else w;
      AddMemberLinks(sc, left, v, e, after.value, loose);
      EvolvesTransitive(sc, w, left, Relink(sc, w, t, e, before, after));
    }
  }

  /** With nothing to move, the one edge in question is listed where it points. */
  lemma UnmovedEdgeIsExact(sc: Schema, w: WorldState, t: TypeId, e: Entity, before: Option<Entity>)
    requires sc.Valid() && ExactBut(sc, w, t, e) && EdgeAt(sc, w, t, e) == before
    requires forall v, x: Entity :: sc.Kind(v) == Inverse(t) ==> (Linked(w, v, e, x) <==> before == Some(x))
    ensures InversesExact(sc, w)
  {
    forall v, s: Entity, x: Entity | sc.Kind(v).Inverse? ensures Linked(w, v, s, x) <==> Points(sc, w, v, s, x) {
      assert sc.Kind(sc.Kind(v).edge) == Edge(v);
      if sc.Kind(v).edge == t && s == e { assert sc.Kind(v) == Inverse(t); }
    }
  }

  /** Once the edge's listing has moved from its old target to its new one, the correspondence is whole again. */
  lemma MovedEdgeIsExact(sc: Schema, w: WorldState, done: WorldState, t: TypeId, e: Entity, before: Option<Entity>, after: Option<Entity>)
    requires sc.Valid() && sc.Kind(t).Edge? && ExactBut(sc, w, t, e) && EdgeAt(sc, w, t, e) == after
    requires forall x: Entity :: Linked(w, sc.Kind(t).inverse, e, x) ==> before == Some(x)
    requires var v := sc.Kind(t).inverse;
      && (forall u :: u != v ==> StoreOf(done, u) == StoreOf(w, u))
      && (forall u, s: Entity, x: Entity :: (u, s) != (v, e) ==> (Linked(done, u, s, x) <==> Linked(w, u, s, x)))
      && (forall x: Entity :: Linked(done, v, e, x) <==> after == Some(x) || (Linked(w, v, e, x) && before != Some(x)))
    ensures InversesExact(sc, done)
  {
    var v := sc.Kind(t).inverse;
    assert sc.Kind(v) == Inverse(t);
    forall u, s: Entity, x: Entity | sc.Kind(u).Inverse? ensures Linked(done, u, s, x) <==> Points(sc, done, u, s, x) {
      var k := sc.Kind(u).edge;
      assert sc.Kind(k) == Edge(u);
      assert StoreOf(done, k) == StoreOf(w, k);
      if u != v || s != e { assert Linked(w, u, s, x) <==> Points(sc, w, u, s, x); }
    }
  }

  /** Upkeep mends the one broken edge and leaves every other store alone. */
  lemma RelinkMends(sc: Schema, w: WorldState, t: TypeId, e: Entity, before: Option<Entity>, after: Option<Entity>,
                    loose: Loose)
    requires Sound(sc, w, loose) && ExactBut(sc, w, t, e)
    requires EdgeAt(sc, w, t, e) == after
    requires forall v, x: Entity :: sc.Kind(v) == Inverse(t) && Linked(w, v, e, x) ==> before == Some(x)
    requires before == after ==> forall v, x: Entity :: sc.Kind(v) == Inverse(t) && before == Some(x) ==> Linked(w, v, e, x)
    ensures Inv(sc, Relink(sc, w, t, e, before, after), loose)
    ensures Evolves(sc, w, Relink(sc, w, t, e, before, after))
    ensures forall u :: !sc.Kind(u).Inverse? ==> StoreOf(Relink(sc, w, t, e, before, after), u) == StoreOf(w, u)
    ensures after.None? ==> forall u, y: Entity :: Has(Relink(sc, w, t, e, before, after), u, y) ==> Has(w, u, y)
  {
    if before == after {
      EvolvesReflexive(sc, w);
      UnmovedEdgeIsExact(sc, w, t, e, before);
    } else if !sc.Kind(t).Edge? {
      EvolvesReflexive(sc, w);
      assert forall v :: sc.Kind(v) != Inverse(t) by {
        forall v ensures sc.Kind(v) != Inverse(t) { assert sc.Kind(v).Inverse? ==> sc.Kind(sc.Kind(v).edge) == Edge(v); }
      }
      UnmovedEdgeIsExact(sc, w, t, e, after);
    } else {
      RelinkLinks(sc, w, t, e, before, after, loose);
      assert sc.Kind(sc.Kind(t).inverse) == Inverse(t);
      MovedEdgeIsExact(sc, w, Relink(sc, w, t, e, before, after), t, e, before, after);
    }
  }

  // ---- insert ----

  /** `insert` for every component but a not yet captured `DerivedFrom`. */
  function Insert(sc: Schema, w: WorldState, t: TypeId, e: Entity, v: Value, owner: Option<Owner>): WorldState {
    Relink(sc, Write(sc, w, t, e, v, owner), t, e, EdgeAt(sc, w, t, e), EdgeOf(sc, t, v))
  }

  lemma InsertKeepsInv(sc: Schema, w: WorldState, t: TypeId, e: Entity, v: Value, owner: Option<Owner>,
                       loose: Loose)
    requires Inv(sc, w, loose) && !sc.Kind(t).Inverse?
    ensures Inv(sc, Insert(sc, w, t, e, v, owner), loose)
    ensures Evolves(sc, w, Insert(sc, w, t, e, v, owner))
  {
    var written := Write(sc, w, t, e, v, owner);
    WriteSound(sc, w, t, e, v, owner, loose);
    WriteEvolves(sc, w, t, e, v, owner);
    WriteReads(sc, w, t, e, v, owner);
    var before, after := EdgeAt(sc, w, t, e), EdgeOf(sc, t, v);
    forall u, s: Entity, x: Entity | sc.Kind(u).Inverse?
      ensures Linked(written, u, s, x) <==> Points(sc, w, u, s, x)
    {
      assert Linked(w, u, s, x) <==> Points(sc, w, u, s, x);
    }
    RelinkMends(sc, written, t, e, before, after, loose);
    EvolvesTransitive(sc, w, written, Insert(sc, w, t, e, v, owner));
  }

  /** What `insert` leaves behind: the value and owner it was given, and every other non-inverse entry as it was. */
  lemma InsertReads(sc: Schema, w: WorldState, t: TypeId, e: Entity, v: Value, owner: Option<Owner>,
                    loose: Loose)
    requires Inv(sc, w, loose) && !sc.Kind(t).Inverse?
    ensures var w' := Insert(sc, w, t, e, v, owner);
      && Lookup(w', t, e) == Lookup(Write(sc, w, t, e, v, owner), t, e)
      && Has(w', t, e) && Lookup(w', t, e).value.value == v && OwnerAt(w', t, e) == owner
      && (forall u, f: Entity :: !sc.Kind(u).Inverse? && (u, f) != (t, e) ==> Lookup(w', u, f) == Lookup(w, u, f))
  {
    var written := Write(sc, w, t, e, v, owner);
    WriteSound(sc, w, t, e, v, owner, loose);
    WriteReads(sc, w, t, e, v, owner);
    forall u, s: Entity, x: Entity | sc.Kind(u).Inverse?
      ensures Linked(written, u, s, x) <==> Points(sc, w, u, s, x)
    {
      assert Linked(w, u, s, x) <==> Points(sc, w, u, s, x);
    }
    RelinkMends(sc, written, t, e, EdgeAt(sc, w, t, e), EdgeOf(sc, t, v), loose);
  }

  // ---- removal of one component ----

  function RemoveComponent(sc: Schema, w: WorldState, t: TypeId, e: Entity, remover: Option<Owner>): WorldState {
    if !Has(w, t, e) then w
    else Relink(sc, EraseComponent(w, t, e, remover), t, e, EdgeAt(sc, w, t, e), None)
  }

  /** Removes one derived entry if `owner` still owns it; the caller has already taken it out of the owner's index. */
  function RemoveDerivedEntry(sc: Schema, w: WorldState, t: TypeId, e: Entity, owner: Owner): WorldState {
    if OwnerAt(w, t, e) != Some(owner) then w
    else Relink(sc, Erase(w, t, e), t, e, EdgeAt(sc, w, t, e), None)
  }

  /** Shared by both removals: an erased edge leaves its target's inverse. */
  lemma ErasedEdgeMends(sc: Schema, w: WorldState, erased: WorldState, t: TypeId, e: Entity, loose: Loose)
    requires Inv(sc, w, loose) && Sound(sc, erased, loose) && !sc.Kind(t).Inverse?
    requires Has(w, t, e) && !Has(erased, t, e) && Evolves(sc, w, erased)
    requires forall u, f: Entity :: (u, f) != (t, e) ==> Lookup(erased, u, f) == Lookup(w, u, f)
    ensures var w' := Relink(sc, erased, t, e, EdgeAt(sc, w, t, e), None);
      && Inv(sc, w', loose) && Evolves(sc, w, w') && !Has(w', t, e)
      && (forall u, f: Entity :: Has(w', u, f) ==> Has(w, u, f))
      && (forall u, f: Entity :: !sc.Kind(u).Inverse? && (u, f) != (t, e) ==> Lookup(w', u, f) == Lookup(w, u, f))
  {
    forall u, s: Entity, x: Entity | sc.Kind(u).Inverse?
      ensures Linked(erased, u, s, x) <==> Points(sc, w, u, s, x)
    {
      assert Linked(w, u, s, x) <==> Points(sc, w, u, s, x);
    }
    RelinkMends(sc, erased, t, e, EdgeAt(sc, w, t, e), None, loose);
    EvolvesTransitive(sc, w, erased, Relink(sc, erased, t, e, EdgeAt(sc, w, t, e), None));
  }

  lemma RemoveComponentKeepsInv(sc: Schema, w: WorldState, t: TypeId, e: Entity, remover: Option<Owner>,
                                loose: Loose)
    requires Inv(sc, w, loose) && !sc.Kind(t).Inverse?
    ensures var w' := RemoveComponent(sc, w, t, e, remover);
      && Inv(sc, w', loose) && Evolves(sc, w, w') && !Has(w', t, e)
      && (forall u, f: Entity :: Has(w', u, f) ==> Has(w, u, f))
      && (forall u, f: Entity :: !sc.Kind(u).Inverse? && (u, f) != (t, e) ==> Lookup(w', u, f) == Lookup(w, u, f))
  {
    if Has(w, t, e) {
      EraseComponentSound(sc, w, t, e, remover, loose);
      EraseComponentEvolves(sc, w, t, e, remover);
      EraseReads(w, t, e);
      var erased := EraseComponent(w, t, e, remover);
      assert forall u, f: Entity :: Lookup(erased, u, f) == Lookup(Erase(w, t, e), u, f);
      ErasedEdgeMends(sc, w, erased, t, e, loose);
    } else {
      EvolvesReflexive(sc, w);
    }
  }

  lemma RemoveDerivedEntryKeepsInv(sc: Schema, w: WorldState, t: TypeId, e: Entity, owner: Owner,
                                   loose: Loose)
    requires Inv(sc, w, loose) && !sc.Kind(t).Inverse?
    requires !Indexed(w, owner, t, e)
    ensures var w' := RemoveDerivedEntry(sc, w, t, e, owner);
      && Inv(sc, w', loose - {(owner, t, e)}) && Evolves(sc, w, w')
      && (OwnerAt(w, t, e) == Some(owner) ==> !Has(w', t, e))
      && (forall u, f: Entity :: Has(w', u, f) ==> Has(w, u, f))
      && (forall u, f: Entity :: !sc.Kind(u).Inverse? && (u, f) != (t, e) ==> Lookup(w', u, f) == Lookup(w, u, f))
  {
    if OwnerAt(w, t, e) == Some(owner) {
      assert forall o :: !Indexed(w, o, t, e) by {
        forall o ensures !Indexed(w, o, t, e) { assert Indexed(w, o, t, e) ==> OwnerAt(w, t, e) == Some(o); }
      }
      EraseSound(sc, w, t, e, loose);
      EraseEvolves(sc, w, t, e);
      EraseReads(w, t, e);
      ErasedEdgeMends(sc, w, Erase(w, t, e), t, e, loose);
      var w' := RemoveDerivedEntry(sc, w, t, e, owner);
      forall u, f: Entity | OwnerAt(w', u, f).Some?
        ensures Indexed(w', OwnerAt(w', u, f).value, u, f) || (OwnerAt(w', u, f).value, u, f) in loose - {(owner, t, e)}
      {
        assert Indexed(w', OwnerAt(w', u, f).value, u, f) || (OwnerAt(w', u, f).value, u, f) in loose;
      }
    } else {
      EvolvesReflexive(sc, w);
    }
  }
}
