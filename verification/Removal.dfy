/**
 Whole-entity removal: the entity's edges leave their targets' inverses, and if it was itself a target, every
 source's edge is retracted. Stores are visited in an arbitrary `order`.
 */
module Removal {
  import opened Ids
  import opened Ascending
  import opened Presence
  import opened World
  import opened WorldLemmas
  import opened Mutators

  /** `Store::remove_entity` on one store: no log entry, presence bit or ownership yet. */
  function Strip(w: WorldState, t: TypeId, e: Entity): WorldState {
    if !Has(w, t, e) then w
    else
      var st := StoreOf(w, t);
      w.(revision := w.revision + 1,
         mutations := w.mutations + 1,
         stores := w.stores[t := Store(st.entries - {e}, UnindexStamp(st.index, e, st.entries[e].stamp),
                                       Max(st.watermark, w.revision + 1))])
  }

  function StripAll(w: WorldState, e: Entity, order: seq<TypeId>): WorldState
    decreases |order|
  {
    if order == [] then w else StripAll(Strip(w, order[0], e), e, order[1..])
  }

  /** The (component, entity) pairs the strip removes, in visiting order. */
  function Carried(w: WorldState, e: Entity, order: seq<TypeId>): seq<(TypeId, Entity)> {
    if order == [] then []
    else (if Has(w, order[0], e) then [(order[0], e)] else []) + Carried(w, e, order[1..])
  }

  function DisownAll(owners: map<Owner, set<(TypeId, Entity)>>, w: WorldState, e: Entity, order: seq<TypeId>)
    : map<Owner, set<(TypeId, Entity)>>
    decreases |order|
  {
    if order == [] then owners
    else
      var o := OwnerAt(w, order[0], e);
      DisownAll(if o.Some? then Disown(owners, o.value, order[0], e) else owners, w, e, order[1..])
  }

  /** Owners of the removed components, in visiting order. */
  function OwnersOf(w: WorldState, e: Entity, order: seq<TypeId>): seq<Owner> {
    if order == [] then []
    else (if OwnerAt(w, order[0], e).Some? then [OwnerAt(w, order[0], e).value] else []) + OwnersOf(w, e, order[1..])
  }

  /** All components gone, everywhere but in other entities' relationships. */
  function Cleared(w: WorldState, e: Entity, order: seq<TypeId>): WorldState {
    var bare := StripAll(w, e, order);
    bare.(log := w.log + Carried(w, e, order),
          owners := DisownAll(w.owners, w, e, order),
          removedEntities := w.removedEntities + [e],
          presence := ClearBits(w.presence, e))
  }

  /** The edges an entity carries: the inverse type to maintain and the target. */
  function EdgesOf(sc: Schema, w: WorldState, e: Entity, order: seq<TypeId>): seq<(TypeId, Entity)> {
    if order == [] then []
    else
      var edge := EdgeAt(sc, w, order[0], e);
      (if edge.Some? then [(sc.Kind(order[0]).inverse, edge.value)] else []) + EdgesOf(sc, w, e, order[1..])
  }

  /** The edges other entities hold on this one: the edge type and the source. */
  function RetractionsOf(sc: Schema, w: WorldState, e: Entity, order: seq<TypeId>): seq<(TypeId, Entity)> {
    if order == [] then []
    else
      var k := sc.Kind(order[0]);
      var members := Members(w, order[0], e);
      (if k.Inverse? then seq(|members|, i requires 0 <= i < |members| => (k.edge, members[i])) else [])
      + RetractionsOf(sc, w, e, order[1..])
  }

  function Detach(sc: Schema, w: WorldState, e: Entity, edges: seq<(TypeId, Entity)>): WorldState
    decreases |edges|
  {
    if edges == [] then w else Detach(sc, RemoveMember(sc, w, edges[0].0, e, edges[0].1), e, edges[1..])
  }

  function Retract(sc: Schema, w: WorldState, retractions: seq<(TypeId, Entity)>): WorldState
    decreases |retractions|
  {
    if retractions == [] then w
    else Retract(sc, RemoveComponent(sc, w, retractions[0].0, retractions[0].1, None), retractions[1..])
  }

  function RemoveEntity(sc: Schema, w: WorldState, e: Entity, order: seq<TypeId>): WorldState {
    var detached := Detach(sc, Cleared(w, e, order), e, EdgesOf(sc, w, e, order));
    var retracted := Retract(sc, detached, RetractionsOf(sc, w, e, order));
    retracted.(removedOwners := retracted.removedOwners + OwnersOf(w, e, order))
  }

  /** `order` visits every store. */
  ghost predicate Visits(w: WorldState, order: seq<TypeId>) {
    forall t :: t in w.stores ==> t in order
  }

  // ---- stripping ----

  lemma {:induction false} StripAllEntries(w: WorldState, e: Entity, order: seq<TypeId>)
    ensures var r := StripAll(w, e, order);
      && (forall t, f: Entity :: Lookup(r, t, f) == if f == e && t in order then None else Lookup(w, t, f))
      && r.(revision := w.revision, mutations := w.mutations, stores := w.stores) == w
    ensures (forall t :: t !in order || !Has(w, t, e)) ==> StripAll(w, e, order) == w
    decreases |order|
  {
    if order != [] {
      var next := Strip(w, order[0], e);
      StripAllEntries(next, e, order[1..]);
      assert forall t :: t in order <==> t == order[0] || t in order[1..];
      assert forall t, f: Entity :: Lookup(next, t, f) == if f == e && t == order[0] then None else Lookup(w, t, f);
    }
  }

  lemma {:induction false} StripAllMarks(w: WorldState, e: Entity, order: seq<TypeId>)
    ensures var r := StripAll(w, e, order);
      && (forall t :: Mark(r, t) == Mark(w, t) || Mark(r, t) > w.revision)
      && (forall t :: t in order && Has(w, t, e) ==> Mark(r, t) > w.revision)
      && w.revision <= r.revision && w.mutations <= r.mutations
      && ((exists t :: t in order && Has(w, t, e)) ==> w.revision < r.revision)
    decreases |order|
  {
    if order != [] {
      var next := Strip(w, order[0], e);
      StripAllMarks(next, e, order[1..]);
      assert forall t :: t in order <==> t == order[0] || t in order[1..];
      assert forall t :: t != order[0] ==> Has(next, t, e) == Has(w, t, e);
      assert forall t :: Mark(next, t) == Mark(w, t) || Mark(next, t) > w.revision;
    }
  }

  lemma StripAllReads(w: WorldState, e: Entity, order: seq<TypeId>)
    ensures var r := StripAll(w, e, order);
      && (forall t, f: Entity :: Lookup(r, t, f) == if f == e && t in order then None else Lookup(w, t, f))
      && (forall t :: Mark(r, t) == Mark(w, t) || Mark(r, t) > w.revision)
      && (forall t :: t in order && Has(w, t, e) ==> Mark(r, t) > w.revision)
      && w.revision <= r.revision && w.mutations <= r.mutations
      && ((exists t :: t in order && Has(w, t, e)) ==> w.revision < r.revision)
      && r.(revision := w.revision, mutations := w.mutations, stores := w.stores) == w
    ensures (forall t :: t !in order || !Has(w, t, e)) ==> StripAll(w, e, order) == w
  {
    StripAllEntries(w, e, order);
    StripAllMarks(w, e, order);
  }

  lemma {:induction false} StripAllKeeps(w: WorldState, e: Entity, order: seq<TypeId>)
    requires IndexExact(w) && RevisionsBounded(w)
    ensures IndexExact(StripAll(w, e, order)) && RevisionsBounded(StripAll(w, e, order))
    decreases |order|
  {
    if order != [] {
      var t := order[0];
      if Has(w, t, e) {
        EraseKeepsIndex(w, t, e);
        EraseKeepsRevisions(w, t, e);
        StripIsErase(w, t, e);
      }
      StripAllKeeps(Strip(w, t, e), e, order[1..]);
    }
  }

  lemma StripIsErase(w: WorldState, t: TypeId, e: Entity)
    requires Has(w, t, e)
    requires IndexExact(Erase(w, t, e)) && RevisionsBounded(Erase(w, t, e))
    ensures IndexExact(Strip(w, t, e)) && RevisionsBounded(Strip(w, t, e))
  {
    var a, b := Erase(w, t, e), Strip(w, t, e);
    IndexExactByStore(a);
    IndexExactByStore(b);
    assert forall u :: StoreOf(b, u) == StoreOf(a, u);
    forall u, f: Entity | Has(b, u, f) ensures Lookup(b, u, f).value.revision <= Mark(b, u) { assert Has(a, u, f); }
    forall u ensures Mark(b, u) <= b.revision { assert Mark(a, u) <= a.revision; }
  }

  lemma {:induction false} CarriedIs(w: WorldState, e: Entity, order: seq<TypeId>)
    ensures forall t, f: Entity :: (t, f) in Carried(w, e, order) <==> f == e && t in order && Has(w, t, e)
    decreases |order|
  {
    if order != [] {
      CarriedIs(w, e, order[1..]);
      assert forall t :: t in order <==> t == order[0] || t in order[1..];
    }
  }

  lemma {:induction false} DisownAllIs(owners: map<Owner, set<(TypeId, Entity)>>, w: WorldState, e: Entity, order: seq<TypeId>)
    requires NoneEmpty(owners)
    ensures var r := DisownAll(owners, w, e, order);
      && NoneEmpty(r)
      && (forall o, t, f: Entity :: Listed(r, o, t, f) <==>
            Listed(owners, o, t, f) && !(f == e && t in order && OwnerAt(w, t, e) == Some(o)))
    decreases |order|
  {
    if order != [] {
      var o := OwnerAt(w, order[0], e);
      var next := if o.Some? then Disown(owners, o.value, order[0], e) else owners;
      if o.Some? { DisownLists(owners, o.value, order[0], e); }
      DisownAllIs(next, w, e, order[1..]);
      assert forall t :: t in order <==> t == order[0] || t in order[1..];
    }
  }

  lemma ClearedLookups(w: WorldState, e: Entity, order: seq<TypeId>)
    requires Visits(w, order)
    ensures var c := Cleared(w, e, order);
      && (forall t, f: Entity :: Lookup(c, t, f) == if f == e then None else Lookup(w, t, f))
  {
    StripAllEntries(w, e, order);
    assert forall t :: Has(w, t, e) ==> t in order;
    assert forall t, f: Entity :: Lookup(Cleared(w, e, order), t, f) == Lookup(StripAll(w, e, order), t, f);
  }

  lemma ClearedPresence(w: WorldState, e: Entity, order: seq<TypeId>)
    requires PresenceExact(w) && Visits(w, order)
    ensures PresenceExact(Cleared(w, e, order))
  {
    ClearedLookups(w, e, order);
    if w.presence.Some? { ClearEntityClearsRow(w.presence.value, e); }
  }

  lemma ClearedShapes(sc: Schema, w: WorldState, e: Entity, order: seq<TypeId>)
    requires InversesShaped(sc, w) && Visits(w, order)
    ensures InversesShaped(sc, Cleared(w, e, order))
  {
    var c := Cleared(w, e, order);
    ClearedLookups(w, e, order);
    forall v, f: Entity | sc.Kind(v).Inverse? && Has(c, v, f)
      ensures StrictlySorted(Members(c, v, f)) && Members(c, v, f) != [] && OwnerAt(c, v, f).None?
    {
      assert Has(w, v, f);
    }
  }

  lemma ClearedSound(sc: Schema, w: WorldState, e: Entity, order: seq<TypeId>, loose: Loose)
    requires Sound(sc, w, loose) && Visits(w, order)
    ensures var c := Cleared(w, e, order);
      && Sound(sc, c, loose)
      && (forall t, f: Entity :: Lookup(c, t, f) == if f == e then None else Lookup(w, t, f))
  {
    ClearedLookups(w, e, order);
    StripAllKeeps(w, e, order);
    StoresDecideIndex(StripAll(w, e, order), Cleared(w, e, order));
    ClearedPresence(w, e, order);
    ClearedOwners(w, e, order, loose);
    ClearedShapes(sc, w, e, order);
  }

  lemma StoresDecideIndex(w: WorldState, w': WorldState)
    requires w'.stores == w.stores && w'.revision == w.revision
    requires IndexExact(w) && RevisionsBounded(w)
    ensures IndexExact(w') && RevisionsBounded(w')
  {
    IndexExactByStore(w);
    IndexExactByStore(w');
    assert forall t :: StoreOf(w', t) == StoreOf(w, t);
    forall u, f: Entity | Has(w', u, f) ensures Lookup(w', u, f).value.revision <= Mark(w', u) { assert Has(w, u, f); }
    forall u ensures Mark(w', u) <= w'.revision { assert Mark(w, u) <= w.revision; }
  }

  lemma ClearedOwners(w: WorldState, e: Entity, order: seq<TypeId>, loose: Loose)
    requires OwnersExact(w, loose) && Visits(w, order)
    ensures OwnersExact(Cleared(w, e, order), loose)
  {
    var c := Cleared(w, e, order);
    ClearedLookups(w, e, order);
    assert NoneEmpty(w.owners);
    DisownAllIs(w.owners, w, e, order);
    assert NoneEmpty(c.owners);
    assert forall t :: Has(w, t, e) ==> t in order;
    assert forall o, t, f: Entity :: Indexed(c, o, t, f) == Listed(c.owners, o, t, f) && Indexed(w, o, t, f) == Listed(w.owners, o, t, f);
    forall o, t, f: Entity ensures Indexed(c, o, t, f) ==> OwnerAt(c, t, f) == Some(o) {
      assert Indexed(w, o, t, f) ==> OwnerAt(w, t, f) == Some(o);
    }
    forall t, f: Entity | OwnerAt(c, t, f).Some?
      ensures Indexed(c, OwnerAt(c, t, f).value, t, f) || (OwnerAt(c, t, f).value, t, f) in loose
    {
      assert Indexed(w, OwnerAt(w, t, f).value, t, f) || (OwnerAt(w, t, f).value, t, f) in loose;
    }
  }

  lemma ClearedReads(w: WorldState, e: Entity, order: seq<TypeId>)
    requires Visits(w, order)
    ensures var c := Cleared(w, e, order);
      && (forall t, f: Entity :: Lookup(c, t, f) == if f == e then None else Lookup(w, t, f))
      && (forall t :: Mark(c, t) == Mark(w, t) || Mark(c, t) > w.revision)
      && (forall t :: Has(w, t, e) ==> Mark(c, t) > w.revision && Logged(w, c, t, e))
      && CountersGrow(w, c)
      && ((exists t :: Has(w, t, e)) ==> w.revision < c.revision)
      && ((forall t :: !Has(w, t, e)) ==> c.stores == w.stores)
  {
    var c := Cleared(w, e, order);
    var bare := StripAll(w, e, order);
    StripAllReads(w, e, order);
    CarriedIs(w, e, order);
    assert forall t :: Has(w, t, e) ==> t in order;
    assert forall t, f: Entity :: Lookup(c, t, f) == Lookup(bare, t, f);
    assert forall t :: Mark(c, t) == Mark(bare, t);
    assert c.log[|w.log|..] == Carried(w, e, order);
  }

  lemma ClearedEvolves(sc: Schema, w: WorldState, e: Entity, order: seq<TypeId>)
    requires RevisionsBounded(w) && Visits(w, order)
    ensures Evolves(sc, w, Cleared(w, e, order))
  {
    var c := Cleared(w, e, order);
    ClearedReads(w, e, order);
    assert forall t, f: Entity :: f != e ==> Rev(c, t, f) == Rev(w, t, f) && Link(c, t, f) == Link(w, t, f);
    assert RevsGrow(w, c);
    assert LinksLogged(w, c);
    assert StampsFollow(sc, w, c);
    if w.revision == c.revision {
      assert forall t, f: Entity :: Rev(c, t, f) == Rev(w, t, f);
      assert forall t :: Mark(c, t) == Mark(w, t);
    }
  }

  // ---- relationships ----

  lemma {:induction false} EdgesOfIs(sc: Schema, w: WorldState, e: Entity, order: seq<TypeId>)
    requires sc.Valid()
    ensures forall v, x: Entity :: (v, x) in EdgesOf(sc, w, e, order) <==>
              sc.Kind(v).Inverse? && sc.Kind(v).edge in order && Points(sc, w, v, e, x)
    decreases |order|
  {
    if order != [] {
      EdgesOfIs(sc, w, e, order[1..]);
      var t := order[0];
      var edge := EdgeAt(sc, w, t, e);
      assert forall u :: u in order <==> u == t || u in order[1..];
      forall v, x: Entity
        ensures (v, x) in EdgesOf(sc, w, e, order) <==>
                sc.Kind(v).Inverse? && sc.Kind(v).edge in order && Points(sc, w, v, e, x)
      {
        if edge.Some? { assert sc.Kind(sc.Kind(t).inverse) == Inverse(t); }
        if sc.Kind(v).Inverse? { assert sc.Kind(sc.Kind(v).edge) == Edge(v); }
      }
    }
  }

  lemma {:induction false} RetractionsOfIs(sc: Schema, w: WorldState, e: Entity, order: seq<TypeId>)
    ensures forall k, s: Entity :: (k, s) in RetractionsOf(sc, w, e, order) <==>
              exists v :: v in order && sc.Kind(v) == Inverse(k) && Linked(w, v, s, e)
    decreases |order|
  {
    if order != [] {
      RetractionsOfIs(sc, w, e, order[1..]);
      var u := order[0];
      var members := Members(w, u, e);
      assert forall v :: v in order <==> v == u || v in order[1..];
      forall k, s: Entity
        ensures (k, s) in RetractionsOf(sc, w, e, order) <==>
                exists v :: v in order && sc.Kind(v) == Inverse(k) && Linked(w, v, s, e)
      {
        if sc.Kind(u).Inverse? {
          var here := seq(|members|, i requires 0 <= i < |members| => (sc.Kind(u).edge, members[i]));
          assert (k, s) in here <==> sc.Kind(u) == Inverse(k) && s in members by {
            if sc.Kind(u) == Inverse(k) && s in members {
              var i :| 0 <= i < |members| && members[i] == s;
              assert here[i] == (k, s);
            }
          }
          assert s in members <==> Linked(w, u, s, e);
        }
      }
    }
  }

  lemma {:induction false} DetachLinks(sc: Schema, w: WorldState, e: Entity, edges: seq<(TypeId, Entity)>, loose: Loose)
    requires Sound(sc, w, loose)
    requires forall i :: 0 <= i < |edges| ==> sc.Kind(edges[i].0).Inverse?
    ensures var r := Detach(sc, w, e, edges);
      && Sound(sc, r, loose) && Evolves(sc, w, r)
      && (forall v, s: Entity, x: Entity :: Linked(r, v, s, x) <==> Linked(w, v, s, x) && !(s == e && (v, x) in edges))
      && (forall t :: !sc.Kind(t).Inverse? ==> StoreOf(r, t) == StoreOf(w, t))
      && (forall t, f: Entity :: Has(r, t, f) ==> Has(w, t, f))
    decreases |edges|
  {
    if edges == [] {
      EvolvesReflexive(sc, w);
    } else {
      var next := RemoveMember(sc, w, edges[0].0, e, edges[0].1);
      RemoveMemberLinks(sc, w, edges[0].0, e, edges[0].1, loose);
      DetachLinks(sc, next, e, edges[1..], loose);
      EvolvesTransitive(sc, w, next, Detach(sc, w, e, edges));
      assert forall v, x: Entity :: (v, x) in edges <==> (v, x) == edges[0] || (v, x) in edges[1..];
    }
  }

  /** Edges on `e` that still await retraction are the only ones without a listing. */
  ghost predicate Awaiting(sc: Schema, w: WorldState, e: Entity, retractions: seq<(TypeId, Entity)>) {
    && (forall v, s: Entity :: sc.Kind(v).Inverse? ==> !Linked(w, v, s, e))
    && (forall v, s: Entity, x: Entity :: sc.Kind(v).Inverse? && x != e ==> (Linked(w, v, s, x) <==> Points(sc, w, v, s, x)))
    && (forall v, s: Entity :: sc.Kind(v).Inverse? && Points(sc, w, v, s, e) ==> (sc.Kind(v).edge, s) in retractions)
  }

  /** Removing one edge that points at a target without an inverse: the upkeep finds nothing to do there. */
  lemma RetractOne(sc: Schema, w: WorldState, e: Entity, k: TypeId, s: Entity, rest: seq<(TypeId, Entity)>, loose: Loose)
    requires Sound(sc, w, loose) && Awaiting(sc, w, e, [(k, s)] + rest) && sc.Kind(k).Edge?
    ensures var r := RemoveComponent(sc, w, k, s, None);
      && Sound(sc, r, loose) && Evolves(sc, w, r) && Awaiting(sc, r, e, rest)
      && !Has(r, k, s)
      && (forall t, f: Entity :: Has(r, t, f) ==> Has(w, t, f))
      && (forall t, f: Entity :: !sc.Kind(t).Inverse? && (t, f) != (k, s) ==> Lookup(r, t, f) == Lookup(w, t, f))
  {
    var r := RemoveComponent(sc, w, k, s, None);
    var inv := sc.Kind(k).inverse;
    assert sc.Kind(inv) == Inverse(k);
    if Has(w, k, s) {
      RetractStored(sc, w, k, s, loose);
      RetractOneAwaits(sc, w, r, e, k, s, rest);
    } else {
      EvolvesReflexive(sc, w);
      forall v, y: Entity | sc.Kind(v).Inverse? && Points(sc, w, v, y, e) ensures (sc.Kind(v).edge, y) in rest {
        assert (sc.Kind(v).edge, y) in [(k, s)] + rest;
      }
    }
  }

  /** Removing a stored edge, whatever its target's inverse lists. */
  lemma RetractStored(sc: Schema, w: WorldState, k: TypeId, s: Entity, loose: Loose)
    requires Sound(sc, w, loose) && sc.Kind(k).Edge? && Has(w, k, s)
    ensures var r := RemoveComponent(sc, w, k, s, None);
      var inv := sc.Kind(k).inverse;
      && Sound(sc, r, loose) && Evolves(sc, w, r) && !Has(r, k, s)
      && (forall t, f: Entity :: Has(r, t, f) ==> Has(w, t, f))
      && (forall t, f: Entity :: !sc.Kind(t).Inverse? && (t, f) != (k, s) ==> Lookup(r, t, f) == Lookup(w, t, f))
      && (forall v, y: Entity, x: Entity :: sc.Kind(v).Inverse? && (v, y) != (inv, s)
            ==> (Linked(r, v, y, x) <==> Linked(w, v, y, x)))
      && (forall x: Entity :: Linked(r, inv, s, x) ==> Linked(w, inv, s, x) && EdgeAt(sc, w, k, s) != Some(x))
  {
    var before := EdgeAt(sc, w, k, s);
    var erased := EraseComponent(w, k, s, None);
    EraseComponentSound(sc, w, k, s, None, loose);
    EraseComponentEvolves(sc, w, k, s, None);
    EraseReads(w, k, s);
    assert forall u, f: Entity :: Lookup(erased, u, f) == Lookup(Erase(w, k, s), u, f);
    assert forall v, y: Entity, x: Entity :: sc.Kind(v).Inverse? ==> (Linked(erased, v, y, x) <==> Linked(w, v, y, x));
    if before.Some? {
      RelinkLinks(sc, erased, k, s, before, None, loose);
      EvolvesTransitive(sc, w, erased, RemoveComponent(sc, w, k, s, None));
      assert sc.Kind(sc.Kind(k).inverse) == Inverse(k);
    }
  }

  lemma RetractOneAwaits(sc: Schema, w: WorldState, r: WorldState, e: Entity, k: TypeId, s: Entity, rest: seq<(TypeId, Entity)>)
    requires sc.Valid() && Awaiting(sc, w, e, [(k, s)] + rest) && sc.Kind(k).Edge?
    requires !Has(r, k, s)
    requires forall t, f: Entity :: !sc.Kind(t).Inverse? && (t, f) != (k, s) ==> Lookup(r, t, f) == Lookup(w, t, f)
    requires forall v, y: Entity, x: Entity :: sc.Kind(v).Inverse? && (v, y) != (sc.Kind(k).inverse, s)
               ==> (Linked(r, v, y, x) <==> Linked(w, v, y, x))
    requires forall x: Entity :: Linked(r, sc.Kind(k).inverse, s, x) ==>
               Linked(w, sc.Kind(k).inverse, s, x) && EdgeAt(sc, w, k, s) != Some(x)
    ensures Awaiting(sc, r, e, rest)
  {
    var inv := sc.Kind(k).inverse;
    forall v, y: Entity, x: Entity | sc.Kind(v).Inverse?
      ensures x != e ==> (Linked(r, v, y, x) <==> Points(sc, r, v, y, x))
      ensures x == e ==> !Linked(r, v, y, x)
      ensures x == e && Points(sc, r, v, y, x) ==> (sc.Kind(v).edge, y) in rest
    {
      var kv := sc.Kind(v).edge;
      assert sc.Kind(kv) == Edge(v);
      if (kv, y) == (k, s) {
        assert v == inv;
        assert !Points(sc, r, v, y, x);
        if x != e { assert Linked(w, v, y, x) <==> Points(sc, w, v, y, x); }
      } else {
        assert Points(sc, r, v, y, x) <==> Points(sc, w, v, y, x);
        if x == e && Points(sc, w, v, y, x) { assert (kv, y) in [(k, s)] + rest; }
      }
    }
  }

  lemma {:induction false} RetractMends(sc: Schema, w: WorldState, e: Entity, retractions: seq<(TypeId, Entity)>, loose: Loose)
    requires Sound(sc, w, loose) && Awaiting(sc, w, e, retractions)
    requires forall i :: 0 <= i < |retractions| ==> sc.Kind(retractions[i].0).Edge?
    ensures var r := Retract(sc, w, retractions);
      && Sound(sc, r, loose) && Evolves(sc, w, r) && Awaiting(sc, r, e, [])
      && (forall t, f: Entity :: Has(r, t, f) ==> Has(w, t, f))
      && (forall t, f: Entity :: !sc.Kind(t).Inverse? && Has(r, t, f) ==> Lookup(r, t, f) == Lookup(w, t, f))
      && (forall t, f: Entity :: !sc.Kind(t).Inverse? && (t, f) !in retractions ==> Lookup(r, t, f) == Lookup(w, t, f))
    decreases |retractions|
  {
    if retractions == [] {
      EvolvesReflexive(sc, w);
    } else {
      var k, s := retractions[0].0, retractions[0].1;
      assert retractions == [(k, s)] + retractions[1..];
      var next := RemoveComponent(sc, w, k, s, None);
      RetractOne(sc, w, e, k, s, retractions[1..], loose);
      RetractMends(sc, next, e, retractions[1..], loose);
      EvolvesTransitive(sc, w, next, Retract(sc, w, retractions));
    }
  }

  /**
   Whole-entity removal keeps the invariant, leaves no component on the entity and no edge pointing at it, adds
   nothing anywhere, and touches other entities only by retracting their edges to it and updating inverses.
   */
  lemma RemoveEntityKeepsInv(sc: Schema, w: WorldState, e: Entity, order: seq<TypeId>, loose: Loose)
    requires Inv(sc, w, loose) && Visits(w, order)
    ensures var r := RemoveEntity(sc, w, e, order);
      && Inv(sc, r, loose) && Evolves(sc, w, r)
      && (forall t :: !Has(r, t, e))
      && (forall t, s: Entity :: EdgeAt(sc, r, t, s) != Some(e))
      && (forall t, f: Entity :: Has(r, t, f) ==> Has(w, t, f))
      && (forall t, f: Entity :: !sc.Kind(t).Inverse? && Has(r, t, f) ==> Lookup(r, t, f) == Lookup(w, t, f))
      && (forall t, f: Entity :: f != e && !sc.Kind(t).Inverse? && EdgeAt(sc, w, t, f) != Some(e)
            ==> Lookup(r, t, f) == Lookup(w, t, f))
  {
    var done := BeforeBookkeeping(sc, w, e, order);
    RetractedState(sc, w, e, order, loose);
    RemovedState(sc, w, done, e, OwnersOf(w, e, order), loose);
    var r := RemoveEntity(sc, w, e, order);
    assert forall t, f: Entity :: Lookup(r, t, f) == Lookup(done, t, f);
    assert forall t, f: Entity :: Has(r, t, f) == Has(done, t, f);
  }

  function BeforeBookkeeping(sc: Schema, w: WorldState, e: Entity, order: seq<TypeId>): WorldState {
    Retract(sc, Detach(sc, Cleared(w, e, order), e, EdgesOf(sc, w, e, order)), RetractionsOf(sc, w, e, order))
  }

  lemma RetractedState(sc: Schema, w: WorldState, e: Entity, order: seq<TypeId>, loose: Loose)
    requires Inv(sc, w, loose) && Visits(w, order)
    ensures var r := BeforeBookkeeping(sc, w, e, order);
      && Sound(sc, r, loose) && Evolves(sc, w, r) && Awaiting(sc, r, e, [])
      && (forall t :: !Has(r, t, e))
      && (forall t, f: Entity :: Has(r, t, f) ==> Has(w, t, f))
      && (forall t, f: Entity :: !sc.Kind(t).Inverse? && Has(r, t, f) ==> Lookup(r, t, f) == Lookup(w, t, f))
      && (forall t, f: Entity :: f != e && !sc.Kind(t).Inverse? && EdgeAt(sc, w, t, f) != Some(e)
            ==> Lookup(r, t, f) == Lookup(w, t, f))
  {
    var d := Detach(sc, Cleared(w, e, order), e, EdgesOf(sc, w, e, order));
    DetachedState(sc, w, e, order, loose);
    RetractionsAreEdges(sc, w, e, order);
    RetractMends(sc, d, e, RetractionsOf(sc, w, e, order), loose);
    EvolvesTransitive(sc, w, d, BeforeBookkeeping(sc, w, e, order));
  }

  lemma RemovedState(sc: Schema, w: WorldState, done: WorldState, e: Entity, owners: seq<Owner>, loose: Loose)
    requires Sound(sc, done, loose) && Awaiting(sc, done, e, [])
    ensures var r := done.(removedOwners := done.removedOwners + owners);
      && Inv(sc, r, loose)
      && (forall t, f: Entity :: Lookup(r, t, f) == Lookup(done, t, f))
      && (forall t, s: Entity :: EdgeAt(sc, r, t, s) != Some(e))
      && (Evolves(sc, w, done) ==> Evolves(sc, w, r))
  {
    var r := done.(removedOwners := done.removedOwners + owners);
    AwaitedIsExact(sc, done, e);
    StoresDecide(sc, done, r);
    RemovedTargetUnpointed(sc, done, e);
    assert forall t, f: Entity :: Lookup(r, t, f) == Lookup(done, t, f);
    forall t, s: Entity ensures EdgeAt(sc, r, t, s) != Some(e) { assert EdgeAt(sc, r, t, s) == EdgeAt(sc, done, t, s); }
    if Evolves(sc, w, done) { BookkeepingEvolves(sc, w, done, r); }
    assert OwnersExact(r, loose) by { OwnersUntouched(done, r, loose); }
  }

  lemma OwnersUntouched(w: WorldState, w': WorldState, loose: Loose)
    requires OwnersExact(w, loose) && w'.stores == w.stores && w'.owners == w.owners
    ensures OwnersExact(w', loose)
  {
    assert forall t, f: Entity :: Lookup(w', t, f) == Lookup(w, t, f);
    forall o, t, f: Entity ensures Indexed(w', o, t, f) ==> OwnerAt(w', t, f) == Some(o) {
      assert Indexed(w, o, t, f) ==> OwnerAt(w, t, f) == Some(o);
    }
    forall t, f: Entity | OwnerAt(w', t, f).Some?
      ensures Indexed(w', OwnerAt(w', t, f).value, t, f) || (OwnerAt(w', t, f).value, t, f) in loose
    {
      assert Indexed(w, OwnerAt(w, t, f).value, t, f) || (OwnerAt(w, t, f).value, t, f) in loose;
    }
  }

  lemma AwaitedIsExact(sc: Schema, w: WorldState, e: Entity)
    requires Awaiting(sc, w, e, [])
    ensures InversesExact(sc, w)
  {
    forall v, s: Entity, x: Entity | sc.Kind(v).Inverse? ensures Linked(w, v, s, x) <==> Points(sc, w, v, s, x) {
      assert x == e ==> !Linked(w, v, s, x);
    }
  }

  lemma RetractionsAreEdges(sc: Schema, w: WorldState, e: Entity, order: seq<TypeId>)
    requires sc.Valid() && InversesExact(sc, w)
    ensures var rs := RetractionsOf(sc, w, e, order);
      && (forall i :: 0 <= i < |rs| ==> sc.Kind(rs[i].0).Edge?)
      && (forall t, f: Entity :: (t, f) in rs ==> EdgeAt(sc, w, t, f) == Some(e))
  {
    var rs := RetractionsOf(sc, w, e, order);
    RetractionsOfIs(sc, w, e, order);
    forall t, f: Entity | (t, f) in rs ensures sc.Kind(t).Edge? && EdgeAt(sc, w, t, f) == Some(e) {
      var v :| v in order && sc.Kind(v) == Inverse(t) && Linked(w, v, f, e);
      assert Points(sc, w, v, f, e);
    }
    forall i | 0 <= i < |rs| ensures sc.Kind(rs[i].0).Edge? {
      assert (rs[i].0, rs[i].1) in rs;
    }
  }

  /** After the entity is gone and its own edges are detached, only the retractions are left to do. */
  lemma DetachedState(sc: Schema, w: WorldState, e: Entity, order: seq<TypeId>, loose: Loose)
    requires Inv(sc, w, loose) && Visits(w, order)
    ensures var d := Detach(sc, Cleared(w, e, order), e, EdgesOf(sc, w, e, order));
      && Sound(sc, d, loose) && Evolves(sc, w, d) && Awaiting(sc, d, e, RetractionsOf(sc, w, e, order))
      && (forall t :: !Has(d, t, e))
      && (forall t, f: Entity :: Has(d, t, f) ==> Has(w, t, f))
      && (forall t, f: Entity :: f != e && !sc.Kind(t).Inverse? ==> Lookup(d, t, f) == Lookup(w, t, f))
  {
    DetachedReads(sc, w, e, order, loose);
    DetachedAwaits(sc, w, e, order, Detach(sc, Cleared(w, e, order), e, EdgesOf(sc, w, e, order)));
  }

  lemma DetachedReads(sc: Schema, w: WorldState, e: Entity, order: seq<TypeId>, loose: Loose)
    requires Sound(sc, w, loose) && Visits(w, order)
    ensures var d := Detach(sc, Cleared(w, e, order), e, EdgesOf(sc, w, e, order));
      && Sound(sc, d, loose) && Evolves(sc, w, d)
      && (forall t, f: Entity :: Has(d, t, f) ==> Has(w, t, f) && f != e)
      && (forall t, f: Entity :: !sc.Kind(t).Inverse? ==> Lookup(d, t, f) == if f == e then None else Lookup(w, t, f))
      && (forall v, s: Entity, x: Entity :: Linked(d, v, s, x) <==>
            (Linked(w, v, s, x) && x != e) && !(s == e && (v, x) in EdgesOf(sc, w, e, order)))
  {
    var c := Cleared(w, e, order);
    ClearedSound(sc, w, e, order, loose);
    ClearedEvolves(sc, w, e, order);
    EdgesAreInverses(sc, w, e, order);
    DetachLinks(sc, c, e, EdgesOf(sc, w, e, order), loose);
    EvolvesTransitive(sc, w, c, Detach(sc, c, e, EdgesOf(sc, w, e, order)));
  }

  lemma EdgesAreInverses(sc: Schema, w: WorldState, e: Entity, order: seq<TypeId>)
    requires sc.Valid()
    ensures forall i :: 0 <= i < |EdgesOf(sc, w, e, order)| ==> sc.Kind(EdgesOf(sc, w, e, order)[i].0).Inverse?
  {
    var edges := EdgesOf(sc, w, e, order);
    EdgesOfIs(sc, w, e, order);
    forall i | 0 <= i < |edges| ensures sc.Kind(edges[i].0).Inverse? {
      assert (edges[i].0, edges[i].1) in edges;
    }
  }

  lemma DetachedAwaits(sc: Schema, w: WorldState, e: Entity, order: seq<TypeId>, detached: WorldState)
    requires sc.Valid() && InversesExact(sc, w) && Visits(w, order)
    requires forall v, s: Entity, x: Entity :: Linked(detached, v, s, x) <==>
               (Linked(w, v, s, x) && x != e) && !(s == e && (v, x) in EdgesOf(sc, w, e, order))
    requires forall t, f: Entity :: !sc.Kind(t).Inverse? ==> Lookup(detached, t, f) == if f == e then None else Lookup(w, t, f)
    ensures Awaiting(sc, detached, e, RetractionsOf(sc, w, e, order))
  {
    EdgesOfIs(sc, w, e, order);
    RetractionsOfIs(sc, w, e, order);
    forall v, s: Entity, x: Entity | sc.Kind(v).Inverse?
      ensures x != e ==> (Linked(detached, v, s, x) <==> Points(sc, detached, v, s, x))
      ensures x == e && Points(sc, detached, v, s, x) ==> (sc.Kind(v).edge, s) in RetractionsOf(sc, w, e, order)
    {
      var k := sc.Kind(v).edge;
      assert sc.Kind(k) == Edge(v);
      assert Linked(w, v, s, x) <==> Points(sc, w, v, s, x);
      assert Points(sc, detached, v, s, x) <==> s != e && Points(sc, w, v, s, x);
      if s == e && Points(sc, w, v, s, x) { assert k in w.stores; }
      if x == e && Points(sc, w, v, s, x) {
        assert Has(w, v, e) && v in w.stores;
        assert v in order && sc.Kind(v) == Inverse(k) && Linked(w, v, s, e);
      }
    }
  }

  lemma RemovedTargetUnpointed(sc: Schema, w: WorldState, e: Entity)
    requires sc.Valid() && InversesExact(sc, w)
    requires forall v, s: Entity :: sc.Kind(v).Inverse? ==> !Linked(w, v, s, e)
    ensures forall t, s: Entity :: EdgeAt(sc, w, t, s) != Some(e)
  {
    forall t, s: Entity ensures EdgeAt(sc, w, t, s) != Some(e) {
      if EdgeAt(sc, w, t, s) == Some(e) {
        var v := sc.Kind(t).inverse;
        assert sc.Kind(v) == Inverse(t);
        assert Points(sc, w, v, s, e);
        assert false;
      }
    }
  }
}
