/** What reconciling in-place writes comes to, whatever was written: stamps, revisions, watermarks and log. */
module Reconciling {
  import opened Ids
  import opened World
  import opened InPlace

  /** The stored stamp is tracked and no longer the value's, or there is none to go by. */
  ghost predicate Outdated(sc: Schema, w: WorldState, t: TypeId, e: Entity) {
    Has(w, t, e) && sc.Tracked(t) && (StampAt(w, t, e).None? || StampAt(w, t, e) != Lookup(w, t, e).value.value.stamp)
  }

  ghost predicate AnyOutdated(sc: Schema, w: WorldState, writes: seq<(TypeId, Entity)>) {
    exists t, e: Entity :: (t, e) in writes && Outdated(sc, w, t, e)
  }

  /**
   One entry afterwards: untouched unless it is among the writes; then it has its value's stamp, and a revision above all
   earlier ones exactly when it was outdated. Value and owner stay in any case.
   */
  ghost predicate Mended(sc: Schema, w: WorldState, w': WorldState, writes: seq<(TypeId, Entity)>, t: TypeId, e: Entity) {
    if !Has(w, t, e) || (t, e) !in writes then Lookup(w', t, e) == Lookup(w, t, e)
    else
      && Has(w', t, e)
      && Lookup(w', t, e).value.value == Lookup(w, t, e).value.value
      && OwnerAt(w', t, e) == OwnerAt(w, t, e)
      && StampAt(w', t, e) == Lookup(w, t, e).value.value.stamp
      && (if Outdated(sc, w, t, e) then Rev(w', t, e).value > w.revision && Mark(w', t) > w.revision else Rev(w', t, e) == Rev(w, t, e))
  }

  /** The stores and the log afterwards, and everything that reconciling leaves alone. */
  ghost predicate Booked(sc: Schema, w: WorldState, w': WorldState, writes: seq<(TypeId, Entity)>) {
    && (forall t :: t in w'.stores <==> t in w.stores)
    && (forall t :: (forall e: Entity :: (t, e) in writes ==> !Outdated(sc, w, t, e)) ==> Mark(w', t) == Mark(w, t))
    && w.log <= w'.log && (forall t, e: Entity :: (t, e) in w'.log[|w.log|..] <==> (t, e) in writes && t in w.stores)
    && w.revision <= w'.revision && (w.revision < w'.revision <==> AnyOutdated(sc, w, writes))
    && w'.(revision := w.revision, stores := w.stores, log := w.log) == w
  }

  lemma ReconcileReads(sc: Schema, w: WorldState, t: TypeId, e: Entity)
    requires RevisionsBounded(w)
    ensures var w' := Reconcile(sc, w, t, e);
      (forall u, f: Entity :: Mended(sc, w, w', [(t, e)], u, f)) && Booked(sc, w, w', [(t, e)]) && RevisionsBounded(w')
  {
    var w' := Reconcile(sc, w, t, e);
    if t in w.stores {
      assert w'.log[|w.log|..] == [(t, e)];
      if Has(w, t, e) {
        MendedReads(sc, w, t, e);
      } else {
        assert forall u, f: Entity :: Lookup(w', u, f) == Lookup(w, u, f);
        assert forall u :: Mark(w', u) == Mark(w, u);
      }
    } else {
      assert w'.log[|w.log|..] == [];
    }
  }

  lemma MendedReads(sc: Schema, w: WorldState, t: TypeId, e: Entity)
    requires RevisionsBounded(w) && Has(w, t, e)
    ensures var w' := Reconcile(sc, w, t, e);
      (forall u, f: Entity :: Mended(sc, w, w', [(t, e)], u, f)) && Booked(sc, w, w', [(t, e)]) && RevisionsBounded(w')
  {
    var w' := Reconcile(sc, w, t, e);
    assert w'.log[|w.log|..] == [(t, e)];
    assert forall u, f: Entity :: (u, f) != (t, e) ==> Lookup(w', u, f) == Lookup(w, u, f);
    assert forall u :: u != t ==> Mark(w', u) == Mark(w, u);
    forall u, f: Entity | Has(w', u, f) ensures Lookup(w', u, f).value.revision <= Mark(w', u) { assert Has(w, u, f); }
    forall u ensures Mark(w', u) <= w'.revision { assert Mark(w, u) <= w.revision; }
    if Outdated(sc, w, t, e) { assert (t, e) in [(t, e)]; }
  }

  lemma MendedTwice(sc: Schema, w: WorldState, next: WorldState, w': WorldState, p: (TypeId, Entity), rest: seq<(TypeId, Entity)>, t: TypeId, e: Entity)
    requires Mended(sc, w, next, [p], t, e) && Mended(sc, next, w', rest, t, e) && w.revision <= next.revision
    requires RevisionsBounded(w') && Mark(next, t) <= Mark(w', t)
    ensures Mended(sc, w, w', [p] + rest, t, e)
  {
    assert (t, e) in [p] + rest <==> (t, e) in [p] || (t, e) in rest;
    if Has(w, t, e) && (t, e) in [p] + rest {
      assert Lookup(w', t, e).value.revision <= Mark(w', t);
    }
  }

  lemma OutdatedLater(sc: Schema, w: WorldState, next: WorldState, p: (TypeId, Entity), t: TypeId, e: Entity)
    requires Mended(sc, w, next, [p], t, e)
    ensures Outdated(sc, next, t, e) ==> Outdated(sc, w, t, e)
    ensures (t, e) != p ==> (Outdated(sc, next, t, e) <==> Outdated(sc, w, t, e))
  {}

  lemma BookedTwice(sc: Schema, w: WorldState, next: WorldState, w': WorldState, p: (TypeId, Entity), rest: seq<(TypeId, Entity)>)
    requires (forall t, e: Entity :: Mended(sc, w, next, [p], t, e)) && Booked(sc, w, next, [p]) && Booked(sc, next, w', rest)
    ensures Booked(sc, w, w', [p] + rest)
  {
    forall t, e: Entity
      ensures Outdated(sc, next, t, e) ==> Outdated(sc, w, t, e)
      ensures (t, e) != p ==> (Outdated(sc, next, t, e) <==> Outdated(sc, w, t, e))
    {
      OutdatedLater(sc, w, next, p, t, e);
    }
    assert forall t, e: Entity :: (t, e) in [p] + rest <==> (t, e) == p || (t, e) in rest;
    assert w'.log[|w.log|..] == next.log[|w.log|..] + w'.log[|next.log|..];
    if AnyOutdated(sc, w, [p] + rest) {
      var t, e: Entity :| (t, e) in [p] + rest && Outdated(sc, w, t, e);
      if (t, e) == p { assert (t, e) in [p] && AnyOutdated(sc, w, [p]); } else { assert Outdated(sc, next, t, e) && AnyOutdated(sc, next, rest); }
    }
  }

  /**
   Reconciling any list of in-place writes: each of the entries there ends with its value's stamp; if it was outdated its
   revision and its store's watermark end above every earlier revision, and if not its revision stands; every other entry
   is as it was. The world's revision moves exactly when something was outdated, and every write to a store there is is
   logged.
   */
  lemma {:induction false} ReconcileAllReads(sc: Schema, w: WorldState, writes: seq<(TypeId, Entity)>)
    requires RevisionsBounded(w)
    ensures var w' := ReconcileAll(sc, w, writes);
      (forall t, e: Entity :: Mended(sc, w, w', writes, t, e)) && Booked(sc, w, w', writes) && RevisionsBounded(w')
    decreases |writes|
  {
    if writes != [] {
      var (t, e) := writes[0];
      var next, w' := Reconcile(sc, w, t, e), ReconcileAll(sc, w, writes);
      ReconcileReads(sc, w, t, e);
      ReconcileAllReads(sc, next, writes[1..]);
      assert writes == [(t, e)] + writes[1..];
      BookedTwice(sc, w, next, w', (t, e), writes[1..]);
      forall u, f: Entity ensures Mended(sc, w, w', writes, u, f) {
        MarksRise(sc, next, w', writes[1..], u);
        MendedTwice(sc, w, next, w', (t, e), writes[1..], u, f);
      }
    } else {
      assert w.log[|w.log|..] == [];
    }
  }

  lemma MarksRise(sc: Schema, w: WorldState, w': WorldState, writes: seq<(TypeId, Entity)>, t: TypeId)
    requires RevisionsBounded(w) && Booked(sc, w, w', writes) && forall e: Entity :: Mended(sc, w, w', writes, t, e)
    ensures Mark(w, t) <= Mark(w', t)
  {
    if e: Entity :| (t, e) in writes && Outdated(sc, w, t, e) {
      assert Mended(sc, w, w', writes, t, e);
    }
  }

  /** A live external mutation of one component: the same for that entry, and its new value is stored. */
  lemma UpdateReads(sc: Schema, w: WorldState, t: TypeId, e: Entity, v: Value)
    requires RevisionsBounded(w)
    ensures var w' := Update(sc, w, t, e, v);
      var changed := Has(w, t, e) && sc.Tracked(t) && (StampAt(w, t, e).None? || StampAt(w, t, e) != v.stamp);
      && (forall u, f: Entity :: (u, f) != (t, e) || !Has(w, t, e) ==> Lookup(w', u, f) == Lookup(w, u, f))
      && (Has(w, t, e) ==> Lookup(w', t, e) == Some(Entry(v, v.stamp, if changed then w.revision + 1 else Rev(w, t, e).value, OwnerAt(w, t, e))))
      && (forall u :: Mark(w', u) == if changed && u == t then w.revision + 1 else Mark(w, u))
      && w'.revision == (if changed then w.revision + 1 else w.revision)
      && w'.log == (if changed then w.log + [(t, e)] else w.log)
  {
    var w' := Update(sc, w, t, e, v);
    if Has(w, t, e) {
      assert forall u, f: Entity :: (u, f) != (t, e) ==> Lookup(w', u, f) == Lookup(w, u, f);
      assert Mark(w, t) <= w.revision;
    }
  }
}
