/** Who is listed for having lost a component, and which entities for having been removed, after whatever a commit did. */
module Losers {
  import opened Ids
  import opened World
  import opened WorldLemmas
  import opened Output
  import M = Mutators
  import R = Removal

  /** The three lists a commit is to account for. */
  ghost predicate SameLists(w: WorldState, w': WorldState) {
    && w'.removedEntities == w.removedEntities && w'.removedOwners == w.removedOwners
    && w'.removedComponentOwners == w.removedComponentOwners
  }

  lemma RemoveMemberLists(sc: Schema, w: WorldState, v: TypeId, s: Entity, x: Entity)
    requires Has(w, v, x) ==> OwnerAt(w, v, x).None?
    ensures SameLists(w, RemoveMember(sc, w, v, s, x))
  {}

  lemma RelinkLists(sc: Schema, w: WorldState, t: TypeId, e: Entity, before: Option<Entity>, after: Option<Entity>)
    requires sc.Valid() && InversesShaped(sc, w)
    ensures SameLists(w, M.Relink(sc, w, t, e, before, after))
  {
    if before != after && sc.Kind(t).Edge? && before.Some? {
      RemoveMemberLists(sc, w, sc.Kind(t).inverse, e, before.value);
    }
  }

  lemma InsertLists(sc: Schema, w: WorldState, t: TypeId, e: Entity, v: Value, o: Option<Owner>, loose: Loose)
    requires Inv(sc, w, loose) && !sc.Kind(t).Inverse?
    ensures SameLists(w, M.Insert(sc, w, t, e, v, o))
  {
    var written := Write(sc, w, t, e, v, o);
    WriteSound(sc, w, t, e, v, o, loose);
    RelinkLists(sc, written, t, e, EdgeAt(sc, w, t, e), EdgeOf(sc, t, v));
  }

  lemma RemoveComponentLists(sc: Schema, w: WorldState, t: TypeId, e: Entity, remover: Option<Owner>, loose: Loose)
    requires Sound(sc, w, loose)
    ensures var w' := M.RemoveComponent(sc, w, t, e, remover);
      && w'.removedEntities == w.removedEntities && w'.removedOwners == w.removedOwners
      && w'.removedComponentOwners ==
           if OwnerAt(w, t, e).Some? && OwnerAt(w, t, e) != remover then w.removedComponentOwners + [OwnerAt(w, t, e).value]
           else w.removedComponentOwners
  {
    if Has(w, t, e) {
      EraseComponentSound(sc, w, t, e, remover, loose);
      RelinkLists(sc, EraseComponent(w, t, e, remover), t, e, EdgeAt(sc, w, t, e), None);
    }
  }

  lemma {:induction false} SweepLists(sc: Schema, w: WorldState, o: Owner, previous: seq<(TypeId, Entity)>, loose: Loose)
    requires Inv(sc, w, loose) && forall i :: 0 <= i < |previous| ==> !sc.Kind(previous[i].0).Inverse?
    ensures SameLists(w, Sweep(sc, w, o, previous))
    decreases |previous|
  {
    if previous != [] {
      var (t, e) := previous[0];
      assert !sc.Kind(previous[0].0).Inverse?;
      var next := if Indexed(w, o, t, e) then w else M.RemoveDerivedEntry(sc, w, t, e, o);
      if !Indexed(w, o, t, e) { SweptEntryLists(sc, w, t, e, o, loose); }
      assert forall i :: 0 <= i < |previous[1..]| ==> previous[1..][i] == previous[i + 1];
      SweepLists(sc, next, o, previous[1..], loose);
    }
  }

  lemma SweptEntryLists(sc: Schema, w: WorldState, t: TypeId, e: Entity, o: Owner, loose: Loose)
    requires Inv(sc, w, loose) && !sc.Kind(t).Inverse? && !Indexed(w, o, t, e)
    ensures SameLists(w, M.RemoveDerivedEntry(sc, w, t, e, o)) && Inv(sc, M.RemoveDerivedEntry(sc, w, t, e, o), loose)
  {
    M.RemoveDerivedEntryKeepsInv(sc, w, t, e, o, loose);
    if OwnerAt(w, t, e) == Some(o) {
      NoneIndexes(w, t, e, o, loose);
      EraseSound(sc, w, t, e, loose);
      RelinkLists(sc, Erase(w, t, e), t, e, EdgeAt(sc, w, t, e), None);
    }
  }

  lemma NoneIndexes(w: WorldState, t: TypeId, e: Entity, o: Owner, loose: Loose)
    requires OwnersExact(w, loose) && OwnerAt(w, t, e) == Some(o) && !Indexed(w, o, t, e)
    ensures forall p :: !Indexed(w, p, t, e)
  {
    forall p ensures !Indexed(w, p, t, e) { assert Indexed(w, p, t, e) ==> OwnerAt(w, t, e) == Some(p); }
  }

  // ---- a whole entity ----

  lemma {:induction false} DetachLists(sc: Schema, w: WorldState, e: Entity, edges: seq<(TypeId, Entity)>, loose: Loose)
    requires Sound(sc, w, loose) && forall i :: 0 <= i < |edges| ==> sc.Kind(edges[i].0).Inverse?
    ensures SameLists(w, R.Detach(sc, w, e, edges))
    decreases |edges|
  {
    if edges != [] {
      var (v, x) := edges[0];
      assert sc.Kind(edges[0].0).Inverse?;
      assert Has(w, v, x) ==> OwnerAt(w, v, x).None?;
      RemoveMemberLists(sc, w, v, e, x);
      M.RemoveMemberLinks(sc, w, v, e, x, loose);
      assert forall i :: 0 <= i < |edges[1..]| ==> edges[1..][i] == edges[i + 1];
      DetachLists(sc, RemoveMember(sc, w, v, e, x), e, edges[1..], loose);
    }
  }

  lemma {:induction false} RetractLists(sc: Schema, w: WorldState, e: Entity, rs: seq<(TypeId, Entity)>, loose: Loose, p: Owner)
    requires Sound(sc, w, loose) && R.Awaiting(sc, w, e, rs) && forall i :: 0 <= i < |rs| ==> sc.Kind(rs[i].0).Edge?
    ensures var w' := R.Retract(sc, w, rs);
      && w'.removedEntities == w.removedEntities
      && (p in w'.removedComponentOwners <==> p in w.removedComponentOwners || exists k, s: Entity :: (k, s) in rs && OwnerAt(w, k, s) == Some(p))
    decreases |rs|
  {
    if rs != [] {
      var (k, s) := rs[0];
      var next := M.RemoveComponent(sc, w, k, s, None);
      assert rs == [(k, s)] + rs[1..] && sc.Kind(rs[0].0).Edge?;
      R.RetractOne(sc, w, e, k, s, rs[1..], loose);
      RemoveComponentLists(sc, w, k, s, None, loose);
      assert forall i :: 0 <= i < |rs[1..]| ==> rs[1..][i] == rs[i + 1];
      RetractLists(sc, next, e, rs[1..], loose, p);
      forall u, x: Entity | (u, x) in rs ensures (u, x) == (k, s) || ((u, x) in rs[1..] && OwnerAt(next, u, x) == OwnerAt(w, u, x)) {
        if (u, x) != (k, s) {
          var i :| 0 <= i < |rs| && rs[i] == (u, x);
          assert rs[1..][i - 1] == (u, x) && sc.Kind(rs[i].0).Edge?;
        }
      }
      forall u, x: Entity | (u, x) in rs[1..] && OwnerAt(next, u, x) == Some(p) ensures OwnerAt(w, u, x) == Some(p) {
        var i :| 0 <= i < |rs[1..]| && rs[1..][i] == (u, x);
        assert sc.Kind(rs[1..][i].0).Edge?;
      }
    }
  }

  /** Removing an entity lists it, and whoever owned an edge of another entity that pointed at it. */
  lemma RemoveEntityLoses(sc: Schema, w: WorldState, e: Entity, order: seq<TypeId>, loose: Loose, p: Owner)
    requires Inv(sc, w, loose) && R.Visits(w, order)
    ensures var w' := R.RemoveEntity(sc, w, e, order);
      && w'.removedEntities == w.removedEntities + [e]
      && (p in w'.removedComponentOwners <==>
            p in w.removedComponentOwners || exists t, s: Entity :: s != e && EdgeAt(sc, w, t, s) == Some(e) && OwnerAt(w, t, s) == Some(p))
  {
    var c, rs := R.Cleared(w, e, order), R.RetractionsOf(sc, w, e, order);
    var d := R.Detach(sc, c, e, R.EdgesOf(sc, w, e, order));
    R.StripAllReads(w, e, order);
    R.ClearedSound(sc, w, e, order, loose);
    R.EdgesAreInverses(sc, w, e, order);
    DetachLists(sc, c, e, R.EdgesOf(sc, w, e, order), loose);
    R.DetachedState(sc, w, e, order, loose);
    R.RetractionsAreEdges(sc, w, e, order);
    RetractLists(sc, d, e, rs, loose, p);
    RetractionsArePointers(sc, w, e, order);
    forall t, s: Entity ensures (t, s) in rs && OwnerAt(d, t, s) == Some(p) <==> s != e && EdgeAt(sc, w, t, s) == Some(e) && OwnerAt(w, t, s) == Some(p) {
      if s != e && !sc.Kind(t).Inverse? { assert Lookup(d, t, s) == Lookup(w, t, s); }
    }
  }

  lemma RetractionsArePointers(sc: Schema, w: WorldState, e: Entity, order: seq<TypeId>)
    requires sc.Valid() && InversesExact(sc, w) && R.Visits(w, order)
    ensures forall t, s: Entity :: (t, s) in R.RetractionsOf(sc, w, e, order) <==> EdgeAt(sc, w, t, s) == Some(e)
  {
    R.RetractionsAreEdges(sc, w, e, order);
    R.RetractionsOfIs(sc, w, e, order);
    forall t, s: Entity | EdgeAt(sc, w, t, s) == Some(e) ensures (t, s) in R.RetractionsOf(sc, w, e, order) {
      var v := sc.Kind(t).inverse;
      assert sc.Kind(v) == Inverse(t) && Points(sc, w, v, s, e);
      assert Linked(w, v, s, e) && v in w.stores;
    }
  }

  // ---- a commit ----

  /** The command takes something of `p` that its own invocation did not have: by name, or with an entity its edge points at. */
  ghost predicate Loses(sc: Schema, w: WorldState, c: Command, o: Owner, p: Owner) {
    match c
    case Put(_, _, _) => false
    case Drop(t, e) => p != o && OwnerAt(w, t, e) == Some(p)
    case Despawn(e, _) => exists t, s: Entity :: s != e && EdgeAt(sc, w, t, s) == Some(e) && OwnerAt(w, t, s) == Some(p)
  }

  lemma StepLoses(sc: Schema, w: WorldState, c: Command, o: Owner, loose: Loose, p: Owner)
    requires Inv(sc, w, loose) && Legal(sc, w, c)
    ensures var w' := Step(sc, w, c, o);
      && (p in w'.removedComponentOwners <==> p in w.removedComponentOwners || Loses(sc, w, c, o, p))
      && w'.removedEntities == if c.Despawn? then w.removedEntities + [c.e] else w.removedEntities
  {
    match c
    case Put(t, e, v) => InsertLists(sc, w, t, e, if t == sc.derivedFrom then Capture(sc, w, v) else v, Some(o), loose);
    case Drop(t, e) => RemoveComponentLists(sc, w, t, e, Some(o), loose);
    case Despawn(e, order) => RemoveEntityLoses(sc, w, e, order, loose, p);
  }

  /** The world in which the `n`-th command takes effect. */
  function At(sc: Schema, w: WorldState, cs: seq<Command>, o: Owner, n: nat): WorldState
    requires n <= |cs|
  {
    Steps(sc, w, cs[..n], o)
  }

  ghost predicate LosesWithin(sc: Schema, w: WorldState, cs: seq<Command>, o: Owner, p: Owner) {
    exists n :: 0 <= n < |cs| && Loses(sc, At(sc, w, cs, o, n), cs[n], o, p)
  }

  lemma LosesLater(sc: Schema, w: WorldState, cs: seq<Command>, o: Owner, p: Owner)
    requires cs != []
    ensures LosesWithin(sc, w, cs, o, p) <==> Loses(sc, w, cs[0], o, p) || LosesWithin(sc, Step(sc, w, cs[0], o), cs[1..], o, p)
  {
    var rest, next := cs[1..], Step(sc, w, cs[0], o);
    assert At(sc, w, cs, o, 0) == w by { assert cs[..0] == []; }
    forall n: nat | n < |rest| ensures At(sc, w, cs, o, n + 1) == At(sc, next, rest, o, n) && cs[n + 1] == rest[n] {
      assert cs[..n + 1][0] == cs[0] && cs[..n + 1][1..] == rest[..n];
    }
    if n :| 0 <= n < |cs| && Loses(sc, At(sc, w, cs, o, n), cs[n], o, p) {
      if n > 0 { assert Loses(sc, At(sc, next, rest, o, n - 1), rest[n - 1], o, p); }
    }
    if n :| 0 <= n < |rest| && Loses(sc, At(sc, next, rest, o, n), rest[n], o, p) {
      assert Loses(sc, At(sc, w, cs, o, n + 1), cs[n + 1], o, p);
    }
  }

  lemma {:induction false} StepsLose(sc: Schema, w: WorldState, cs: seq<Command>, o: Owner, emitted: set<(TypeId, Entity)>, loose: Loose, p: Owner)
    requires Replacing(sc, w, o, emitted, loose) && LegalSteps(sc, w, cs, o)
    ensures var w' := Steps(sc, w, cs, o);
      && (p in w'.removedComponentOwners <==> p in w.removedComponentOwners || LosesWithin(sc, w, cs, o, p))
      && (forall e :: e in w'.removedEntities <==> e in w.removedEntities || exists c :: c in cs && c.Despawn? && c.e == e)
    decreases |cs|
  {
    if cs != [] {
      var c := cs[0];
      var next := Step(sc, w, c, o);
      StepLoses(sc, w, c, o, loose, p);
      StepReplaces(sc, w, c, o, emitted, loose);
      LosesLater(sc, w, cs, o, p);
      var written := if c.Put? then emitted + {(c.t, c.e)} else emitted;
      StepsLose(sc, next, cs[1..], o, Present(next, written), if c.Put? then loose - {(o, c.t, c.e)} else loose, p);
      assert forall d :: d in cs <==> d == c || d in cs[1..];
    }
  }

  /**
   A commit lists exactly those who lost something to its commands, at the moment they took effect, and exactly the
   entities it removed. What it sweeps of its own, or drops of its own, lists nobody.
   */
  lemma CommitLists(sc: Schema, w: WorldState, cs: seq<Command>, o: Owner, previous: seq<(TypeId, Entity)>, p: Owner)
    requires Inv(sc, w, {}) && Lists(previous, Outputs(w, o)) && LegalSteps(sc, Take(w, o), Reordered(sc, cs), o)
    ensures var w' := Replace(sc, w, cs, o, previous);
      && (p in w'.removedComponentOwners <==> p in w.removedComponentOwners || LosesWithin(sc, Take(w, o), Reordered(sc, cs), o, p))
      && (forall e :: e in w'.removedEntities <==> e in w.removedEntities || exists c :: c in Reordered(sc, cs) && c.Despawn? && c.e == e)
  {
    var taken := Take(w, o);
    var loose := set q | q in Outputs(w, o) :: (o, q.0, q.1);
    TakeLoosens(sc, w, o);
    DeferralReorders(sc, taken, cs, o);
    StepsLose(sc, taken, Reordered(sc, cs), o, {}, loose, p);
    var left := StepsReplace(sc, taken, Reordered(sc, cs), o, {}, loose);
    OutputsAreOrdinary(sc, w, o, previous);
    SweepLists(sc, ApplyBuffer(sc, taken, cs, o), o, previous, left);
  }
}
