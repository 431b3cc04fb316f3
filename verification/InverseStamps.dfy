/** Maintained inverses are fingerprinted by their member lists, over every run; so an unmoved revision vouches for the list. */
module InverseStamps {
  import opened Ids
  import opened Ascending
  import opened World
  import opened WorldLemmas
  import opened WorldRuns
  import M = Mutators
  import R = Removal
  import P = InPlace
  import O = Output
  import C = Coverage
  import PH = Phases

  /** The value carries its list's fingerprint, and the entry is stored under it. */
  ghost predicate HashedEntry(sc: Schema, x: Entry) {
    x.value.stamp == Some(sc.memberHash(x.value.members)) && x.stamp == x.value.stamp
  }

  ghost predicate Hashed(sc: Schema, w: WorldState) {
    forall v, e: Entity :: sc.Kind(v).Inverse? && Has(w, v, e) ==> HashedEntry(sc, Lookup(w, v, e).value)
  }

  /** Every inverse is as it was, gone, or freshly written with its list's fingerprint. */
  ghost predicate Upheld(sc: Schema, w: WorldState, w': WorldState) {
    forall v, e: Entity :: sc.Kind(v).Inverse? && Has(w', v, e) ==>
      Lookup(w', v, e) == Lookup(w, v, e) || HashedEntry(sc, Lookup(w', v, e).value)
  }

  lemma UpheldTransitive(sc: Schema, a: WorldState, b: WorldState, c: WorldState)
    requires Upheld(sc, a, b) && Upheld(sc, b, c)
    ensures Upheld(sc, a, c)
  {}

  lemma SameStoresUphold(sc: Schema, w: WorldState, w': WorldState)
    requires w'.stores == w.stores
    ensures Upheld(sc, w, w')
  {
    assert forall v, e: Entity :: Lookup(w', v, e) == Lookup(w, v, e);
  }

  lemma WriteUpholds(sc: Schema, w: WorldState, t: TypeId, e: Entity, v: Value, o: Option<Owner>)
    requires sc.Kind(t).Inverse? ==> v == InverseValue(sc, v.members)
    ensures Upheld(sc, w, Write(sc, w, t, e, v, o))
  {
    WriteReads(sc, w, t, e, v, o);
  }

  lemma EraseUpholds(sc: Schema, w: WorldState, t: TypeId, e: Entity)
    requires Has(w, t, e)
    ensures Upheld(sc, w, Erase(w, t, e))
  {
    EraseReads(w, t, e);
  }

  lemma EraseComponentUpholds(sc: Schema, w: WorldState, t: TypeId, e: Entity, remover: Option<Owner>)
    requires Has(w, t, e)
    ensures Upheld(sc, w, EraseComponent(w, t, e, remover))
  {
    EraseUpholds(sc, w, t, e);
    SameStoresUphold(sc, Erase(w, t, e), EraseComponent(w, t, e, remover));
    UpheldTransitive(sc, w, Erase(w, t, e), EraseComponent(w, t, e, remover));
  }

  lemma AddMemberUpholds(sc: Schema, w: WorldState, v: TypeId, s: Entity, x: Entity)
    ensures Upheld(sc, w, AddMember(sc, w, v, s, x))
  {
    if s !in Members(w, v, x) { WriteUpholds(sc, w, v, x, InverseValue(sc, InsertSorted(Members(w, v, x), s)), None); }
  }

  lemma RemoveMemberUpholds(sc: Schema, w: WorldState, v: TypeId, s: Entity, x: Entity)
    ensures Upheld(sc, w, RemoveMember(sc, w, v, s, x))
  {
    if s in Members(w, v, x) {
      var rest := RemoveSorted(Members(w, v, x), s);
      if rest == [] { EraseComponentUpholds(sc, w, v, x, None); } else { WriteUpholds(sc, w, v, x, InverseValue(sc, rest), None); }
    }
  }

  lemma RelinkUpholds(sc: Schema, w: WorldState, t: TypeId, e: Entity, before: Option<Entity>, after: Option<Entity>)
    ensures Upheld(sc, w, M.Relink(sc, w, t, e, before, after))
  {
    if before != after && sc.Kind(t).Edge? {
      var v := sc.Kind(t).inverse;
      var left := if before.Some? then RemoveMember(sc, w, v, e, before.value) else w;
      if before.Some? { RemoveMemberUpholds(sc, w, v, e, before.value); }
      if after.Some? {
        AddMemberUpholds(sc, left, v, e, after.value);
        UpheldTransitive(sc, w, left, AddMember(sc, left, v, e, after.value));
      }
    }
  }

  lemma InsertUpholds(sc: Schema, w: WorldState, t: TypeId, e: Entity, v: Value, o: Option<Owner>)
    requires !sc.Kind(t).Inverse?
    ensures Upheld(sc, w, M.Insert(sc, w, t, e, v, o))
  {
    var written := Write(sc, w, t, e, v, o);
    WriteUpholds(sc, w, t, e, v, o);
    RelinkUpholds(sc, written, t, e, EdgeAt(sc, w, t, e), EdgeOf(sc, t, v));
    UpheldTransitive(sc, w, written, M.Insert(sc, w, t, e, v, o));
  }

  lemma RemoveComponentUpholds(sc: Schema, w: WorldState, t: TypeId, e: Entity, remover: Option<Owner>)
    ensures Upheld(sc, w, M.RemoveComponent(sc, w, t, e, remover))
  {
    if Has(w, t, e) {
      var erased := EraseComponent(w, t, e, remover);
      EraseComponentUpholds(sc, w, t, e, remover);
      RelinkUpholds(sc, erased, t, e, EdgeAt(sc, w, t, e), None);
      UpheldTransitive(sc, w, erased, M.RemoveComponent(sc, w, t, e, remover));
    }
  }

  lemma RemoveDerivedEntryUpholds(sc: Schema, w: WorldState, t: TypeId, e: Entity, o: Owner)
    ensures Upheld(sc, w, M.RemoveDerivedEntry(sc, w, t, e, o))
  {
    if OwnerAt(w, t, e) == Some(o) {
      EraseUpholds(sc, w, t, e);
      RelinkUpholds(sc, Erase(w, t, e), t, e, EdgeAt(sc, w, t, e), None);
      UpheldTransitive(sc, w, Erase(w, t, e), M.RemoveDerivedEntry(sc, w, t, e, o));
    }
  }

  // ---- whole entities and outputs ----

  lemma {:induction false} DetachUpholds(sc: Schema, w: WorldState, e: Entity, edges: seq<(TypeId, Entity)>)
    ensures Upheld(sc, w, R.Detach(sc, w, e, edges))
    decreases |edges|
  {
    if edges != [] {
      var next := RemoveMember(sc, w, edges[0].0, e, edges[0].1);
      RemoveMemberUpholds(sc, w, edges[0].0, e, edges[0].1);
      DetachUpholds(sc, next, e, edges[1..]);
      UpheldTransitive(sc, w, next, R.Detach(sc, w, e, edges));
    }
  }

  lemma {:induction false} RetractUpholds(sc: Schema, w: WorldState, rs: seq<(TypeId, Entity)>)
    ensures Upheld(sc, w, R.Retract(sc, w, rs))
    decreases |rs|
  {
    if rs != [] {
      var next := M.RemoveComponent(sc, w, rs[0].0, rs[0].1, None);
      RemoveComponentUpholds(sc, w, rs[0].0, rs[0].1, None);
      RetractUpholds(sc, next, rs[1..]);
      UpheldTransitive(sc, w, next, R.Retract(sc, w, rs));
    }
  }

  lemma RemoveEntityUpholds(sc: Schema, w: WorldState, e: Entity, order: seq<TypeId>)
    ensures Upheld(sc, w, R.RemoveEntity(sc, w, e, order))
  {
    var c := R.Cleared(w, e, order);
    var d := R.Detach(sc, c, e, R.EdgesOf(sc, w, e, order));
    var r := R.Retract(sc, d, R.RetractionsOf(sc, w, e, order));
    R.StripAllEntries(w, e, order);
    SameStoresUphold(sc, R.StripAll(w, e, order), c);
    assert Upheld(sc, w, R.StripAll(w, e, order));
    UpheldTransitive(sc, w, R.StripAll(w, e, order), c);
    DetachUpholds(sc, c, e, R.EdgesOf(sc, w, e, order));
    UpheldTransitive(sc, w, c, d);
    RetractUpholds(sc, d, R.RetractionsOf(sc, w, e, order));
    UpheldTransitive(sc, w, d, r);
    SameStoresUphold(sc, r, R.RemoveEntity(sc, w, e, order));
    UpheldTransitive(sc, w, r, R.RemoveEntity(sc, w, e, order));
  }

  lemma StepUpholds(sc: Schema, w: WorldState, c: O.Command, o: Owner)
    requires O.Legal(sc, w, c)
    ensures Upheld(sc, w, O.Step(sc, w, c, o))
  {
    match c
    case Put(t, e, v) => InsertUpholds(sc, w, t, e, if t == sc.derivedFrom then O.Capture(sc, w, v) else v, Some(o));
    case Drop(t, e) => RemoveComponentUpholds(sc, w, t, e, Some(o));
    case Despawn(e, order) => RemoveEntityUpholds(sc, w, e, order);
  }

  lemma {:induction false} StepsUphold(sc: Schema, w: WorldState, cs: seq<O.Command>, o: Owner)
    requires O.LegalSteps(sc, w, cs, o)
    ensures Upheld(sc, w, O.Steps(sc, w, cs, o))
    decreases |cs|
  {
    if cs != [] {
      StepUpholds(sc, w, cs[0], o);
      StepsUphold(sc, O.Step(sc, w, cs[0], o), cs[1..], o);
      UpheldTransitive(sc, w, O.Step(sc, w, cs[0], o), O.Steps(sc, w, cs, o));
    }
  }

  lemma {:induction false} SweepUpholds(sc: Schema, w: WorldState, o: Owner, previous: seq<(TypeId, Entity)>)
    ensures Upheld(sc, w, O.Sweep(sc, w, o, previous))
    decreases |previous|
  {
    if previous != [] {
      var (t, e) := previous[0];
      var next := if Indexed(w, o, t, e) then w else M.RemoveDerivedEntry(sc, w, t, e, o);
      RemoveDerivedEntryUpholds(sc, w, t, e, o);
      SweepUpholds(sc, next, o, previous[1..]);
      UpheldTransitive(sc, w, next, O.Sweep(sc, w, o, previous));
    }
  }

  lemma ReplaceUpholds(sc: Schema, w: WorldState, cs: seq<O.Command>, o: Owner, previous: seq<(TypeId, Entity)>)
    requires O.LegalSteps(sc, O.Take(w, o), O.Reordered(sc, cs), o)
    ensures Upheld(sc, w, O.Replace(sc, w, cs, o, previous))
  {
    var taken := O.Take(w, o);
    var applied := O.ApplyBuffer(sc, taken, cs, o);
    SameStoresUphold(sc, w, taken);
    O.DeferralReorders(sc, taken, cs, o);
    StepsUphold(sc, taken, O.Reordered(sc, cs), o);
    UpheldTransitive(sc, w, taken, applied);
    SweepUpholds(sc, applied, o, previous);
    UpheldTransitive(sc, w, applied, O.Replace(sc, w, cs, o, previous));
  }

  lemma {:induction false} ReconcileKeepsHashed(sc: Schema, w: WorldState, writes: seq<(TypeId, Entity)>)
    requires Hashed(sc, w)
    ensures Hashed(sc, P.ReconcileAll(sc, w, writes))
    decreases |writes|
  {
    if writes != [] {
      var (t, e) := writes[0];
      var next := P.Reconcile(sc, w, t, e);
      forall v, f: Entity | sc.Kind(v).Inverse? && Has(next, v, f) ensures HashedEntry(sc, Lookup(next, v, f).value) {
        if (v, f) != (t, e) { assert Lookup(next, v, f) == Lookup(w, v, f); }
      }
      ReconcileKeepsHashed(sc, next, writes[1..]);
    }
  }

  // ---- over runs ----

  /** Nobody writes an inverse in place: it is the engine's. */
  predicate LeavesInverses(sc: Schema, op: Op) {
    (op.Poke? || op.Update?) ==> !sc.Kind(op.t).Inverse?
  }

  lemma OpKeepsHashed(sc: Schema, w: WorldState, op: Op)
    requires Hashed(sc, w) && Allowed(sc, w, op) && LeavesInverses(sc, op)
    ensures Hashed(sc, Apply(sc, w, op))
  {
    match op
    case Spawn => SameStoresUphold(sc, w, Apply(sc, w, op));
    case InsertBase(t, e, v) => InsertUpholds(sc, w, t, e, if t == sc.derivedFrom then O.Capture(sc, w, v) else v, None);
    case RemoveComponent(t, e) => RemoveComponentUpholds(sc, w, t, e, None);
    case RemoveEntity(e, order) => RemoveEntityUpholds(sc, w, e, order);
    case Replace(o, cs, previous) => ReplaceUpholds(sc, w, cs, o, previous);
    case Retract(o, outputs) =>
      SameStoresUphold(sc, w, O.Take(w, o));
      SweepUpholds(sc, O.Take(w, o), o, outputs);
      UpheldTransitive(sc, w, O.Take(w, o), Apply(sc, w, op));
    case Poke(t, e, v) => InPlaceUpholds(sc, w, t, e, v);
    case Reconcile(writes) => ReconcileKeepsHashed(sc, w, writes);
    case Update(t, e, v) => InPlaceUpholds(sc, w, t, e, v);
    case CompactLog => SameStoresUphold(sc, w, Apply(sc, w, op));
    case Drain => SameStoresUphold(sc, w, Apply(sc, w, op));
  }

  lemma InPlaceUpholds(sc: Schema, w: WorldState, t: TypeId, e: Entity, v: Value)
    requires !sc.Kind(t).Inverse?
    ensures Upheld(sc, w, P.Poke(w, t, e, v)) && Upheld(sc, w, P.Update(sc, w, t, e, v))
  {
    assert forall u, f: Entity :: u != t ==> Lookup(P.Poke(w, t, e, v), u, f) == Lookup(w, u, f);
    assert forall u, f: Entity :: u != t ==> Lookup(P.Update(sc, w, t, e, v), u, f) == Lookup(w, u, f);
  }

  /** Over every run in which nobody writes an inverse in place, every stored inverse carries its list's fingerprint. */
  lemma {:induction false} RunKeepsHashed(sc: Schema, states: seq<WorldState>, ops: seq<Op>, k: nat)
    requires Run(sc, states, ops) && k <= |ops| && forall m :: 0 <= m < k ==> LeavesInverses(sc, ops[m])
    ensures Hashed(sc, states[k])
  {
    if k > 0 {
      RunKeepsHashed(sc, states, ops, k - 1);
      OpKeepsHashed(sc, states[k - 1], ops[k - 1]);
    }
  }

  /**
   So a tracked inverse at an unmoved revision has the list it had, but for two lists of one fingerprint: the links that a
   plan from a cached snapshot, or from forced rows, takes for held are held unless fingerprints collide.
   */
  lemma UnmovedListIsHeld(sc: Schema, w: WorldState, w': WorldState, v: TypeId, e: Entity)
    requires Hashed(sc, w) && Hashed(sc, w') && Later(sc, w, w') && sc.Kind(v).Inverse? && sc.Tracked(v)
    requires Rev(w, v, e) == Rev(w', v, e)
    ensures Members(w, v, e) == Members(w', v, e)
            || (Has(w, v, e) && Has(w', v, e) && sc.memberHash(Members(w, v, e)) == sc.memberHash(Members(w', v, e)))
  {
    if Has(w, v, e) {
      assert HashedEntry(sc, Lookup(w, v, e).value) && HashedEntry(sc, Lookup(w', v, e).value);
      assert StampAt(w, v, e) == StampAt(w', v, e);
    }
  }
}
