/**
 Output replacement by diffing: an accepted run's commands are applied over the outputs its owner already has,
 then whatever the run did not emit again is swept.
 */
module Output {
  import opened Ids
  import opened Ascending
  import opened Presence
  import opened World
  import opened WorldLemmas
  import M = Mutators
  import R = Removal

  /**
   One buffered command. `order` is the order in which an entity removal happens to visit the stores; it is not
   part of the command, only of what the run did.
   */
  datatype Command =
    | Put(t: TypeId, e: Entity, v: Value)
    | Drop(t: TypeId, e: Entity)
    | Despawn(e: Entity, order: seq<TypeId>)

  /** Newest tracked revision attached to an entity. */
  function EntityRevision(sc: Schema, w: WorldState, e: Entity): Option<nat> {
    var revisions := set t | t in w.stores && sc.Tracked(t) && Has(w, t, e) :: Lookup(w, t, e).value.revision;
    if revisions == {} then None else Some(Sorted(revisions)[|Sorted(revisions)| - 1])
  }

  /** `DerivedFrom::capture`: every anchor takes the current revision of its entity. */
  function Capture(sc: Schema, w: WorldState, v: Value): Value {
    var anchors := seq(|v.anchors|, i requires 0 <= i < |v.anchors| =>
      Anchor(v.anchors[i].entity, EntityRevision(sc, w, v.anchors[i].entity)));
    v.(anchors := anchors, stamp := Some(sc.anchorHash(anchors)))
  }

  /** Effect of one command that is not deferred, or of one deferred anchor insert at the flush. */
  function Step(sc: Schema, w: WorldState, c: Command, o: Owner): WorldState {
    match c
    case Put(t, e, v) => M.Insert(sc, w, t, e, if t == sc.derivedFrom then Capture(sc, w, v) else v, Some(o))
    case Drop(t, e) => M.RemoveComponent(sc, w, t, e, Some(o))
    case Despawn(e, order) => R.RemoveEntity(sc, w, e, order)
  }

  function Steps(sc: Schema, w: WorldState, cs: seq<Command>, o: Owner): WorldState
    decreases |cs|
  {
    if cs == [] then w else Steps(sc, Step(sc, w, cs[0], o), cs[1..], o)
  }

  predicate Anchors(sc: Schema, c: Command) {
    c.Put? && c.t == sc.derivedFrom
  }

  /** The commands that apply at once, and the anchor inserts that wait for the end of the buffer. */
  function Immediate(sc: Schema, cs: seq<Command>): seq<Command> {
    if cs == [] then [] else (if Anchors(sc, cs[0]) then [] else [cs[0]]) + Immediate(sc, cs[1..])
  }

  function Deferred(sc: Schema, cs: seq<Command>): seq<Command> {
    if cs == [] then [] else (if Anchors(sc, cs[0]) then [cs[0]] else []) + Deferred(sc, cs[1..])
  }

  /** A buffer being applied: the world so far and the `DerivedFrom` inserts put aside. */
  datatype Applying = Applying(w: WorldState, pending: seq<Command>)

  function Apply(sc: Schema, a: Applying, cs: seq<Command>, o: Owner): Applying
    decreases |cs|
  {
    if cs == [] then a
    else if Anchors(sc, cs[0]) then Apply(sc, a.(pending := a.pending + [cs[0]]), cs[1..], o)
    else Apply(sc, a.(w := Step(sc, a.w, cs[0], o)), cs[1..], o)
  }

  /** The whole buffer, flushed. */
  function ApplyBuffer(sc: Schema, w: WorldState, cs: seq<Command>, o: Owner): WorldState {
    var applied := Apply(sc, Applying(w, []), cs, o);
    Steps(sc, applied.w, applied.pending, o)
  }

  function Reordered(sc: Schema, cs: seq<Command>): seq<Command> {
    Immediate(sc, cs) + Deferred(sc, cs)
  }

  lemma {:induction false} StepsAppend(sc: Schema, w: WorldState, a: seq<Command>, b: seq<Command>, o: Owner)
    ensures Steps(sc, w, a + b, o) == Steps(sc, Steps(sc, w, a, o), b, o)
    decreases |a|
  {
    if a == [] {
      assert a + b == b;
    } else {
      assert (a + b)[1..] == a[1..] + b;
      StepsAppend(sc, Step(sc, w, a[0], o), a[1..], b, o);
    }
  }

  lemma {:induction false} ApplySplits(sc: Schema, a: Applying, cs: seq<Command>, o: Owner)
    ensures Apply(sc, a, cs, o) == Applying(Steps(sc, a.w, Immediate(sc, cs), o), a.pending + Deferred(sc, cs))
    decreases |cs|
  {
    if cs == [] {
      assert a.pending + Deferred(sc, cs) == a.pending;
    } else if Anchors(sc, cs[0]) {
      ApplySplits(sc, a.(pending := a.pending + [cs[0]]), cs[1..], o);
      assert a.pending + [cs[0]] + Deferred(sc, cs[1..]) == a.pending + ([cs[0]] + Deferred(sc, cs[1..]));
      assert [] + Immediate(sc, cs[1..]) == Immediate(sc, cs[1..]);
    } else {
      var next := Step(sc, a.w, cs[0], o);
      ApplySplits(sc, a.(w := next), cs[1..], o);
      assert ([cs[0]] + Immediate(sc, cs[1..]))[1..] == Immediate(sc, cs[1..]);
      assert [] + Deferred(sc, cs[1..]) == Deferred(sc, cs[1..]);
    }
  }

  /** Deferring the anchor inserts is the same as moving them to the end of the buffer. */
  lemma DeferralReorders(sc: Schema, w: WorldState, cs: seq<Command>, o: Owner)
    ensures ApplyBuffer(sc, w, cs, o) == Steps(sc, w, Reordered(sc, cs), o)
  {
    ApplySplits(sc, Applying(w, []), cs, o);
    assert [] + Deferred(sc, cs) == Deferred(sc, cs);
    StepsAppend(sc, w, Immediate(sc, cs), Deferred(sc, cs), o);
  }

  // ---- anchors ----

  /** `is_current_revision`: it has anchors, and each still stands at its captured revision. */
  predicate IsCurrent(sc: Schema, w: WorldState, v: Value) {
    v.anchors != [] && forall i :: 0 <= i < |v.anchors| ==>
      v.anchors[i].revision.Some? && v.anchors[i].revision == EntityRevision(sc, w, v.anchors[i].entity)
  }

  /** It has anchors, and each anchored entity carries a tracked component. */
  predicate AnchorsLive(sc: Schema, w: WorldState, v: Value) {
    v.anchors != [] && forall i :: 0 <= i < |v.anchors| ==> EntityRevision(sc, w, v.anchors[i].entity).Some?
  }

  predicate AnchorsExact(sc: Schema, w: WorldState, v: Value) {
    forall i :: 0 <= i < |v.anchors| ==> v.anchors[i].revision == EntityRevision(sc, w, v.anchors[i].entity)
  }

  /** The stored `DerivedFrom` of `e` stands at the revisions of this very world, so only dead anchors retire it. */
  predicate AnchoredAt(sc: Schema, w: WorldState, e: Entity) {
    && Has(w, sc.derivedFrom, e)
    && AnchorsExact(sc, w, Lookup(w, sc.derivedFrom, e).value.value)
    && (IsCurrent(sc, w, Lookup(w, sc.derivedFrom, e).value.value)
        <==> AnchorsLive(sc, w, Lookup(w, sc.derivedFrom, e).value.value))
  }

  lemma AnchorInsertReads(sc: Schema, w: WorldState, e: Entity, v: Value, o: Owner)
    requires sc.Valid()
    ensures var w' := M.Insert(sc, w, sc.derivedFrom, e, v, Some(o));
      && (forall t :: t != sc.derivedFrom ==> StoreOf(w', t) == StoreOf(w, t))
      && (forall f: Entity :: EntityRevision(sc, w', f) == EntityRevision(sc, w, f))
  {
    var w' := M.Insert(sc, w, sc.derivedFrom, e, v, Some(o));
    assert w' == Write(sc, w, sc.derivedFrom, e, v, Some(o));
    forall f: Entity ensures EntityRevision(sc, w', f) == EntityRevision(sc, w, f) {
      assert (set t | t in w'.stores && sc.Tracked(t) && Has(w', t, f) :: Lookup(w', t, f).value.revision)
          == (set t | t in w.stores && sc.Tracked(t) && Has(w, t, f) :: Lookup(w, t, f).value.revision) by {
        assert forall t :: sc.Tracked(t) ==> StoreOf(w', t) == StoreOf(w, t) && (t in w'.stores <==> t in w.stores);
      }
    }
  }

  /**
   Whatever the buffer wrote before or after a `DerivedFrom` insert, the stored anchors are the revisions of the
   fully written world: a flush moves no entity revision, so none of its inserts makes another stale.
   */
  lemma {:induction false} FlushedAnchorsAreCurrent(sc: Schema, w: WorldState, pending: seq<Command>, o: Owner)
    requires sc.Valid() && (forall i :: 0 <= i < |pending| ==> Anchors(sc, pending[i]))
    ensures var w' := Steps(sc, w, pending, o);
      && (forall f: Entity :: EntityRevision(sc, w', f) == EntityRevision(sc, w, f))
      && (forall i :: 0 <= i < |pending| ==> AnchoredAt(sc, w', pending[i].e))
      && (forall f: Entity :: (forall i :: 0 <= i < |pending| ==> pending[i].e != f)
            ==> Lookup(w', sc.derivedFrom, f) == Lookup(w, sc.derivedFrom, f))
    decreases |pending|
  {
    if pending != [] {
      var c := pending[0];
      assert Anchors(sc, c);
      var next := Step(sc, w, c, o);
      var v := Capture(sc, w, c.v);
      AnchorInsertReads(sc, w, c.e, v, o);
      assert forall i :: 0 <= i < |pending[1..]| ==> pending[1..][i] == pending[i + 1];
      FlushedAnchorsAreCurrent(sc, next, pending[1..], o);
      var w' := Steps(sc, w, pending, o);
      assert next == Write(sc, w, sc.derivedFrom, c.e, v, Some(o));
      WriteReads(sc, w, sc.derivedFrom, c.e, v, Some(o));
      if i :| 0 <= i < |pending[1..]| && pending[1..][i].e == c.e {
        assert AnchoredAt(sc, w', pending[1..][i].e);
      } else {
        assert Lookup(w', sc.derivedFrom, c.e) == Lookup(next, sc.derivedFrom, c.e);
      }
      forall i | 0 <= i < |pending| ensures AnchoredAt(sc, w', pending[i].e) {
        if i > 0 { assert AnchoredAt(sc, w', pending[1..][i - 1].e); }
      }
      forall f: Entity | forall i :: 0 <= i < |pending| ==> pending[i].e != f
        ensures Lookup(w', sc.derivedFrom, f) == Lookup(w, sc.derivedFrom, f)
      {
        assert pending[0].e != f;
        forall i | 0 <= i < |pending[1..]| ensures pending[1..][i].e != f { assert pending[i + 1].e != f; }
      }
    }
  }

  // ---- taking, sweeping, replacing ----

  /** `take_derived_outputs`: the owner leaves the index while its entries still carry it. */
  function Take(w: WorldState, o: Owner): WorldState {
    w.(owners := w.owners - {o})
  }

  function Outputs(w: WorldState, o: Owner): set<(TypeId, Entity)> {
    if o in w.owners then w.owners[o] else {}
  }

  /** `remove_derived_stale` over the previous outputs, in the order the set is iterated. */
  function Sweep(sc: Schema, w: WorldState, o: Owner, previous: seq<(TypeId, Entity)>): WorldState
    decreases |previous|
  {
    if previous == [] then w
    else
      var (t, e) := previous[0];
      Sweep(sc, if Indexed(w, o, t, e) then w else M.RemoveDerivedEntry(sc, w, t, e, o), o, previous[1..])
  }

  /** One accepted output; `previous` lists the outputs taken, in iteration order. */
  function Replace(sc: Schema, w: WorldState, cs: seq<Command>, o: Owner, previous: seq<(TypeId, Entity)>): WorldState {
    Sweep(sc, ApplyBuffer(sc, Take(w, o), cs, o), o, previous)
  }

  ghost predicate Lists(xs: seq<(TypeId, Entity)>, s: set<(TypeId, Entity)>) {
    forall p :: p in xs <==> p in s
  }

  /** Commands never name an inverse component, and an entity removal visits every store there is. */
  ghost predicate Legal(sc: Schema, w: WorldState, c: Command) {
    match c
    case Put(t, _, _) => !sc.Kind(t).Inverse?
    case Drop(t, _) => !sc.Kind(t).Inverse?
    case Despawn(_, order) => R.Visits(w, order)
  }

  ghost predicate LegalSteps(sc: Schema, w: WorldState, cs: seq<Command>, o: Owner)
    decreases |cs|
  {
    cs == [] || (Legal(sc, w, cs[0]) && LegalSteps(sc, Step(sc, w, cs[0], o), cs[1..], o))
  }

  /** The pairs that are stored. */
  function Present(w: WorldState, pairs: set<(TypeId, Entity)>): set<(TypeId, Entity)> {
    set p | p in pairs && Has(w, p.0, p.1)
  }

  /**
   The reference: a pair is emitted when some command wrote it and it has been present ever since.
   It looks only at presence, never at owners or the ownership index.
   */
  ghost function Emitted(sc: Schema, w: WorldState, cs: seq<Command>, o: Owner, sofar: set<(TypeId, Entity)>)
    : set<(TypeId, Entity)>
    decreases |cs|
  {
    if cs == [] then sofar
    else
      var next := Step(sc, w, cs[0], o);
      var written := if cs[0].Put? then sofar + {(cs[0].t, cs[0].e)} else sofar;
      Emitted(sc, next, cs[1..], o, Present(next, written))
  }

  // ---- one command ----

  /** Everything a command of `o` keeps while the outputs in `loose` are out of the index. */
  ghost predicate Replacing(sc: Schema, w: WorldState, o: Owner, emitted: set<(TypeId, Entity)>, loose: Loose) {
    && Inv(sc, w, loose)
    && (forall t, e: Entity :: (t, e) in emitted <==> Indexed(w, o, t, e))
    && (forall t, e: Entity :: (o, t, e) in loose ==> !Indexed(w, o, t, e))
  }

  lemma PutStep(sc: Schema, w: WorldState, t: TypeId, e: Entity, v: Value, o: Owner,
                emitted: set<(TypeId, Entity)>, loose: Loose)
    requires Replacing(sc, w, o, emitted, loose) && !sc.Kind(t).Inverse?
    ensures var w' := M.Insert(sc, w, t, e, v, Some(o));
      && Replacing(sc, w', o, Present(w', emitted + {(t, e)}), loose - {(o, t, e)})
      && Evolves(sc, w, w')
      && (forall u, f: Entity :: !sc.Kind(u).Inverse? && (u, f) != (t, e) ==> Lookup(w', u, f) == Lookup(w, u, f))
      && OwnerAt(w', t, e) == Some(o)
  {
    var w' := M.Insert(sc, w, t, e, v, Some(o));
    M.InsertKeepsInv(sc, w, t, e, v, Some(o), loose);
    M.InsertReads(sc, w, t, e, v, Some(o), loose);
    InsertIndexes(sc, w, t, e, v, o, loose);
    forall u, f: Entity | OwnerAt(w', u, f).Some?
      ensures Indexed(w', OwnerAt(w', u, f).value, u, f) || (OwnerAt(w', u, f).value, u, f) in loose - {(o, t, e)}
    {
      assert Indexed(w', OwnerAt(w', u, f).value, u, f) || (OwnerAt(w', u, f).value, u, f) in loose;
    }
    forall u, f: Entity
      ensures (u, f) in emitted + {(t, e)} && Has(w', u, f) <==> Indexed(w', o, u, f)
    {
      assert Indexed(w', o, u, f) ==> OwnerAt(w', u, f) == Some(o);
      if (u, f) != (t, e) {
        assert Indexed(w', o, u, f) <==> Indexed(w, o, u, f);
        assert Indexed(w, o, u, f) ==> OwnerAt(w, u, f) == Some(o);
        if sc.Kind(u).Inverse? && Has(w, u, f) { assert OwnerAt(w, u, f).None?; }
      }
    }
  }

  /** `insert` by `o` adds exactly its own pair to `o`'s index. */
  lemma InsertIndexes(sc: Schema, w: WorldState, t: TypeId, e: Entity, v: Value, o: Owner, loose: Loose)
    requires Inv(sc, w, loose) && !sc.Kind(t).Inverse?
    ensures forall u, f: Entity :: Indexed(M.Insert(sc, w, t, e, v, Some(o)), o, u, f)
              <==> Indexed(w, o, u, f) || (u, f) == (t, e)
  {
    var written := Write(sc, w, t, e, v, Some(o));
    WriteSound(sc, w, t, e, v, Some(o), loose);
    WriteReads(sc, w, t, e, v, Some(o));
    RelinkKeepsOwners(sc, written, t, e, EdgeAt(sc, w, t, e), EdgeOf(sc, t, v), loose);
  }

  /** Inverses are unowned, so maintaining them never touches the ownership index. */
  lemma RelinkKeepsOwners(sc: Schema, w: WorldState, t: TypeId, e: Entity, before: Option<Entity>, after: Option<Entity>,
                          loose: Loose)
    requires Sound(sc, w, loose)
    ensures M.Relink(sc, w, t, e, before, after).owners == w.owners
  {
    if before != after && sc.Kind(t).Edge? {
      var v := sc.Kind(t).inverse;
      assert sc.Kind(v) == Inverse(t);
      if before.Some? {
        var x := before.value;
        assert Has(w, v, x) ==> OwnerAt(w, v, x).None?;
        M.RemoveMemberLinks(sc, w, v, e, x, loose);
      }
      var left := if before.Some? then RemoveMember(sc, w, v, e, before.value) else w;
      if after.Some? {
        assert Has(left, v, after.value) ==> OwnerAt(left, v, after.value).None?;
      }
    }
  }

  /** Removals only ever take pairs out of the ownership index. */
  ghost predicate IndexShrinks(w: WorldState, w': WorldState) {
    forall o, t, e: Entity :: Indexed(w', o, t, e) ==> Indexed(w, o, t, e)
  }

  lemma RemoveComponentShrinks(sc: Schema, w: WorldState, t: TypeId, e: Entity, remover: Option<Owner>, loose: Loose)
    requires Sound(sc, w, loose)
    ensures IndexShrinks(w, M.RemoveComponent(sc, w, t, e, remover))
  {
    if Has(w, t, e) {
      EraseComponentSound(sc, w, t, e, remover, loose);
      RelinkKeepsOwners(sc, EraseComponent(w, t, e, remover), t, e, EdgeAt(sc, w, t, e), None, loose);
    }
  }

  lemma {:induction false} DetachShrinks(sc: Schema, w: WorldState, e: Entity, edges: seq<(TypeId, Entity)>, loose: Loose)
    requires Sound(sc, w, loose)
    requires forall i :: 0 <= i < |edges| ==> sc.Kind(edges[i].0).Inverse?
    ensures R.Detach(sc, w, e, edges).owners == w.owners
    decreases |edges|
  {
    if edges != [] {
      var (v, x) := edges[0];
      assert Has(w, v, x) ==> OwnerAt(w, v, x).None?;
      M.RemoveMemberLinks(sc, w, v, e, x, loose);
      DetachShrinks(sc, RemoveMember(sc, w, v, e, x), e, edges[1..], loose);
    }
  }

  lemma {:induction false} RetractShrinks(sc: Schema, w: WorldState, e: Entity, rs: seq<(TypeId, Entity)>, loose: Loose)
    requires Sound(sc, w, loose) && R.Awaiting(sc, w, e, rs)
    requires forall i :: 0 <= i < |rs| ==> sc.Kind(rs[i].0).Edge?
    ensures IndexShrinks(w, R.Retract(sc, w, rs))
    decreases |rs|
  {
    if rs != [] {
      var k, s := rs[0].0, rs[0].1;
      assert rs == [(k, s)] + rs[1..];
      RemoveComponentShrinks(sc, w, k, s, None, loose);
      R.RetractOne(sc, w, e, k, s, rs[1..], loose);
      RetractShrinks(sc, M.RemoveComponent(sc, w, k, s, None), e, rs[1..], loose);
    }
  }

  lemma RemoveEntityShrinks(sc: Schema, w: WorldState, e: Entity, order: seq<TypeId>, loose: Loose)
    requires Inv(sc, w, loose) && R.Visits(w, order)
    ensures IndexShrinks(w, R.RemoveEntity(sc, w, e, order))
  {
    var c := R.Cleared(w, e, order);
    R.ClearedSound(sc, w, e, order, loose);
    assert NoneEmpty(w.owners);
    R.DisownAllIs(w.owners, w, e, order);
    assert forall o, t, f: Entity :: Indexed(c, o, t, f) == Listed(c.owners, o, t, f) && Indexed(w, o, t, f) == Listed(w.owners, o, t, f);
    assert IndexShrinks(w, c);
    R.EdgesAreInverses(sc, w, e, order);
    DetachShrinks(sc, c, e, R.EdgesOf(sc, w, e, order), loose);
    R.DetachedState(sc, w, e, order, loose);
    R.RetractionsAreEdges(sc, w, e, order);
    var d := R.Detach(sc, c, e, R.EdgesOf(sc, w, e, order));
    RetractShrinks(sc, d, e, R.RetractionsOf(sc, w, e, order), loose);
    var r := R.RemoveEntity(sc, w, e, order);
    forall o, t, f: Entity ensures Indexed(r, o, t, f) ==> Indexed(w, o, t, f) {
      assert Indexed(r, o, t, f) ==> Indexed(R.Retract(sc, d, R.RetractionsOf(sc, w, e, order)), o, t, f);
      assert Indexed(d, o, t, f) ==> Indexed(c, o, t, f);
    }
  }

  /** A removal changes no surviving ordinary entry, so what is left of the index follows presence. */
  lemma SurvivorsStayIndexed(sc: Schema, w: WorldState, w': WorldState, o: Owner, emitted: set<(TypeId, Entity)>, loose: Loose)
    requires Replacing(sc, w, o, emitted, loose) && Inv(sc, w', loose) && IndexShrinks(w, w')
    requires forall t, e: Entity :: !sc.Kind(t).Inverse? && Has(w', t, e) ==> Lookup(w', t, e) == Lookup(w, t, e)
    ensures Replacing(sc, w', o, Present(w', emitted), loose)
  {
    forall t, e: Entity
      ensures (t, e) in Present(w', emitted) <==> Indexed(w', o, t, e)
    {
      assert Indexed(w, o, t, e) ==> OwnerAt(w, t, e) == Some(o);
      assert Indexed(w', o, t, e) ==> OwnerAt(w', t, e) == Some(o) && Indexed(w, o, t, e);
      if Has(w, t, e) && sc.Kind(t).Inverse? { assert OwnerAt(w, t, e).None?; }
      if (t, e) in emitted && Has(w', t, e) {
        assert OwnerAt(w', t, e) == Some(o);
        assert Indexed(w', o, t, e) || (o, t, e) in loose;
      }
    }
  }

  /** One command: the index of `o` keeps following what has been emitted. */
  lemma StepReplaces(sc: Schema, w: WorldState, c: Command, o: Owner, emitted: set<(TypeId, Entity)>, loose: Loose)
    requires Replacing(sc, w, o, emitted, loose) && Legal(sc, w, c)
    ensures var w' := Step(sc, w, c, o);
      var loose' := if c.Put? then loose - {(o, c.t, c.e)} else loose;
      && Replacing(sc, w', o, Present(w', if c.Put? then emitted + {(c.t, c.e)} else emitted), loose')
      && Evolves(sc, w, w')
  {
    match c
    case Put(t, e, v) =>
      PutStep(sc, w, t, e, if t == sc.derivedFrom then Capture(sc, w, v) else v, o, emitted, loose);
    case Drop(t, e) =>
      M.RemoveComponentKeepsInv(sc, w, t, e, Some(o), loose);
      RemoveComponentShrinks(sc, w, t, e, Some(o), loose);
      SurvivorsStayIndexed(sc, w, M.RemoveComponent(sc, w, t, e, Some(o)), o, emitted, loose);
    case Despawn(e, order) =>
      R.RemoveEntityKeepsInv(sc, w, e, order, loose);
      RemoveEntityShrinks(sc, w, e, order, loose);
      SurvivorsStayIndexed(sc, w, R.RemoveEntity(sc, w, e, order), o, emitted, loose);
  }

  lemma {:induction false} StepsReplace(sc: Schema, w: WorldState, cs: seq<Command>, o: Owner,
                                        emitted: set<(TypeId, Entity)>, loose: Loose) returns (left: Loose)
    requires Replacing(sc, w, o, emitted, loose) && LegalSteps(sc, w, cs, o)
    ensures left <= loose
    ensures var w' := Steps(sc, w, cs, o);
      Replacing(sc, w', o, Emitted(sc, w, cs, o, emitted), left) && Evolves(sc, w, w')
    decreases |cs|
  {
    left := loose;
    EvolvesReflexive(sc, w);
    if cs != [] {
      var next := Step(sc, w, cs[0], o);
      StepReplaces(sc, w, cs[0], o, emitted, loose);
      var written := if cs[0].Put? then emitted + {(cs[0].t, cs[0].e)} else emitted;
      left := StepsReplace(sc, next, cs[1..], o, Present(next, written),
                           if cs[0].Put? then loose - {(o, cs[0].t, cs[0].e)} else loose);
      EvolvesTransitive(sc, w, next, Steps(sc, w, cs, o));
    }
  }

  // ---- take and sweep ----

  lemma TakeLoosens(sc: Schema, w: WorldState, o: Owner)
    requires Inv(sc, w, {})
    ensures Replacing(sc, Take(w, o), o, {}, set p | p in Outputs(w, o) :: (o, p.0, p.1))
    ensures Evolves(sc, w, Take(w, o))
  {
    var w' := Take(w, o);
    var loose := set p | p in Outputs(w, o) :: (o, p.0, p.1);
    EvolvesReflexive(sc, w);
    BookkeepingEvolves(sc, w, w, w');
    StoresDecide(sc, w, w');
    assert forall t, e: Entity :: Lookup(w', t, e) == Lookup(w, t, e);
    forall p, t, e: Entity ensures Indexed(w', p, t, e) ==> OwnerAt(w', t, e) == Some(p) {
      assert Indexed(w, p, t, e) ==> OwnerAt(w, t, e) == Some(p);
    }
    forall t, e: Entity | OwnerAt(w', t, e).Some?
      ensures Indexed(w', OwnerAt(w', t, e).value, t, e) || (OwnerAt(w', t, e).value, t, e) in loose
    {
      assert Indexed(w, OwnerAt(w, t, e).value, t, e);
      if OwnerAt(w, t, e).value == o { assert (t, e) in Outputs(w, o); }
    }
  }

  lemma {:induction false} SweepClears(sc: Schema, w: WorldState, o: Owner, previous: seq<(TypeId, Entity)>,
                                       emitted: set<(TypeId, Entity)>, loose: Loose)
    requires Replacing(sc, w, o, emitted, loose)
    requires forall i :: 0 <= i < |previous| ==> !sc.Kind(previous[i].0).Inverse?
    requires forall x :: x in loose ==> x.0 == o && (x.1, x.2) in previous
    ensures var w' := Sweep(sc, w, o, previous);
      && Inv(sc, w', {}) && Evolves(sc, w, w')
      && (forall t, e: Entity :: (t, e) in emitted <==> Indexed(w', o, t, e))
      && (forall t, e: Entity :: !sc.Kind(t).Inverse? && ((t, e) !in previous || OwnerAt(w, t, e) != Some(o))
            ==> Lookup(w', t, e) == Lookup(w, t, e))
    decreases |previous|
  {
    EvolvesReflexive(sc, w);
    if previous == [] {
      assert loose == {} by { assert forall x :: x !in loose; }
    } else {
      var (t, e) := previous[0];
      assert !sc.Kind(previous[0].0).Inverse?;
      var next := if Indexed(w, o, t, e) then w else M.RemoveDerivedEntry(sc, w, t, e, o);
      if !Indexed(w, o, t, e) {
        M.RemoveDerivedEntryKeepsInv(sc, w, t, e, o, loose);
        RemoveDerivedKeepsOwners(sc, w, t, e, o, loose);
        EvolvesTransitive(sc, w, next, next) by { EvolvesReflexive(sc, next); }
      }
      var left := loose - {(o, t, e)};
      assert Replacing(sc, next, o, emitted, left);
      assert forall i :: 0 <= i < |previous[1..]| ==> previous[1..][i] == previous[i + 1];
      forall x | x in left ensures x.0 == o && (x.1, x.2) in previous[1..] {
        assert (x.1, x.2) in previous && (x.1, x.2) != previous[0];
      }
      SweepClears(sc, next, o, previous[1..], emitted, left);
      EvolvesTransitive(sc, w, next, Sweep(sc, w, o, previous));
    }
  }

  lemma RemoveDerivedKeepsOwners(sc: Schema, w: WorldState, t: TypeId, e: Entity, o: Owner, loose: Loose)
    requires Inv(sc, w, loose) && !Indexed(w, o, t, e)
    ensures M.RemoveDerivedEntry(sc, w, t, e, o).owners == w.owners
  {
    if OwnerAt(w, t, e) == Some(o) {
      assert forall p :: !Indexed(w, p, t, e) by {
        forall p ensures !Indexed(w, p, t, e) { assert Indexed(w, p, t, e) ==> OwnerAt(w, t, e) == Some(p); }
      }
      EraseSound(sc, w, t, e, loose);
      RelinkKeepsOwners(sc, Erase(w, t, e), t, e, EdgeAt(sc, w, t, e), None, loose);
    }
  }

  // ---- one accepted output ----

  lemma OutputsAreOrdinary(sc: Schema, w: WorldState, o: Owner, previous: seq<(TypeId, Entity)>)
    requires Inv(sc, w, {}) && Lists(previous, Outputs(w, o))
    ensures forall i :: 0 <= i < |previous| ==> !sc.Kind(previous[i].0).Inverse?
  {
    forall i | 0 <= i < |previous| ensures !sc.Kind(previous[i].0).Inverse? {
      var (t, e) := previous[i];
      assert (t, e) in previous;
      assert Indexed(w, o, t, e);
      assert OwnerAt(w, t, e) == Some(o) && Has(w, t, e);
    }
  }

  /**
   After one accepted output of `o`, the entries owned by `o` are exactly the pairs its buffer wrote and that stayed
   present to the end of the buffer. All it owned before and did not emit again is gone or owned by another. The
   whole invariant, ownership index included, is back.
   */
  lemma ReplaceOwnsEmitted(sc: Schema, w: WorldState, cs: seq<Command>, o: Owner, previous: seq<(TypeId, Entity)>)
    requires Inv(sc, w, {}) && Lists(previous, Outputs(w, o))
    requires LegalSteps(sc, Take(w, o), Reordered(sc, cs), o)
    ensures var w' := Replace(sc, w, cs, o, previous);
      var emitted := Emitted(sc, Take(w, o), Reordered(sc, cs), o, {});
      && Inv(sc, w', {}) && Evolves(sc, w, w')
      && (forall t, e: Entity :: OwnerAt(w', t, e) == Some(o) <==> (t, e) in emitted)
      && Outputs(w', o) == emitted
      && (forall t, e: Entity :: OwnerAt(w, t, e) == Some(o) && (t, e) !in emitted ==> OwnerAt(w', t, e) != Some(o))
  {
    var taken := Take(w, o);
    var loose := set p | p in Outputs(w, o) :: (o, p.0, p.1);
    TakeLoosens(sc, w, o);
    DeferralReorders(sc, taken, cs, o);
    var applied := ApplyBuffer(sc, taken, cs, o);
    var left := StepsReplace(sc, taken, Reordered(sc, cs), o, {}, loose);
    EvolvesTransitive(sc, w, taken, applied);
    OutputsAreOrdinary(sc, w, o, previous);
    var emitted := Emitted(sc, taken, Reordered(sc, cs), o, {});
    forall x | x in left ensures x.0 == o && (x.1, x.2) in previous {
      assert x in loose;
      var p :| p in Outputs(w, o) && x == (o, p.0, p.1);
      assert p == (x.1, x.2);
    }
    SweepClears(sc, applied, o, previous, emitted, left);
    var w' := Replace(sc, w, cs, o, previous);
    EvolvesTransitive(sc, w, applied, w');
    forall t, e: Entity ensures OwnerAt(w', t, e) == Some(o) <==> (t, e) in emitted {
      assert Indexed(w', o, t, e) ==> OwnerAt(w', t, e) == Some(o);
    }
    OutputsAre(w', o, emitted);
  }

  lemma OutputsAre(w: WorldState, o: Owner, emitted: set<(TypeId, Entity)>)
    requires forall t, e: Entity :: (t, e) in emitted <==> Indexed(w, o, t, e)
    ensures Outputs(w, o) == emitted
  {
    forall p: (TypeId, Entity) ensures p in Outputs(w, o) <==> p in emitted {
      assert p == (p.0, p.1);
      assert (p.0, p.1) in emitted <==> Indexed(w, o, p.0, p.1);
    }
  }

  /** A command that writes again what is there: same stamp, same edge, tracked, already owned by `o`. */
  ghost predicate ReEmits(sc: Schema, w: WorldState, c: Command, o: Owner) {
    && c.Put? && sc.Tracked(c.t) && !sc.Kind(c.t).Inverse?
    && OwnerAt(w, c.t, c.e) == Some(o)
    && StampKept(w, c.t, c.e, c.v)
    && EdgeAt(sc, w, c.t, c.e) == EdgeOf(sc, c.t, c.v)
  }

  lemma ReEmitStep(sc: Schema, w: WorldState, c: Command, o: Owner, loose: Loose)
    requires Inv(sc, w, loose) && ReEmits(sc, w, c, o)
    ensures var w' := Step(sc, w, c, o);
      && Inv(sc, w', loose)
      && w'.revision == w.revision && w'.mutations == w.mutations
      && (forall d :: ReEmits(sc, w, d, o) ==> ReEmits(sc, w', d, o))
      && (forall t, e: Entity :: Indexed(w', o, t, e) <==> Indexed(w, o, t, e) || (t, e) == (c.t, c.e))
  {
    M.InsertKeepsInv(sc, w, c.t, c.e, c.v, Some(o), loose);
    InsertIndexes(sc, w, c.t, c.e, c.v, o, loose);
    var w' := Step(sc, w, c, o);
    assert w' == Write(sc, w, c.t, c.e, c.v, Some(o));
    WriteReads(sc, w, c.t, c.e, c.v, Some(o));
    forall d | ReEmits(sc, w, d, o) ensures ReEmits(sc, w', d, o) {
      if (d.t, d.e) != (c.t, c.e) { assert Lookup(w', d.t, d.e) == Lookup(w, d.t, d.e); }
    }
  }

  lemma {:induction false} ReEmitSteps(sc: Schema, w: WorldState, cs: seq<Command>, o: Owner, loose: Loose)
    requires Inv(sc, w, loose) && forall i :: 0 <= i < |cs| ==> ReEmits(sc, w, cs[i], o)
    ensures var w' := Steps(sc, w, cs, o);
      && w'.revision == w.revision && w'.mutations == w.mutations
      && (forall t, e: Entity :: Indexed(w, o, t, e) ==> Indexed(w', o, t, e))
      && (forall i :: 0 <= i < |cs| ==> cs[i].Put? && Indexed(w', o, cs[i].t, cs[i].e))
    decreases |cs|
  {
    if cs != [] {
      var c := cs[0];
      ReEmitStep(sc, w, c, o, loose);
      var next := Step(sc, w, c, o);
      forall i | 0 <= i < |cs[1..]| ensures ReEmits(sc, next, cs[1..][i], o) { assert ReEmits(sc, w, cs[i + 1], o); }
      ReEmitSteps(sc, next, cs[1..], o, loose);
      var w' := Steps(sc, w, cs, o);
      forall i | 0 <= i < |cs| ensures cs[i].Put? && Indexed(w', o, cs[i].t, cs[i].e) {
        assert ReEmits(sc, w, cs[i], o);
        if i > 0 { assert Indexed(w', o, cs[1..][i - 1].t, cs[1..][i - 1].e); }
      }
    }
  }

  lemma {:induction false} SweepNothing(sc: Schema, w: WorldState, o: Owner, previous: seq<(TypeId, Entity)>)
    requires forall i :: 0 <= i < |previous| ==> Indexed(w, o, previous[i].0, previous[i].1)
    ensures Sweep(sc, w, o, previous) == w
    decreases |previous|
  {
    if previous != [] {
      assert forall i :: 0 <= i < |previous[1..]| ==> previous[1..][i] == previous[i + 1];
      SweepNothing(sc, w, o, previous[1..]);
    }
  }

  lemma {:induction false} NoAnchorsNothingDeferred(sc: Schema, cs: seq<Command>)
    requires forall i :: 0 <= i < |cs| ==> !Anchors(sc, cs[i])
    ensures Reordered(sc, cs) == cs
  {
    if cs != [] {
      assert forall i :: 0 <= i < |cs[1..]| ==> cs[1..][i] == cs[i + 1];
      NoAnchorsNothingDeferred(sc, cs[1..]);
      assert Immediate(sc, cs) == [cs[0]] + Immediate(sc, cs[1..]);
      assert Deferred(sc, cs) == Deferred(sc, cs[1..]);
      assert Reordered(sc, cs) == [cs[0]] + Reordered(sc, cs[1..]);
    }
  }

  /** A rerun that emits equal stamps for everything it owns moves no revision, watermark or counter. */
  lemma IdempotentRerunIsQuiet(sc: Schema, w: WorldState, cs: seq<Command>, o: Owner, previous: seq<(TypeId, Entity)>)
    requires Inv(sc, w, {}) && Lists(previous, Outputs(w, o))
    requires forall i :: 0 <= i < |cs| ==> ReEmits(sc, w, cs[i], o)
    requires forall p :: p in Outputs(w, o) ==> exists i :: 0 <= i < |cs| && cs[i].Put? && (cs[i].t, cs[i].e) == p
    ensures var w' := Replace(sc, w, cs, o, previous);
      && w'.revision == w.revision && w'.mutations == w.mutations
      && SameObservations(w, w')
  {
    var taken := Take(w, o);
    var loose := set p | p in Outputs(w, o) :: (o, p.0, p.1);
    TakeLoosens(sc, w, o);
    assert forall t, e: Entity :: Lookup(taken, t, e) == Lookup(w, t, e);
    forall i | 0 <= i < |cs| ensures ReEmits(sc, taken, cs[i], o) && !Anchors(sc, cs[i]) { assert ReEmits(sc, w, cs[i], o); }
    NoAnchorsNothingDeferred(sc, cs);
    DeferralReorders(sc, taken, cs, o);
    ReEmitSteps(sc, taken, cs, o, loose);
    var applied := Steps(sc, taken, cs, o);
    forall i | 0 <= i < |previous| ensures Indexed(applied, o, previous[i].0, previous[i].1) {
      assert previous[i] in Outputs(w, o);
      var j :| 0 <= j < |cs| && cs[j].Put? && (cs[j].t, cs[j].e) == previous[i];
    }
    SweepNothing(sc, applied, o, previous);
    QuietIsLegal(sc, taken, cs, o, loose);
    ReplaceOwnsEmitted(sc, w, cs, o, previous);
  }

  lemma {:induction false} QuietIsLegal(sc: Schema, w: WorldState, cs: seq<Command>, o: Owner, loose: Loose)
    requires Inv(sc, w, loose) && forall i :: 0 <= i < |cs| ==> ReEmits(sc, w, cs[i], o)
    ensures LegalSteps(sc, w, cs, o)
    decreases |cs|
  {
    if cs != [] {
      assert ReEmits(sc, w, cs[0], o);
      ReEmitStep(sc, w, cs[0], o, loose);
      var next := Step(sc, w, cs[0], o);
      forall i | 0 <= i < |cs[1..]| ensures ReEmits(sc, next, cs[1..][i], o) { assert ReEmits(sc, w, cs[i + 1], o); }
      QuietIsLegal(sc, next, cs[1..], o, loose);
    }
  }

  /**
   The converse for one write: an untracked write, or one whose stamp is missing or new, always moves the world.
   In particular every `DerivedFrom` output does, however equal its anchors.
   */
  lemma NovelWriteMoves(sc: Schema, w: WorldState, c: Command, o: Owner, loose: Loose)
    requires Inv(sc, w, loose) && c.Put? && !sc.Kind(c.t).Inverse?
    requires !sc.Tracked(c.t) || !StampKept(w, c.t, c.e, c.v)
    ensures Step(sc, w, c, o).revision > w.revision
  {
    var v := if c.t == sc.derivedFrom then Capture(sc, w, c.v) else c.v;
    var written := Write(sc, w, c.t, c.e, v, Some(o));
    WriteSound(sc, w, c.t, c.e, v, Some(o), loose);
    M.InsertKeepsInv(sc, w, c.t, c.e, v, Some(o), loose);
    InsertAfterWrite(sc, w, c.t, c.e, v, o, loose);
  }

  lemma InsertAfterWrite(sc: Schema, w: WorldState, t: TypeId, e: Entity, v: Value, o: Owner, loose: Loose)
    requires Inv(sc, w, loose) && !sc.Kind(t).Inverse?
    ensures M.Insert(sc, w, t, e, v, Some(o)).revision >= Write(sc, w, t, e, v, Some(o)).revision
  {
    var written := Write(sc, w, t, e, v, Some(o));
    WriteSound(sc, w, t, e, v, Some(o), loose);
    if EdgeAt(sc, w, t, e) != EdgeOf(sc, t, v) && sc.Kind(t).Edge? {
      M.RelinkLinks(sc, written, t, e, EdgeAt(sc, w, t, e), EdgeOf(sc, t, v), loose);
    }
  }
}
