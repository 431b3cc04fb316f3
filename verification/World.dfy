/**
 The world store as a value: typed stores with a fingerprint index and a watermark, presence bits, the
 derived-output ownership index, the write log, and relationship inverses kept by the engine.

 Each function here is the meaning of one mutator; `WorldStore.World` is the object that carries them out.
 */
module World {
  import opened Ids
  import opened Ascending
  import opened Presence

  /** What the engine knows of a component type's role in a relationship. */
  datatype Kind = Plain | Edge(inverse: TypeId) | Inverse(edge: TypeId)

  /** One captured anchor of a `DerivedFrom` value. */
  datatype Anchor = Anchor(entity: Entity, revision: Option<nat>)

  /**
   The static facts about component types. `memberHash` and `anchorHash` stand for the fingerprints a maintained
   inverse computes over its member list and a `DerivedFrom` value over its anchors.
   */
  datatype Schema = Schema(
    kinds: map<TypeId, Kind>,
    untracked: set<TypeId>,
    derivedFrom: TypeId,
    memberHash: seq<Entity> -> Stamp,
    anchorHash: seq<Anchor> -> Stamp)
  {
    function Kind(t: TypeId): Kind {
      if t in kinds then kinds[t] else Plain
    }

    predicate Tracked(t: TypeId) {
      t !in untracked
    }

    /** Edge and inverse types come in pairs, and `DerivedFrom` is an untracked ordinary component. */
    ghost predicate Valid() {
      && (forall t :: t in kinds && kinds[t].Edge? ==> Kind(kinds[t].inverse) == Inverse(t))
      && (forall t :: t in kinds && kinds[t].Inverse? ==> Kind(kinds[t].edge) == Edge(t))
      && Kind(derivedFrom) == Plain
      && !Tracked(derivedFrom)
    }
  }

  /** What the engine reads off a component value; everything else about it is `payload`. */
  datatype Value = Value(
    payload: int, stamp: Option<Stamp>, target: Option<Entity>, members: seq<Entity>, anchors: seq<Anchor>)

  /** A stored component. `stamp` is the stamp of the last write or reconcile, not of the shared cell. */
  datatype Entry = Entry(value: Value, stamp: Option<Stamp>, revision: nat, owner: Option<Owner>)

  datatype Store = Store(entries: map<Entity, Entry>, index: map<Stamp, set<Entity>>, watermark: nat)

  const NO_STORE := Store(map[], map[], 0)

  datatype WorldState = WorldState(
    next: Entity,
    revision: nat,
    mutations: nat,
    stores: map<TypeId, Store>,
    presence: Option<PresenceIndex>,
    owners: map<Owner, set<(TypeId, Entity)>>,
    log: seq<(TypeId, Entity)>,
    epoch: nat,
    removedEntities: seq<Entity>,
    removedOwners: seq<Owner>,
    removedComponentOwners: seq<Owner>)

  // ---- reading ----

  function StoreOf(w: WorldState, t: TypeId): Store {
    if t in w.stores then w.stores[t] else NO_STORE
  }

  function Lookup(w: WorldState, t: TypeId, e: Entity): Option<Entry> {
    if e in StoreOf(w, t).entries then Some(StoreOf(w, t).entries[e]) else None
  }

  predicate Has(w: WorldState, t: TypeId, e: Entity) {
    Lookup(w, t, e).Some?
  }

  function Rev(w: WorldState, t: TypeId, e: Entity): Option<nat> {
    if Has(w, t, e) then Some(Lookup(w, t, e).value.revision) else None
  }

  function StampAt(w: WorldState, t: TypeId, e: Entity): Option<Stamp> {
    if Has(w, t, e) then Lookup(w, t, e).value.stamp else None
  }

  function OwnerAt(w: WorldState, t: TypeId, e: Entity): Option<Owner> {
    if Has(w, t, e) then Lookup(w, t, e).value.owner else None
  }

  /** Highest revision at which the store for `t` changed; zero for an absent store. */
  function Mark(w: WorldState, t: TypeId): nat {
    StoreOf(w, t).watermark
  }

  /** Entities whose stored stamp of `t` is `s`. */
  function Bucket(w: WorldState, t: TypeId, s: Stamp): set<Entity> {
    if s in StoreOf(w, t).index then StoreOf(w, t).index[s] else {}
  }

  function Members(w: WorldState, t: TypeId, e: Entity): seq<Entity> {
    if Has(w, t, e) then Lookup(w, t, e).value.value.members else []
  }

  /** The target of the edge a value carries, when its type is an edge at all. */
  function EdgeOf(sc: Schema, t: TypeId, v: Value): Option<Entity> {
    if sc.Kind(t).Edge? then v.target else None
  }

  function EdgeAt(sc: Schema, w: WorldState, t: TypeId, e: Entity): Option<Entity> {
    if Has(w, t, e) then EdgeOf(sc, t, Lookup(w, t, e).value.value) else None
  }

  predicate Indexed(w: WorldState, o: Owner, t: TypeId, e: Entity) {
    o in w.owners && (t, e) in w.owners[o]
  }

  // ---- index upkeep ----

  function IndexStamp(index: map<Stamp, set<Entity>>, e: Entity, s: Option<Stamp>): map<Stamp, set<Entity>> {
    if s.None? then index
    else index[s.value := (if s.value in index then index[s.value] else {}) + {e}]
  }

  function UnindexStamp(index: map<Stamp, set<Entity>>, e: Entity, s: Option<Stamp>): map<Stamp, set<Entity>> {
    if s.None? || s.value !in index then index
    else
      var rest := index[s.value] - {e};
      if rest == {} then index - {s.value} else index[s.value := rest]
  }

  function Restamp(index: map<Stamp, set<Entity>>, e: Entity, before: Option<Stamp>, after: Option<Stamp>)
    : map<Stamp, set<Entity>>
  {
    if before == after then index else IndexStamp(UnindexStamp(index, e, before), e, after)
  }

  function Own(owners: map<Owner, set<(TypeId, Entity)>>, o: Owner, t: TypeId, e: Entity)
    : map<Owner, set<(TypeId, Entity)>>
  {
    owners[o := (if o in owners then owners[o] else {}) + {(t, e)}]
  }

  function Disown(owners: map<Owner, set<(TypeId, Entity)>>, o: Owner, t: TypeId, e: Entity)
    : map<Owner, set<(TypeId, Entity)>>
  {
    if o !in owners then owners
    else
      var rest := owners[o] - {(t, e)};
      if rest == {} then owners - {o} else owners[o := rest]
  }

  function SetBit(p: Option<PresenceIndex>, t: TypeId, e: Entity, present: bool): Option<PresenceIndex>
  {
    if p.Some? then Some(p.value.Set(t, e, present)) else None
  }

  function ClearBits(p: Option<PresenceIndex>, e: Entity): Option<PresenceIndex>
  {
    if p.Some? then Some(p.value.ClearEntity(e)) else None
  }

  // ---- mutators ----

  /** A write keeps its old revision exactly when the type is tracked and the stamps are present and equal. */
  predicate StampKept(w: WorldState, t: TypeId, e: Entity, v: Value) {
    StampAt(w, t, e).Some? && StampAt(w, t, e) == v.stamp
  }

  /** The store, index, counter and log part of `insert`, before relationship upkeep. */
  function Write(sc: Schema, w: WorldState, t: TypeId, e: Entity, v: Value, owner: Option<Owner>): WorldState
  {
    var st := StoreOf(w, t);
    var kept := StampKept(w, t, e, v);
    var revision := if sc.Tracked(t) && kept then w.revision else w.revision + 1;
    var at := if sc.Tracked(t) && kept then st.entries[e].revision else revision;
    var index := if Has(w, t, e) then Restamp(st.index, e, st.entries[e].stamp, v.stamp)
                 else IndexStamp(st.index, e, v.stamp);
    var previous := OwnerAt(w, t, e);
    var released := if previous.Some? && previous != owner then Disown(w.owners, previous.value, t, e) else w.owners;
    w.(revision := revision,
       mutations := if kept then w.mutations else w.mutations + 1,
       presence := SetBit(w.presence, t, e, true),
       log := w.log + [(t, e)],
       stores := w.stores[t := Store(st.entries[e := Entry(v, v.stamp, at, owner)], index, Max(st.watermark, at))],
       owners := if owner.Some? then Own(released, owner.value, t, e) else released)
  }

  /** Drops one entry: store, index, presence bit, counters, watermark and log. Ownership is the caller's. */
  function Erase(w: WorldState, t: TypeId, e: Entity): WorldState
    requires Has(w, t, e)
  {
    var st := StoreOf(w, t);
    w.(revision := w.revision + 1,
       mutations := w.mutations + 1,
       presence := SetBit(w.presence, t, e, false),
       log := w.log + [(t, e)],
       stores := w.stores[t := Store(st.entries - {e}, UnindexStamp(st.index, e, st.entries[e].stamp),
                                     Max(st.watermark, w.revision + 1))])
  }

  /** `Erase` plus the ownership bookkeeping of `remove_component`. */
  function EraseComponent(w: WorldState, t: TypeId, e: Entity, remover: Option<Owner>): WorldState
    requires Has(w, t, e)
  {
    var owner := OwnerAt(w, t, e);
    var erased := Erase(w, t, e);
    if owner.None? then erased
    else erased.(
      owners := Disown(erased.owners, owner.value, t, e),
      removedComponentOwners := if remover == owner then erased.removedComponentOwners
                                else erased.removedComponentOwners + [owner.value])
  }

  function InverseValue(sc: Schema, members: seq<Entity>): Value {
    Value(0, Some(sc.memberHash(members)), None, members, [])
  }

  /** `relationship_add_member`: idempotent sorted insertion, written as an unowned base fact. */
  function AddMember(sc: Schema, w: WorldState, v: TypeId, source: Entity, target: Entity): WorldState
  {
    if source in Members(w, v, target) then w
    else Write(sc, w, v, target, InverseValue(sc, InsertSorted(Members(w, v, target), source)), None)
  }

  /** `relationship_remove_member`: an emptied inverse is removed outright, a missing one is tolerated. */
  function RemoveMember(sc: Schema, w: WorldState, v: TypeId, source: Entity, target: Entity): WorldState
  {
    if source !in Members(w, v, target) then w
    else
      var rest := RemoveSorted(Members(w, v, target), source);
      if rest == [] then EraseComponent(w, v, target, None)
      else Write(sc, w, v, target, InverseValue(sc, rest), None)
  }

  // ---- the representation invariant ----

  ghost predicate IndexExact(w: WorldState) {
    && (forall t, s, e: Entity :: e in Bucket(w, t, s) <==> Has(w, t, e) && StampAt(w, t, e) == Some(s))
    && (forall t, s :: s in StoreOf(w, t).index ==> Bucket(w, t, s) != {})
  }

  ghost predicate PresenceExact(w: WorldState) {
    w.presence.Some? ==>
      forall t: TypeId, e: Entity :: w.presence.value.Bit(t, e) <==> t in w.presence.value.bitFor && Has(w, t, e)
  }

  ghost predicate RevisionsBounded(w: WorldState) {
    && (forall t, e: Entity :: Has(w, t, e) ==> Lookup(w, t, e).value.revision <= Mark(w, t))
    && (forall t :: Mark(w, t) <= w.revision)
  }

  /** Outputs that an owner's entries still carry but its index no longer lists. */
  type Loose = set<(Owner, TypeId, Entity)>

  /**
   The ownership index equals entry ownership, except that the outputs in `loose` may be missing from it: while
   an output is being replaced or retired, the engine has already taken that owner out of the index.
   */
  ghost predicate OwnersExact(w: WorldState, loose: Loose) {
    && (forall o, t, e: Entity :: Indexed(w, o, t, e) ==> OwnerAt(w, t, e) == Some(o))
    && (forall t, e: Entity :: OwnerAt(w, t, e).Some? ==> Indexed(w, OwnerAt(w, t, e).value, t, e) || (OwnerAt(w, t, e).value, t, e) in loose)
    && (forall o :: o in w.owners ==> w.owners[o] != {})
  }

  /** `s` is listed in the inverse `v` stored on `target`. */
  ghost predicate Linked(w: WorldState, v: TypeId, s: Entity, target: Entity) {
    s in Members(w, v, target)
  }

  /** `s` carries an edge of the type that `v` inverts, pointing at `target`. */
  ghost predicate Points(sc: Schema, w: WorldState, v: TypeId, s: Entity, target: Entity) {
    sc.Kind(v).Inverse? && EdgeAt(sc, w, sc.Kind(v).edge, s) == Some(target)
  }

  /** Stored inverses are ascending, never empty, and never owned by an invocation. */
  ghost predicate InversesShaped(sc: Schema, w: WorldState) {
    forall v, e: Entity :: sc.Kind(v).Inverse? && Has(w, v, e) ==>
      StrictlySorted(Members(w, v, e)) && Members(w, v, e) != [] && OwnerAt(w, v, e).None?
  }

  ghost predicate InversesExact(sc: Schema, w: WorldState) {
    forall v, s: Entity, e: Entity :: sc.Kind(v).Inverse? ==> (Linked(w, v, s, e) <==> Points(sc, w, v, s, e))
  }

  /** Everything but the edge/inverse correspondence, which is broken and mended inside one mutator. */
  ghost predicate Sound(sc: Schema, w: WorldState, loose: Loose) {
    && sc.Valid()
    && IndexExact(w)
    && PresenceExact(w)
    && RevisionsBounded(w)
    && OwnersExact(w, loose)
    && InversesShaped(sc, w)
  }

  ghost predicate Inv(sc: Schema, w: WorldState, loose: Loose) {
    Sound(sc, w, loose) && InversesExact(sc, w)
  }

  // ---- what a planner may conclude from two states of one run ----

  ghost predicate Logged(w: WorldState, w': WorldState, t: TypeId, e: Entity) {
    |w.log| <= |w'.log| && (t, e) in w'.log[|w.log|..]
  }

  /** The parts of an entry that only logged writes may change. */
  function Link(w: WorldState, t: TypeId, e: Entity): Option<(Option<Entity>, seq<Entity>, Option<Owner>)> {
    if Has(w, t, e)
    then Some((Lookup(w, t, e).value.value.target, Lookup(w, t, e).value.value.members, Lookup(w, t, e).value.owner))
    else None
  }

  /** A watermark moves only to a revision no earlier state had seen. */
  ghost predicate MarksGrow(w: WorldState, w': WorldState) {
    forall t :: Mark(w, t) == Mark(w', t) || Mark(w', t) > w.revision
  }

  /** A presence or revision change raises its store's watermark past every known revision, and is logged. */
  ghost predicate RevsGrow(w: WorldState, w': WorldState) {
    forall t, e: Entity :: Rev(w, t, e) != Rev(w', t, e) ==>
      && Mark(w', t) > w.revision
      && Logged(w, w', t, e)
      && (Rev(w', t, e).Some? ==> Rev(w', t, e).value > w.revision)
  }

  /** The stamp of a tracked component changes only with its revision. */
  ghost predicate StampsFollow(sc: Schema, w: WorldState, w': WorldState) {
    forall t, e: Entity :: sc.Tracked(t) && Rev(w, t, e) == Rev(w', t, e) ==> StampAt(w, t, e) == StampAt(w', t, e)
  }

  /** Edges, member lists and owners change only by logged writes. */
  ghost predicate LinksLogged(w: WorldState, w': WorldState) {
    forall t, e: Entity :: Link(w, t, e) != Link(w', t, e) ==> Logged(w, w', t, e)
  }

  ghost predicate SameObservations(w: WorldState, w': WorldState) {
    && (forall t, e: Entity :: Rev(w, t, e) == Rev(w', t, e))
    && (forall t :: Mark(w, t) == Mark(w', t))
  }

  ghost predicate CountersGrow(w: WorldState, w': WorldState) {
    && w.revision <= w'.revision && w.mutations <= w'.mutations && w.next <= w'.next
    && w.epoch == w'.epoch && w.log <= w'.log
  }

  /**
   `w'` is a later state of the run that passed through `w`. Equal revision and mutation counters then mean
   that nothing a planner reads has moved.
   */
  ghost predicate Evolves(sc: Schema, w: WorldState, w': WorldState) {
    && CountersGrow(w, w')
    && MarksGrow(w, w')
    && RevsGrow(w, w')
    && StampsFollow(sc, w, w')
    && LinksLogged(w, w')
    && (w.revision == w'.revision && w.mutations == w'.mutations ==> SameObservations(w, w'))
  }

  lemma LoggedTransitive(a: WorldState, b: WorldState, c: WorldState, t: TypeId, e: Entity)
    requires a.log <= b.log <= c.log
    requires Logged(a, b, t, e) || Logged(b, c, t, e)
    ensures Logged(a, c, t, e)
  {
    if Logged(a, b, t, e) {
      var i :| 0 <= i < |b.log[|a.log|..]| && b.log[|a.log|..][i] == (t, e);
      assert c.log[|a.log|..][i] == (t, e);
    } else {
      var i :| 0 <= i < |c.log[|b.log|..]| && c.log[|b.log|..][i] == (t, e);
      assert c.log[|a.log|..][i + |b.log| - |a.log|] == (t, e);
    }
  }

  lemma RevsGrowTransitive(a: WorldState, b: WorldState, c: WorldState)
    requires CountersGrow(a, b) && CountersGrow(b, c)
    requires MarksGrow(b, c) && RevsGrow(a, b) && RevsGrow(b, c)
    ensures RevsGrow(a, c)
  {
    forall t, e: Entity | Rev(a, t, e) != Rev(c, t, e)
      ensures Mark(c, t) > a.revision && Logged(a, c, t, e)
      ensures Rev(c, t, e).Some? ==> Rev(c, t, e).value > a.revision
    {
      assert Mark(b, t) == Mark(c, t) || Mark(c, t) > b.revision;
      if Rev(a, t, e) != Rev(b, t, e) { assert Logged(a, b, t, e); }
      if Rev(b, t, e) != Rev(c, t, e) { assert Logged(b, c, t, e); }
      LoggedTransitive(a, b, c, t, e);
    }
  }

  lemma StampsFollowTransitive(sc: Schema, a: WorldState, b: WorldState, c: WorldState)
    requires RevisionsBounded(a) && CountersGrow(a, b)
    requires RevsGrow(a, b) && RevsGrow(b, c) && StampsFollow(sc, a, b) && StampsFollow(sc, b, c)
    ensures StampsFollow(sc, a, c)
  {
    forall t, e: Entity | sc.Tracked(t) && Rev(a, t, e) == Rev(c, t, e)
      ensures StampAt(a, t, e) == StampAt(c, t, e)
    {
      assert Has(a, t, e) ==> Lookup(a, t, e).value.revision <= Mark(a, t) <= a.revision;
      if Rev(a, t, e) == Rev(b, t, e) {
        assert StampAt(a, t, e) == StampAt(b, t, e);
      }
    }
  }

  lemma LinksLoggedTransitive(a: WorldState, b: WorldState, c: WorldState)
    requires a.log <= b.log <= c.log && LinksLogged(a, b) && LinksLogged(b, c)
    ensures LinksLogged(a, c)
  {
    forall t, e: Entity | Link(a, t, e) != Link(c, t, e) ensures Logged(a, c, t, e) {
      if Link(a, t, e) != Link(b, t, e) { assert Logged(a, b, t, e); }
      LoggedTransitive(a, b, c, t, e);
    }
  }

  lemma EvolvesTransitive(sc: Schema, a: WorldState, b: WorldState, c: WorldState)
    requires RevisionsBounded(a) && Evolves(sc, a, b) && Evolves(sc, b, c)
    ensures Evolves(sc, a, c)
  {
    RevsGrowTransitive(a, b, c);
    StampsFollowTransitive(sc, a, b, c);
    LinksLoggedTransitive(a, b, c);
    assert MarksGrow(a, c) by {
      forall t ensures Mark(a, t) == Mark(c, t) || Mark(c, t) > a.revision {
        assert Mark(a, t) == Mark(b, t) || Mark(b, t) > a.revision;
      }
    }
  }

  lemma EvolvesReflexive(sc: Schema, w: WorldState)
    ensures Evolves(sc, w, w)
  {}
}
