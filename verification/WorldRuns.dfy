/** Every run of a bowl's world: the representation invariant holds throughout, and a snapshot key tells states apart. */
module WorldRuns {
  import opened Ids
  import opened Ascending
  import opened Presence
  import opened World
  import opened WorldLemmas
  import opened Queries
  import opened Joins
  import opened Planners
  import M = Mutators
  import R = Removal
  import P = InPlace
  import O = Output
  import PH = Phases
  import C = Coverage
  import CP = CommitProofs

  /** Everything that changes the world between two releases of the state lock. */
  datatype Op =
    | Spawn
    | InsertBase(t: TypeId, e: Entity, v: Value)
    | RemoveComponent(t: TypeId, e: Entity)
    | RemoveEntity(e: Entity, order: seq<TypeId>)
    | Replace(o: Owner, cs: seq<O.Command>, previous: seq<(TypeId, Entity)>)
    | Retract(o: Owner, outputs: seq<(TypeId, Entity)>)
    | Poke(t: TypeId, e: Entity, v: Value)
    | Reconcile(writes: seq<(TypeId, Entity)>)
    | Update(t: TypeId, e: Entity, v: Value)
    | CompactLog
    | Drain

  function Apply(sc: Schema, w: WorldState, op: Op): WorldState {
    match op
    case Spawn => P.Spawn(w)
    case InsertBase(t, e, v) => M.Insert(sc, w, t, e, if t == sc.derivedFrom then O.Capture(sc, w, v) else v, None)
    case RemoveComponent(t, e) => M.RemoveComponent(sc, w, t, e, None)
    case RemoveEntity(e, order) => R.RemoveEntity(sc, w, e, order)
    case Replace(o, cs, previous) => O.Replace(sc, w, cs, o, previous)
    case Retract(o, outputs) => O.Sweep(sc, O.Take(w, o), o, outputs)
    case Poke(t, e, v) => P.Poke(w, t, e, v)
    case Reconcile(writes) => P.ReconcileAll(sc, w, writes)
    case Update(t, e, v) => P.Update(sc, w, t, e, v)
    case CompactLog => C.Compacted(w)
    case Drain => PH.Drained(w)
  }

  /** Callers never write inverse components themselves, and in-place writes keep edges and member lists. */
  ghost predicate Allowed(sc: Schema, w: WorldState, op: Op) {
    match op
    case InsertBase(t, _, _) => !sc.Kind(t).Inverse?
    case RemoveComponent(t, _) => !sc.Kind(t).Inverse?
    case RemoveEntity(_, order) => R.Visits(w, order)
    case Replace(o, cs, previous) => O.Lists(previous, O.Outputs(w, o)) && O.LegalSteps(sc, O.Take(w, o), O.Reordered(sc, cs), o)
    case Retract(o, outputs) => O.Lists(outputs, O.Outputs(w, o))
    case Poke(t, e, v) => Has(w, t, e) ==> P.KeepsLinks(Lookup(w, t, e).value.value, v)
    case Update(t, e, v) => Has(w, t, e) ==> P.KeepsLinks(Lookup(w, t, e).value.value, v)
    case _ => true
  }

  /** A later state of the same run, whatever has been compacted in between. */
  ghost predicate Later(sc: Schema, w: WorldState, w': WorldState) {
    && w.revision <= w'.revision && w.mutations <= w'.mutations && w.next <= w'.next
    && (forall t, e: Entity :: Rev(w, t, e) != Rev(w', t, e) && Rev(w', t, e).Some? ==> Rev(w', t, e).value > w.revision)
    && StampsFollow(sc, w, w')
    && (w.revision == w'.revision && w.mutations == w'.mutations ==> SameObservations(w, w'))
  }

  lemma LaterTransitive(sc: Schema, a: WorldState, b: WorldState, c: WorldState)
    requires RevisionsBounded(a) && Later(sc, a, b) && Later(sc, b, c)
    ensures Later(sc, a, c)
  {
    forall t, e: Entity | sc.Tracked(t) && Rev(a, t, e) == Rev(c, t, e) ensures StampAt(a, t, e) == StampAt(c, t, e) {
      RevisionWithin(a, t, e);
      if Rev(a, t, e) == Rev(b, t, e) { assert StampAt(a, t, e) == StampAt(b, t, e); }
    }
    if a.revision == c.revision && a.mutations == c.mutations {
      forall t, e: Entity ensures Rev(a, t, e) == Rev(c, t, e) { assert Rev(a, t, e) == Rev(b, t, e); }
      forall t ensures Mark(a, t) == Mark(c, t) { assert Mark(a, t) == Mark(b, t); }
    }
  }

  lemma RevisionWithin(w: WorldState, t: TypeId, e: Entity)
    requires RevisionsBounded(w)
    ensures Rev(w, t, e).Some? ==> Rev(w, t, e).value <= w.revision
  {
    if Has(w, t, e) { assert Lookup(w, t, e).value.revision <= Mark(w, t) <= w.revision; }
  }

  lemma EvolvesIsLater(sc: Schema, w: WorldState, w': WorldState)
    requires Evolves(sc, w, w')
    ensures Later(sc, w, w')
  {}

  lemma RetractKeepsInv(sc: Schema, w: WorldState, o: Owner, outputs: seq<(TypeId, Entity)>)
    requires Inv(sc, w, {}) && O.Lists(outputs, O.Outputs(w, o))
    ensures var w' := O.Sweep(sc, O.Take(w, o), o, outputs); Inv(sc, w', {}) && Evolves(sc, w, w')
  {
    var taken := O.Take(w, o);
    var loose := set p | p in O.Outputs(w, o) :: (o, p.0, p.1);
    O.TakeLoosens(sc, w, o);
    O.OutputsAreOrdinary(sc, w, o, outputs);
    forall x | x in loose ensures x.0 == o && (x.1, x.2) in outputs {
      var p :| p in O.Outputs(w, o) && x == (o, p.0, p.1);
      assert p == (x.1, x.2);
    }
    O.SweepClears(sc, taken, o, outputs, {}, loose);
    EvolvesTransitive(sc, w, taken, O.Sweep(sc, taken, o, outputs));
  }

  /**
   Every operation keeps every index exact, and moves revisions, watermarks, stamps and log in step; but for the compaction
   of the log, which like the draining of the removal lists changes nothing that is observed.
   */
  lemma OpKeepsInv(sc: Schema, w: WorldState, op: Op)
    requires Inv(sc, w, {}) && Allowed(sc, w, op)
    ensures var w' := Apply(sc, w, op);
      && Inv(sc, w', {}) && Later(sc, w, w')
      && (!op.CompactLog? ==> Evolves(sc, w, w'))
      && (op.CompactLog? || op.Drain? ==> SameObservations(w, w') && !PH.CountersMoved(w, w'))
      && (op.CompactLog? ==> w'.log == [] && w'.epoch > w.epoch)
  {
    match op
    case Spawn => P.SpawnKeepsInv(sc, w, {});
    case InsertBase(t, e, v) => M.InsertKeepsInv(sc, w, t, e, if t == sc.derivedFrom then O.Capture(sc, w, v) else v, None, {});
    case RemoveComponent(t, e) => M.RemoveComponentKeepsInv(sc, w, t, e, None, {});
    case RemoveEntity(e, order) => R.RemoveEntityKeepsInv(sc, w, e, order, {});
    case Replace(o, cs, previous) => O.ReplaceOwnsEmitted(sc, w, cs, o, previous);
    case Retract(o, outputs) => RetractKeepsInv(sc, w, o, outputs);
    case Poke(t, e, v) => P.PokeKeepsInv(sc, w, t, e, v, {});
    case Reconcile(writes) => P.ReconcileAllKeepsInv(sc, w, writes, {});
    case Update(t, e, v) => P.UpdateKeepsInv(sc, w, t, e, v, {});
    case CompactLog => CP.CompactedIsSame(sc, w);
    case Drain => CP.DrainedIsSame(sc, w);
  }

  // ---- runs ----

  /** A presence layout: one bit per component of a closed universe. */
  ghost predicate Layout(universe: map<TypeId, nat>, stride: nat) {
    && stride > 0
    && (forall t :: t in universe ==> universe[t] / 64 < stride)
    && (forall t, u :: t in universe && u in universe && universe[t] == universe[u] ==> t == u)
  }

  function Blank(presence: Option<PresenceIndex>): WorldState {
    WorldState(0, 0, 0, map[], presence, map[], [], 0, [], [], [])
  }

  /** An empty world, with a presence index over a schema-closed universe or without one. */
  ghost predicate Empty(w: WorldState) {
    || w == Blank(None)
    || exists universe: map<TypeId, nat>, stride: nat :: Layout(universe, stride) && w == Blank(Some(Bitmap(universe, stride, [])))
  }

  ghost predicate Run(sc: Schema, states: seq<WorldState>, ops: seq<Op>) {
    && sc.Valid() && |states| == |ops| + 1 && Empty(states[0])
    && forall k :: 0 <= k < |ops| ==> Allowed(sc, states[k], ops[k]) && states[k + 1] == Apply(sc, states[k], ops[k])
  }

  lemma EmptyIsInv(sc: Schema, w: WorldState)
    requires sc.Valid() && Empty(w)
    ensures Inv(sc, w, {})
  {
    assert forall t, e: Entity :: !Has(w, t, e);
    assert forall t :: Mark(w, t) == 0;
  }

  /** The representation invariant, in every state of every run. */
  lemma {:induction false} RunKeepsInv(sc: Schema, states: seq<WorldState>, ops: seq<Op>, k: nat)
    requires Run(sc, states, ops) && k <= |ops|
    ensures Inv(sc, states[k], {})
  {
    if k == 0 {
      EmptyIsInv(sc, states[0]);
    } else {
      RunKeepsInv(sc, states, ops, k - 1);
      OpKeepsInv(sc, states[k - 1], ops[k - 1]);
    }
  }

  lemma {:induction false} RunIsLater(sc: Schema, states: seq<WorldState>, ops: seq<Op>, j: nat, k: nat)
    requires Run(sc, states, ops) && j <= k <= |ops|
    ensures Later(sc, states[j], states[k])
    decreases k - j
  {
    if j == k {
      EvolvesReflexive(sc, states[j]);
      EvolvesIsLater(sc, states[j], states[j]);
    } else {
      RunIsLater(sc, states, ops, j, k - 1);
      RunKeepsInv(sc, states, ops, j);
      RunKeepsInv(sc, states, ops, k - 1);
      OpKeepsInv(sc, states[k - 1], ops[k - 1]);
      LaterTransitive(sc, states[j], states[k - 1], states[k]);
    }
  }

  /** Relationship inverses, spelled out: the list on a target is exactly the ascending list of its sources, absent when empty. */
  lemma InversesAreSources(sc: Schema, states: seq<WorldState>, ops: seq<Op>, k: nat, v: TypeId, target: Entity)
    requires Run(sc, states, ops) && k <= |ops| && sc.Kind(v).Inverse?
    ensures var w := states[k];
      && StrictlySorted(Members(w, v, target))
      && (forall s: Entity :: s in Members(w, v, target) <==> EdgeAt(sc, w, sc.Kind(v).edge, s) == Some(target))
      && (Has(w, v, target) <==> exists s: Entity :: EdgeAt(sc, w, sc.Kind(v).edge, s) == Some(target))
  {
    var w := states[k];
    RunKeepsInv(sc, states, ops, k);
    forall s: Entity ensures s in Members(w, v, target) <==> EdgeAt(sc, w, sc.Kind(v).edge, s) == Some(target) {
      assert Linked(w, v, s, target) <==> Points(sc, w, v, s, target);
    }
    if Has(w, v, target) { assert Members(w, v, target)[0] in Members(w, v, target); }
  }

  /** A reused snapshot is as good as a fresh one: equal keys in one run mean equal presence, revisions, watermarks and tracked stamps. */
  lemma SnapshotCacheIsValid(sc: Schema, states: seq<WorldState>, ops: seq<Op>, j: nat, k: nat)
    requires Run(sc, states, ops) && j <= k <= |ops| && PH.SnapshotKey(states[j]) == PH.SnapshotKey(states[k])
    ensures SameObservations(states[j], states[k])
    ensures forall t, e: Entity :: Has(states[j], t, e) == Has(states[k], t, e)
    ensures forall t, e: Entity :: sc.Tracked(t) ==> StampAt(states[j], t, e) == StampAt(states[k], t, e)
  {
    RunIsLater(sc, states, ops, j, k);
    forall t, e: Entity ensures Has(states[j], t, e) == Has(states[k], t, e) {
      assert Rev(states[j], t, e) == Rev(states[k], t, e);
    }
  }

  /**
   The joins of `ps` read the same links in both states: what equal counters do not tell of an untracked key restamped
   in place, or of a member list replaced by another with an equal fingerprint.
   */
  ghost predicate LinksHeld(sc: Schema, w: WorldState, w': WorldState, ps: seq<Query>) {
    forall i, e: Entity :: 0 <= i < |ps| && (ps[i].binding.EqOn? ==> !sc.Tracked(ps[i].binding.key)) ==> SameLink(w, w', ps[i], e)
  }

  /** What the join of a query reads of an entity. */
  predicate SameLink(w: WorldState, w': WorldState, q: Query, e: Entity) {
    match q.binding
    case Free => true
    case EqOn(k) => StampAt(w, k, e) == StampAt(w', k, e)
    case InOf(v) => Members(w, v, e) == Members(w', v, e)
  }

  /** So it plans the same rows with the same dependencies, provided the links that no counter tells of were held. */
  lemma CachedSnapshotPlansTheSame(sc: Schema, states: seq<WorldState>, ops: seq<Op>, j: nat, k: nat, ps: seq<Query>, row: seq<Entity>)
    requires Run(sc, states, ops) && j <= k <= |ops| && PH.SnapshotKey(states[j]) == PH.SnapshotKey(states[k])
    requires WellBound(ps) && LinksHeld(sc, states[j], states[k], ps)
    ensures row in States(states[j], ps) <==> row in States(states[k], ps)
    ensures |row| == |ps| ==> RowDeps(sc, states[j], ps, row) == RowDeps(sc, states[k], ps, row)
  {
    var w, w' := states[j], states[k];
    SnapshotCacheIsValid(sc, states, ops, j, k);
    RunKeepsInv(sc, states, ops, j);
    RunKeepsInv(sc, states, ops, k);
    BuildMembers(w, ps, [], Paired, row);
    BuildMembers(w', ps, [], Paired, row);
    if |row| == |ps| {
      forall i | 0 <= i < |ps| ensures row[i] in Candidates(w, ps, row[..i], Paired) <==> row[i] in Candidates(w', ps, row[..i], Paired) {
        CandidateIsSame(sc, w, w', ps, row, i);
      }
      RowDepsSame(sc, w, w', ps, row);
    }
  }

  lemma CandidateIsSame(sc: Schema, w: WorldState, w': WorldState, ps: seq<Query>, row: seq<Entity>, i: nat)
    requires WellBound(ps) && |row| == |ps| && i < |ps| && IndexExact(w) && IndexExact(w')
    requires LinksHeld(sc, w, w', ps)
    requires forall t, e: Entity :: Has(w, t, e) == Has(w', t, e)
    requires forall t, e: Entity :: sc.Tracked(t) ==> StampAt(w, t, e) == StampAt(w', t, e)
    ensures row[i] in Candidates(w, ps, row[..i], Paired) <==> row[i] in Candidates(w', ps, row[..i], Paired)
  {
    var p := ProviderFrom(ps, i, 0);
    MatchesSame(w, w', ps[i], row[i]);
    if !ps[i].binding.Free? {
      p :| 0 <= p < i && OnlyProvider(ps, p, i);
      ProviderFound(ps, p, i, 0);
      var pair := row[..i] + [row[i]];
      assert pair[p] == row[p] && pair[i] == row[i];
      LinkIsSame(sc, w, w', ps, i, row[p]);
      LinkIsSame(sc, w, w', ps, i, row[i]);
    }
    PairRowAt(w, ps, row[..i], p, row[i]);
    PairRowAt(w', ps, row[..i], p, row[i]);
  }

  lemma LinkIsSame(sc: Schema, w: WorldState, w': WorldState, ps: seq<Query>, i: nat, e: Entity)
    requires i < |ps| && LinksHeld(sc, w, w', ps)
    requires forall t, e: Entity :: sc.Tracked(t) ==> StampAt(w, t, e) == StampAt(w', t, e)
    ensures SameLink(w, w', ps[i], e)
  {}

  // ---- what a key does not tell ----

  /**
   An in-place change of a stamp goes unseen by the snapshot key exactly when the component is untracked. Its index
   bucket moves all the same.
   */
  lemma RestampIsSilentIffUntracked(sc: Schema, w: WorldState, t: TypeId, e: Entity, v: Value)
    requires Inv(sc, w, {}) && Has(w, t, e) && v.stamp != StampAt(w, t, e)
    ensures var w' := P.Update(sc, w, t, e, v);
      && (PH.SnapshotKey(w') == PH.SnapshotKey(w) <==> !sc.Tracked(t))
      && StampAt(w', t, e) == v.stamp != StampAt(w, t, e)
  {}

  /** Nor does it open any gate: a join on an untracked key can gain a row that no plan is told to look for. */
  lemma UntrackedKeyOpensNoGate(sc: Schema, w: WorldState, k: TypeId, e: Entity, v: Value, sh: Shape, p: Planner)
    requires Has(w, k, e) && !sc.Tracked(k) && p.forced == [] && p.mark == Some(HighMark(w, sh.Interest()))
    ensures !Open(sh, p, P.Update(sc, w, k, e, v))
  {
    var w' := P.Update(sc, w, k, e, v);
    forall t ensures Mark(w, t) == Mark(w', t) {}
    C.HighMarkSame(w, w', sh.Interest());
  }

  /** Pairs of entities that carry component `k` under equal stamps. */
  function KeyJoin(k: TypeId): seq<Query> {
    [Query(Scalar, [], [k], [], [], [], [], Free), Query(Handle, [], [], [], [], [], [], EqOn(k))]
  }

  lemma KeyJoinIsBound(k: TypeId)
    ensures WellBound(KeyJoin(k)) && OnlyProvider(KeyJoin(k), 0, 1)
    ensures Required(KeyJoin(k)[0]) == [k] && Required(KeyJoin(k)[1]) == [k]
  {
    assert OnlyProvider(KeyJoin(k), 0, 1);
  }

  lemma PairIsEnumerated(w: WorldState, ps: seq<Query>, a: Entity, b: Entity)
    requires WellBound(ps) && |ps| == 2
    ensures [a, b] in States(w, ps) <==> a in Candidates(w, ps, [], Paired) && b in Candidates(w, ps, [a], Paired)
  {
    BuildMembers(w, ps, [], Paired, [a, b]);
    assert [a, b][..0] == [] && [a, b][..1] == [a];
  }

  lemma FirstOfPair(w: WorldState, k: TypeId, a: Entity)
    requires WellBound(KeyJoin(k)) && Has(w, k, a)
    ensures a in Candidates(w, KeyJoin(k), [], Paired)
  {
    var q := KeyJoin(k)[0];
    KeyJoinIsBound(k);
    RowsAre(w, q);
    assert Queries.Listed(w, q, a);
    assert Candidates(w, KeyJoin(k), [], Paired) == Rows(w, q);
  }

  lemma SecondOfPair(w: WorldState, k: TypeId, a: Entity, b: Entity)
    requires WellBound(KeyJoin(k)) && IndexExact(w) && Has(w, k, a) && Has(w, k, b)
    ensures b in Candidates(w, KeyJoin(k), [a], Paired) <==> StampAt(w, k, a).Some? && StampAt(w, k, b) == StampAt(w, k, a)
  {
    var ps := KeyJoin(k);
    KeyJoinIsBound(k);
    ProviderFound(ps, 0, 1, 0);
    var q := ps[1];
    assert Queries.Narrowed(w, q, b);
    if StampAt(w, k, a).Some? {
      assert b in Bucket(w, k, StampAt(w, k, a).value) <==> StampAt(w, k, b) == StampAt(w, k, a);
    }
  }

  lemma KeyedPair(w: WorldState, k: TypeId, a: Entity, b: Entity)
    requires WellBound(KeyJoin(k)) && IndexExact(w) && Has(w, k, a) && Has(w, k, b)
    ensures [a, b] in States(w, KeyJoin(k)) <==> StampAt(w, k, a).Some? && StampAt(w, k, b) == StampAt(w, k, a)
  {
    PairIsEnumerated(w, KeyJoin(k), a, b);
    FirstOfPair(w, k, a);
    SecondOfPair(w, k, a, b);
  }

  /** Everything stored is a plain component 1 on entities 1 and 2. */
  function TwoKeys(a: Stamp, b: Stamp): WorldState {
    var first := Entry(Value(0, Some(a), None, [], []), Some(a), 1, None);
    var second := Entry(Value(0, Some(b), None, [], []), Some(b), 2, None);
    var index := if a == b then map[a := {1, 2}] else map[a := {1}, b := {2}];
    Blank(None).(revision := 2, mutations := 2, stores := map[1 := Store(map[1 := first, 2 := second], index, 2)], log := [(1, 1), (1, 2)])
  }

  lemma TwoKeysIsInv(sc: Schema, a: Stamp, b: Stamp)
    requires sc.Valid() && sc.Kind(1) == Plain && forall t :: !sc.Kind(t).Inverse?
    ensures Inv(sc, TwoKeys(a, b), {})
  {
    var w := TwoKeys(a, b);
    IndexExactByStore(w);
    assert StoreIndexExact(StoreOf(w, 1));
    assert forall t :: t != 1 ==> StoreOf(w, t) == NO_STORE;
    assert forall t, e: Entity :: OwnerAt(w, t, e).None?;
  }

  /** Such a row exists: two entities whose untracked keys become equal in place. */
  lemma UntrackedKeyMissesRow() returns (sc: Schema, w: WorldState, v: Value, ps: seq<Query>)
    ensures sc.Valid() && !sc.Tracked(1) && Inv(sc, w, {}) && WellBound(ps)
    ensures var w' := P.Update(sc, w, 1, 2, v);
      && [1, 2] !in States(w, ps) && [1, 2] in States(w', ps) && PH.SnapshotKey(w') == PH.SnapshotKey(w)
  {
    sc := Schema(map[], {0, 1}, 0, _ => 0, _ => 0);
    w, v, ps := TwoKeys(7, 3), Value(0, Some(7), None, [], []), KeyJoin(1);
    SilentlyEqual(sc);
    TwoKeysIsInv(sc, 7, 3);
    TwoKeysIsInv(sc, 7, 7);
    KeyJoinIsBound(1);
    KeyedPair(TwoKeys(7, 3), 1, 1, 2);
    KeyedPair(TwoKeys(7, 7), 1, 1, 2);
  }

  lemma SilentlyEqual(sc: Schema)
    requires !sc.Tracked(1)
    ensures P.Update(sc, TwoKeys(7, 3), 1, 2, Value(0, Some(7), None, [], [])) == TwoKeys(7, 7)
  {
    var w := P.Update(sc, TwoKeys(7, 3), 1, 2, Value(0, Some(7), None, [], []));
    assert w.stores[1].entries == TwoKeys(7, 7).stores[1].entries;
    assert {2} - {2} == {} && {1} + {2} == {1, 2};
    assert w.stores[1].index == TwoKeys(7, 7).stores[1].index;
    assert w.stores == TwoKeys(7, 7).stores;
  }
}
