/** The world as the object it is in the engine: its fields change in place, and relationship upkeep re-enters its own mutators. */
module WorldStore {
  import opened Ids
  import opened Ascending
  import opened Presence
  import opened World
  import M = Mutators
  import R = Removal
  import P = InPlace
  import O = Output
  import Iteration

  class LiveWorld {
    const schema: Schema
    var nextEntity: Entity
    var revision: nat
    var mutations: nat
    var stores: map<TypeId, Store>
    var presence: Option<PresenceIndex>
    var derivedOwners: map<Owner, set<(TypeId, Entity)>>
    var writeLog: seq<(TypeId, Entity)>
    var planEpoch: nat
    var removedEntities: seq<Entity>
    var removedOwners: seq<Owner>
    var removedComponentOwners: seq<Owner>
    var pendingDerivedFrom: seq<O.Command>

    function State(): WorldState
      reads this
    {
      WorldState(nextEntity, revision, mutations, stores, presence, derivedOwners, writeLog, planEpoch,
                 removedEntities, removedOwners, removedComponentOwners)
    }

    constructor (schema: Schema, presence: Option<PresenceIndex>)
      ensures this.schema == schema && pendingDerivedFrom == []
      ensures State() == WorldState(0, 0, 0, map[], presence, map[], [], 0, [], [], [])
    {
      this.schema, this.presence := schema, presence;
      nextEntity, revision, mutations, stores, derivedOwners := 0, 0, 0, map[], map[];
      writeLog, planEpoch, removedEntities, removedOwners, removedComponentOwners := [], 0, [], [], [];
      pendingDerivedFrom := [];
    }

    /** Edge upkeep goes one level deep: an inverse carries no edge of its own. */
    function Depth(t: TypeId): nat {
      if schema.Kind(t).Edge? then 1 else 0
    }

    method PresenceSet(t: TypeId, e: Entity, present: bool)
      modifies this`presence
      ensures presence == SetBit(old(presence), t, e, present)
    {
      if presence.Some? {
        presence := Some(presence.value.Set(t, e, present));
      }
    }

    method UnindexDerived(o: Owner, t: TypeId, e: Entity)
      modifies this`derivedOwners
      ensures derivedOwners == Disown(old(derivedOwners), o, t, e)
    {
      if o !in derivedOwners {
        return;
      }
      var outputs := derivedOwners[o] - {(t, e)};
      derivedOwners := if outputs == {} then derivedOwners - {o} else derivedOwners[o := outputs];
    }

    // ---- insert and its upkeep ----

    /** The store, index, counter, log and ownership part of an insert. */
    method WriteEntry(t: TypeId, e: Entity, v: Value, owner: Option<Owner>)
      modifies this
      ensures State() == Write(schema, old(State()), t, e, v, owner) && pendingDerivedFrom == old(pendingDerivedFrom)
    {
      var previous := OwnerAt(State(), t, e);
      StoreWrite(t, e, v, owner);
      PresenceSet(t, e, true);
      writeLog := writeLog + [(t, e)];
      Reown(t, e, previous, owner);
    }

    /** The counters and the store itself. */
    method StoreWrite(t: TypeId, e: Entity, v: Value, owner: Option<Owner>)
      modifies this`revision, this`mutations, this`stores
      ensures var w' := Write(schema, old(State()), t, e, v, owner);
        revision == w'.revision && mutations == w'.mutations && stores == w'.stores
    {
      var at := CountWrite(t, Lookup(State(), t, e), v.stamp);
      StoreEntry(t, e, Entry(v, v.stamp, at, owner));
      WriteIs(old(State()), t, e, v, owner);
    }

    /** `Write`, field by field. */
    lemma WriteIs(w: WorldState, t: TypeId, e: Entity, v: Value, owner: Option<Owner>)
      ensures var w' := Write(schema, w, t, e, v, owner);
        var st, previous := StoreOf(w, t), Lookup(w, t, e);
        var kept := previous.Some? && previous.value.stamp.Some? && previous.value.stamp == v.stamp;
        var at := if schema.Tracked(t) && kept then previous.value.revision else w'.revision;
        && w'.revision == (if schema.Tracked(t) && kept then w.revision else w.revision + 1)
        && w'.mutations == (if kept then w.mutations else w.mutations + 1)
        && w'.stores == w.stores[t := Store(
             st.entries[e := Entry(v, v.stamp, at, owner)],
             if e in st.entries then Restamp(st.index, e, st.entries[e].stamp, v.stamp) else IndexStamp(st.index, e, v.stamp),
             Max(st.watermark, at))]
    {}

    /** The revision a write gets, and the counters it moves: a tracked write with an equal stamp keeps its old revision. */
    method CountWrite(t: TypeId, previous: Option<Entry>, stamp: Option<Stamp>) returns (at: nat)
      modifies this`revision, this`mutations
      ensures var kept := previous.Some? && previous.value.stamp.Some? && previous.value.stamp == stamp;
        && revision == (if schema.Tracked(t) && kept then old(revision) else old(revision) + 1)
        && mutations == (if kept then old(mutations) else old(mutations) + 1)
        && at == if schema.Tracked(t) && kept then previous.value.revision else revision
    {
      var kept := previous.Some? && previous.value.stamp.Some? && previous.value.stamp == stamp;
      if schema.Tracked(t) && kept {
        at := previous.value.revision;
      } else {
        revision := revision + 1;
        at := revision;
      }
      if !kept {
        mutations := mutations + 1;
      }
    }

    /** Moves one output in the ownership index from its previous owner to its new one. */
    method Reown(t: TypeId, e: Entity, previous: Option<Owner>, owner: Option<Owner>)
      modifies this`derivedOwners
      ensures var released := if previous.Some? && previous != owner then Disown(old(derivedOwners), previous.value, t, e) else old(derivedOwners);
        derivedOwners == if owner.Some? then Own(released, owner.value, t, e) else released
    {
      if previous.Some? && previous != owner {
        UnindexDerived(previous.value, t, e);
      }
      if owner.Some? {
        derivedOwners := Own(derivedOwners, owner.value, t, e);
      }
    }

    /** Puts one entry into its store, which comes into being with its first entry. */
    method StoreEntry(t: TypeId, e: Entity, entry: Entry)
      modifies this`stores
      ensures var st := StoreOf(old(State()), t);
        stores == old(stores)[t := Store(
          st.entries[e := entry],
          if e in st.entries then Restamp(st.index, e, st.entries[e].stamp, entry.stamp) else IndexStamp(st.index, e, entry.stamp),
          Max(st.watermark, entry.revision))]
    {
      var store := if t in stores then stores[t] else NO_STORE;
      var index := store.index;
      if e in store.entries {
        if store.entries[e].stamp != entry.stamp {
          index := IndexStamp(UnindexStamp(index, e, store.entries[e].stamp), e, entry.stamp);
        }
      } else {
        index := IndexStamp(index, e, entry.stamp);
      }
      stores := stores[t := Store(store.entries[e := entry], index, Max(store.watermark, entry.revision))];
    }

    /** Inserts a component, then moves the entity between the inverses of its old and new targets. */
    method Insert(t: TypeId, e: Entity, v: Value, owner: Option<Owner>)
      requires schema.Valid()
      modifies this
      ensures State() == M.Insert(schema, old(State()), t, e, v, owner) && pendingDerivedFrom == old(pendingDerivedFrom)
      decreases Depth(t), 0
    {
      var from, to := EdgeAt(schema, State(), t, e), EdgeOf(schema, t, v);
      WriteEntry(t, e, v, owner);
      if from != to && schema.Kind(t).Edge? {
        if from.Some? {
          RelationshipRemoveMember(schema.Kind(t).inverse, e, from.value);
        }
        if to.Some? {
          RelationshipAddMember(schema.Kind(t).inverse, e, to.value);
        }
      }
    }

    method RelationshipAddMember(inverse: TypeId, source: Entity, target: Entity)
      requires schema.Valid() && schema.Kind(inverse).Inverse?
      modifies this
      ensures State() == AddMember(schema, old(State()), inverse, source, target) && pendingDerivedFrom == old(pendingDerivedFrom)
      decreases 0, 1
    {
      var members := Members(State(), inverse, target);
      if source in members {
        return;
      }
      Insert(inverse, target, InverseValue(schema, InsertSorted(members, source)), None);
    }

    method RelationshipRemoveMember(inverse: TypeId, source: Entity, target: Entity)
      requires schema.Valid() && schema.Kind(inverse).Inverse?
      modifies this
      ensures State() == RemoveMember(schema, old(State()), inverse, source, target) && pendingDerivedFrom == old(pendingDerivedFrom)
      decreases 0, 1
    {
      var members := Members(State(), inverse, target);
      if source !in members {
        return;
      }
      var rest := RemoveSorted(members, source);
      if rest == [] {
        var _ := RemoveComponent(inverse, target, None);
      } else {
        Insert(inverse, target, InverseValue(schema, rest), None);
      }
    }

    // ---- removal ----

    /** Takes one entry out of its store, with the counters, the presence bit and the log. */
    method EraseEntry(t: TypeId, e: Entity) returns (entry: Entry)
      requires Has(State(), t, e)
      modifies this
      ensures State() == Erase(old(State()), t, e) && entry == Lookup(old(State()), t, e).value
      ensures pendingDerivedFrom == old(pendingDerivedFrom)
    {
      var store := stores[t];
      entry := store.entries[e];
      PresenceSet(t, e, false);
      writeLog := writeLog + [(t, e)];
      mutations := mutations + 1;
      revision := revision + 1;
      stores := stores[t := Store(store.entries - {e}, UnindexStamp(store.index, e, entry.stamp), Max(store.watermark, revision))];
    }

    method RemoveComponent(t: TypeId, e: Entity, remover: Option<Owner>) returns (removed: Option<Value>)
      requires schema.Valid()
      modifies this
      ensures State() == M.RemoveComponent(schema, old(State()), t, e, remover) && pendingDerivedFrom == old(pendingDerivedFrom)
      ensures removed == if Has(old(State()), t, e) then Some(Lookup(old(State()), t, e).value.value) else None
      decreases Depth(t), 0
    {
      if t !in stores || e !in stores[t].entries {
        return None;
      }
      ghost var before := State();
      var entry := EraseEntry(t, e);
      if entry.owner.Some? {
        UnindexDerived(entry.owner.value, t, e);
        if remover != entry.owner {
          removedComponentOwners := removedComponentOwners + [entry.owner.value];
        }
      }
      assert State() == EraseComponent(before, t, e, remover);
      var edge := EdgeOf(schema, t, entry.value);
      if edge.Some? {
        RelationshipRemoveMember(schema.Kind(t).inverse, e, edge.value);
      }
      removed := Some(entry.value);
    }

    /** Removes one derived entry if `owner` still owns it; the caller has already taken it out of the ownership index. */
    method RemoveDerivedEntry(t: TypeId, e: Entity, owner: Owner) returns (removed: bool)
      requires schema.Valid()
      modifies this
      ensures State() == M.RemoveDerivedEntry(schema, old(State()), t, e, owner) && pendingDerivedFrom == old(pendingDerivedFrom)
      ensures removed == (OwnerAt(old(State()), t, e) == Some(owner))
    {
      if t !in stores || e !in stores[t].entries || stores[t].entries[e].owner != Some(owner) {
        return false;
      }
      var entry := EraseEntry(t, e);
      var edge := EdgeOf(schema, t, entry.value);
      if edge.Some? {
        RelationshipRemoveMember(schema.Kind(t).inverse, e, edge.value);
      }
      removed := true;
    }

    /** Empties the lists of what was removed; the caller has accounted for them. */
    method TakeRemoved()
      modifies this`removedEntities, this`removedOwners, this`removedComponentOwners
      ensures State() == old(State()).(removedEntities := [], removedOwners := [], removedComponentOwners := [])
    {
      removedEntities, removedOwners, removedComponentOwners := [], [], [];
    }

    // ---- output replacement ----

    method TakeDerivedOutputs(o: Owner) returns (outputs: set<(TypeId, Entity)>)
      modifies this`derivedOwners
      ensures State() == O.Take(old(State()), o) && outputs == O.Outputs(old(State()), o)
    {
      outputs := if o in derivedOwners then derivedOwners[o] else {};
      derivedOwners := derivedOwners - {o};
    }

    /** Removes what `owner` owned and no longer does, in the order its set of outputs happens to be iterated. */
    method RemoveDerivedStale(owner: Owner, previous: set<(TypeId, Entity)>) returns (ghost order: seq<(TypeId, Entity)>)
      requires schema.Valid()
      modifies this
      ensures O.Lists(order, previous) && State() == O.Sweep(schema, old(State()), owner, order)
      ensures pendingDerivedFrom == old(pendingDerivedFrom)
    {
      var rest := previous;
      order := [];
      ghost var start := State();
      while rest != {}
        invariant rest <= previous
        invariant forall p :: p in previous <==> p in rest || p in order
        invariant State() == O.Sweep(schema, start, owner, order) && pendingDerivedFrom == old(pendingDerivedFrom)
        decreases |rest|
      {
        var p :| p in rest;
        rest := rest - {p};
        SweepOneMore(start, owner, order, p);
        order := order + [p];
        if owner !in derivedOwners || p !in derivedOwners[owner] {
          var _ := RemoveDerivedEntry(p.0, p.1, owner);
        }
      }
    }

    lemma {:induction false} SweepOneMore(w: WorldState, o: Owner, order: seq<(TypeId, Entity)>, p: (TypeId, Entity))
      ensures var swept := O.Sweep(schema, w, o, order);
        O.Sweep(schema, w, o, order + [p])
        == if Indexed(swept, o, p.0, p.1) then swept else M.RemoveDerivedEntry(schema, swept, p.0, p.1, o)
      decreases |order|
    {
      if order == [] {
        assert (order + [p])[1..] == [];
      } else {
        assert (order + [p])[1..] == order[1..] + [p];
        var (t, e) := order[0];
        SweepOneMore(if Indexed(w, o, t, e) then w else M.RemoveDerivedEntry(schema, w, t, e, o), o, order[1..], p);
      }
    }

    /** One command of a buffer; a `DerivedFrom` insert is put aside until the flush. */
    method Perform(c: O.Command, o: Owner) returns (ghost order: seq<TypeId>)
      requires schema.Valid()
      modifies this
      ensures c.Despawn? ==> R.Visits(old(State()), order)
      ensures if O.Anchors(schema, c) then State() == old(State()) && pendingDerivedFrom == old(pendingDerivedFrom) + [c]
              else State() == O.Step(schema, old(State()), if c.Despawn? then c.(order := order) else c, o)
                   && pendingDerivedFrom == old(pendingDerivedFrom)
    {
      order := [];
      match c {
        case Put(t, e, v) =>
          if t == schema.derivedFrom {
            pendingDerivedFrom := pendingDerivedFrom + [c];
          } else {
            Insert(t, e, v, Some(o));
          }
        case Drop(t, e) =>
          var _ := RemoveComponent(t, e, Some(o));
        case Despawn(e, _) =>
          var owners;
          owners, order := RemoveEntity(e);
      }
    }

    /** Captures and inserts the deferred anchors, in order, against the fully written world. */
    method FlushDerivedFrom(o: Owner)
      requires schema.Valid() && forall i :: 0 <= i < |pendingDerivedFrom| ==> O.Anchors(schema, pendingDerivedFrom[i])
      modifies this
      ensures State() == O.Steps(schema, old(State()), old(pendingDerivedFrom), o) && pendingDerivedFrom == []
    {
      var pending := pendingDerivedFrom;
      pendingDerivedFrom := [];
      ghost var start := State();
      var n := 0;
      while n < |pending|
        invariant 0 <= n <= |pending| && pendingDerivedFrom == []
        invariant State() == O.Steps(schema, start, pending[..n], o)
      {
        var c := pending[n];
        assert pending[..n + 1] == pending[..n] + [c];
        O.StepsAppend(schema, start, pending[..n], [c], o);
        assert [c][1..] == [];
        Insert(c.t, c.e, O.Capture(schema, State(), c.v), Some(o));
        n := n + 1;
      }
      assert pending[..n] == pending;
    }

    /**
     One accepted output: the old outputs leave the index, the buffer applies over them, deferred anchors flush, and
     what was not emitted again is swept. Then `o` owns exactly what its buffer wrote and left in place. `done` is
     the buffer with the order in which each despawn visited the stores.
     */
    method ReplaceOutput(cs: seq<O.Command>, o: Owner) returns (ghost done: seq<O.Command>, ghost order: seq<(TypeId, Entity)>)
      requires Inv(schema, State(), {}) && pendingDerivedFrom == []
      requires forall i :: 0 <= i < |cs| ==> Writable(schema, cs[i])
      modifies this
      ensures pendingDerivedFrom == [] && Inv(schema, State(), {}) && Evolves(schema, old(State()), State())
      ensures |done| == |cs| && forall i :: 0 <= i < |cs| ==> SameCommand(cs[i], done[i])
      ensures State() == O.Replace(schema, old(State()), done, o, order) && O.Lists(order, O.Outputs(old(State()), o))
      ensures O.LegalSteps(schema, O.Take(old(State()), o), O.Reordered(schema, done), o)
      ensures forall t, e: Entity :: OwnerAt(State(), t, e) == Some(o) <==>
                (t, e) in O.Emitted(schema, O.Take(old(State()), o), O.Reordered(schema, done), o, {})
    {
      ghost var start := State();
      var previous := TakeDerivedOutputs(o);
      ghost var taken := State();
      done := ApplyCommands(cs, o);
      ghost var pending := pendingDerivedFrom;
      DeferredAreAnchors(schema, done);
      AnchorsAreLegal(schema, State(), pending, o);
      LegalAppend(schema, taken, O.Immediate(schema, done), pending, o);
      O.StepsAppend(schema, taken, O.Immediate(schema, done), pending, o);
      O.DeferralReorders(schema, taken, done, o);
      FlushDerivedFrom(o);
      order := RemoveDerivedStale(o, previous);
      O.ReplaceOwnsEmitted(schema, start, done, o, order);
    }

    /** Applies a buffer in command order; the `DerivedFrom` inserts end up in the deferred list. */
    method ApplyCommands(cs: seq<O.Command>, o: Owner) returns (ghost done: seq<O.Command>)
      requires schema.Valid() && pendingDerivedFrom == []
      requires forall i :: 0 <= i < |cs| ==> Writable(schema, cs[i])
      modifies this
      ensures |done| == |cs| && forall i :: 0 <= i < |cs| ==> SameCommand(cs[i], done[i])
      ensures State() == O.Steps(schema, old(State()), O.Immediate(schema, done), o)
      ensures pendingDerivedFrom == O.Deferred(schema, done)
      ensures O.LegalSteps(schema, old(State()), O.Immediate(schema, done), o)
    {
      ghost var start := State();
      done := [];
      var n := 0;
      while n < |cs|
        invariant 0 <= n <= |cs| && |done| == n && forall i :: 0 <= i < n ==> SameCommand(cs[i], done[i])
        invariant State() == O.Steps(schema, start, O.Immediate(schema, done), o)
        invariant pendingDerivedFrom == O.Deferred(schema, done)
        invariant O.LegalSteps(schema, start, O.Immediate(schema, done), o)
      {
        ghost var order := Perform(cs[n], o);
        ghost var c := if cs[n].Despawn? then cs[n].(order := order) else cs[n];
        PerformedNext(schema, start, done, c, o);
        done := done + [c];
        n := n + 1;
      }
    }

    // ---- whole entities ----

    /** Strips the entity from every store, then settles the relationships it took part in. */
    method RemoveEntity(e: Entity) returns (owners: seq<Owner>, ghost order: seq<TypeId>)
      requires schema.Valid()
      modifies this
      ensures R.Visits(old(State()), order) && State() == R.RemoveEntity(schema, old(State()), e, order)
      ensures owners == R.OwnersOf(old(State()), e, order) && pendingDerivedFrom == old(pendingDerivedFrom)
    {
      ghost var start := State();
      var types := Iteration.Listed(stores.Keys);
      order := types;
      var edges, retractions := RelationshipsOf(e, types);
      R.EdgesAreInverses(schema, start, e, types);
      owners := StripStores(e, types);
      removedEntities := removedEntities + [e];
      presence := ClearBits(presence, e);
      assert State() == R.Cleared(start, e, types);
      DetachEdges(e, edges);
      RetractEdges(retractions);
      removedOwners := removedOwners + owners;
    }

    /** The edges to detach and the retractions to apply, read before anything is removed. */
    method RelationshipsOf(e: Entity, types: seq<TypeId>) returns (edges: seq<(TypeId, Entity)>, retractions: seq<(TypeId, Entity)>)
      ensures edges == R.EdgesOf(schema, State(), e, types) && retractions == R.RetractionsOf(schema, State(), e, types)
    {
      edges, retractions := [], [];
      var n := |types|;
      while n > 0
        invariant 0 <= n <= |types|
        invariant edges == R.EdgesOf(schema, State(), e, types[n..]) && retractions == R.RetractionsOf(schema, State(), e, types[n..])
      {
        n := n - 1;
        assert types[n..][1..] == types[n + 1..];
        var t := types[n];
        var edge := EdgeAt(schema, State(), t, e);
        if edge.Some? {
          edges := [(schema.Kind(t).inverse, edge.value)] + edges;
        }
        if schema.Kind(t).Inverse? {
          var members := Members(State(), t, e);
          retractions := seq(|members|, i requires 0 <= i < |members| => (schema.Kind(t).edge, members[i])) + retractions;
        }
      }
      assert types[0..] == types;
    }

    /** `Store::remove_entity` on every store; the removals are logged and unindexed once all stores are done. */
    method StripStores(e: Entity, types: seq<TypeId>) returns (owners: seq<Owner>)
      requires Iteration.Distinct(types)
      modifies this`revision, this`mutations, this`stores, this`writeLog, this`derivedOwners
      ensures var w := old(State());
        State() == R.StripAll(w, e, types).(log := w.log + R.Carried(w, e, types), owners := R.DisownAll(w.owners, w, e, types))
      ensures owners == R.OwnersOf(old(State()), e, types)
    {
      ghost var start := State();
      var unindex, removed;
      unindex, owners, removed := RemoveFromStores(e, types);
      StripAllFrame(start, e, types);
      writeLog := writeLog + removed;
      ghost var bare := State();
      var n := 0;
      while n < |unindex|
        invariant 0 <= n <= |unindex| && State() == bare.(owners := derivedOwners)
        invariant DisownEach(derivedOwners, e, unindex[n..]) == DisownEach(start.owners, e, unindex)
      {
        assert unindex[n..][0] == unindex[n] && unindex[n..][1..] == unindex[n + 1..];
        UnindexDerived(unindex[n].0, unindex[n].1, e);
        n := n + 1;
      }
      assert unindex[n..] == [];
      DisownedIs(start.owners, start, e, types);
    }

    method RemoveFromStores(e: Entity, types: seq<TypeId>)
      returns (unindex: seq<(Owner, TypeId)>, owners: seq<Owner>, removed: seq<(TypeId, Entity)>)
      requires Iteration.Distinct(types)
      modifies this`revision, this`mutations, this`stores
      ensures State() == R.StripAll(old(State()), e, types)
      ensures unindex == Unindex(old(State()), e, types) && owners == R.OwnersOf(old(State()), e, types)
      ensures removed == R.Carried(old(State()), e, types)
    {
      ghost var start := State();
      unindex, owners, removed := [], [], [];
      var n := 0;
      while n < |types|
        invariant 0 <= n <= |types|
        invariant R.StripAll(State(), e, types[n..]) == R.StripAll(start, e, types)
        invariant forall i :: n <= i < |types| ==> StoreOf(State(), types[i]) == StoreOf(start, types[i])
        invariant Reports(start, e, types, n, unindex, owners, removed)
      {
        var t := types[n];
        assert types[n..][0] == t && types[n..][1..] == types[n + 1..];
        var entry := StripStore(t, e);
        assert entry == Lookup(start, t, e);
        ReportsNext(start, e, types, n, unindex, owners, removed);
        if entry.Some? {
          removed := removed + [(t, e)];
          if entry.value.owner.Some? {
            unindex, owners := unindex + [(entry.value.owner.value, t)], owners + [entry.value.owner.value];
          }
        }
        n := n + 1;
      }
      assert types[n..] == [];
    }

    /** `Store::remove_entity` on one store. */
    method StripStore(t: TypeId, e: Entity) returns (entry: Option<Entry>)
      modifies this`revision, this`mutations, this`stores
      ensures State() == R.Strip(old(State()), t, e) && entry == Lookup(old(State()), t, e)
      ensures forall u :: u != t ==> StoreOf(State(), u) == StoreOf(old(State()), u)
    {
      if t !in stores || e !in stores[t].entries {
        return None;
      }
      var store := stores[t];
      entry := Some(store.entries[e]);
      revision := revision + 1;
      mutations := mutations + 1;
      stores := stores[t := Store(store.entries - {e}, UnindexStamp(store.index, e, entry.value.stamp), Max(store.watermark, revision))];
    }

    /** Detaches the removed entity's own edges. */
    method DetachEdges(e: Entity, edges: seq<(TypeId, Entity)>)
      requires schema.Valid() && forall i :: 0 <= i < |edges| ==> schema.Kind(edges[i].0).Inverse?
      modifies this
      ensures State() == R.Detach(schema, old(State()), e, edges) && pendingDerivedFrom == old(pendingDerivedFrom)
    {
      ghost var start := State();
      var n := 0;
      while n < |edges|
        invariant 0 <= n <= |edges| && pendingDerivedFrom == old(pendingDerivedFrom)
        invariant R.Detach(schema, State(), e, edges[n..]) == R.Detach(schema, start, e, edges)
      {
        assert edges[n..][0] == edges[n] && edges[n..][1..] == edges[n + 1..];
        RelationshipRemoveMember(edges[n].0, e, edges[n].1);
        n := n + 1;
      }
      assert edges[n..] == [];
    }

    /** Retracts the edges that pointed at the removed entity. */
    method RetractEdges(retractions: seq<(TypeId, Entity)>)
      requires schema.Valid()
      modifies this
      ensures State() == R.Retract(schema, old(State()), retractions) && pendingDerivedFrom == old(pendingDerivedFrom)
    {
      ghost var start := State();
      var n := 0;
      while n < |retractions|
        invariant 0 <= n <= |retractions| && pendingDerivedFrom == old(pendingDerivedFrom)
        invariant R.Retract(schema, State(), retractions[n..]) == R.Retract(schema, start, retractions)
      {
        assert retractions[n..][0] == retractions[n] && retractions[n..][1..] == retractions[n + 1..];
        var _ := RemoveComponent(retractions[n].0, retractions[n].1, None);
        n := n + 1;
      }
      assert retractions[n..] == [];
    }

    // ---- in-place writes ----

    /** Recomputes one written row's stamp; says nothing when the entity is gone. */
    method ReconcileEntry(t: TypeId, e: Entity)
      requires t in stores
      modifies this`revision, this`stores
      ensures State() == if Has(old(State()), t, e) then P.Restamped(schema, old(State()), t, e, Lookup(old(State()), t, e).value.value) else old(State())
    {
      if e !in stores[t].entries {
        return;
      }
      var store := stores[t];
      var entry := store.entries[e];
      var before, after := entry.stamp, entry.value.stamp;
      var changed := schema.Tracked(t) && (before.None? || before != after);
      var at, mark := entry.revision, store.watermark;
      if changed {
        revision := revision + 1;
        at, mark := revision, Max(store.watermark, revision);
      }
      var index := store.index;
      if before != after {
        index := IndexStamp(UnindexStamp(index, e, before), e, after);
      }
      stores := stores[t := Store(store.entries[e := entry.(stamp := after, revision := at)], index, mark)];
    }

    method ReconcileWritten(writes: seq<(TypeId, Entity)>)
      modifies this
      ensures State() == P.ReconcileAll(schema, old(State()), writes) && pendingDerivedFrom == old(pendingDerivedFrom)
    {
      ghost var start := State();
      var n := 0;
      while n < |writes|
        invariant 0 <= n <= |writes| && pendingDerivedFrom == old(pendingDerivedFrom)
        invariant P.ReconcileAll(schema, State(), writes[n..]) == P.ReconcileAll(schema, start, writes)
      {
        assert writes[n..][0] == writes[n] && writes[n..][1..] == writes[n + 1..];
        var (t, e) := writes[n];
        if t in stores {
          ReconcileEntry(t, e);
          writeLog := writeLog + [(t, e)];
        }
        n := n + 1;
      }
      assert writes[n..] == [];
    }

    /** An external mutation: `v` is the value its closure leaves behind. */
    method UpdateComponentLive(t: TypeId, e: Entity, v: Value) returns (changed: Option<bool>)
      modifies this
      ensures State() == P.Update(schema, old(State()), t, e, v) && pendingDerivedFrom == old(pendingDerivedFrom)
      ensures changed.Some? <==> Has(old(State()), t, e)
    {
      if t !in stores || e !in stores[t].entries {
        return None;
      }
      var store := stores[t];
      var entry := store.entries[e];
      var nextRevision := revision + 1;
      var moved := schema.Tracked(t) && (entry.stamp.None? || entry.stamp != v.stamp);
      var index := store.index;
      if entry.stamp != v.stamp {
        index := IndexStamp(UnindexStamp(index, e, entry.stamp), e, v.stamp);
      }
      var at, mark := entry.revision, store.watermark;
      if moved {
        at, mark := nextRevision, Max(store.watermark, nextRevision);
        writeLog := writeLog + [(t, e)];
        revision := nextRevision;
      }
      stores := stores[t := Store(store.entries[e := entry.(value := v, stamp := v.stamp, revision := at)], index, mark)];
      changed := Some(moved);
    }
  }

  // ---- buffers ----

  /** A system's commands never name an inverse component. */
  predicate Writable(sc: Schema, c: O.Command) {
    !c.Despawn? ==> !sc.Kind(c.t).Inverse?
  }

  /** The same command, but for the order in which a despawn visits the stores. */
  predicate SameCommand(c: O.Command, d: O.Command) {
    if c.Despawn? then d.Despawn? && d.e == c.e else d == c
  }

  lemma {:induction false} OneMoreCommand(sc: Schema, cs: seq<O.Command>, c: O.Command)
    ensures O.Immediate(sc, cs + [c]) == O.Immediate(sc, cs) + if O.Anchors(sc, c) then [] else [c]
    ensures O.Deferred(sc, cs + [c]) == O.Deferred(sc, cs) + if O.Anchors(sc, c) then [c] else []
  {
    if cs == [] {
      assert (cs + [c])[1..] == [];
    } else {
      assert (cs + [c])[1..] == cs[1..] + [c];
      OneMoreCommand(sc, cs[1..], c);
    }
  }

  lemma {:induction false} LegalAppend(sc: Schema, w: WorldState, a: seq<O.Command>, b: seq<O.Command>, o: Owner)
    requires O.LegalSteps(sc, w, a, o) && O.LegalSteps(sc, O.Steps(sc, w, a, o), b, o)
    ensures O.LegalSteps(sc, w, a + b, o)
    decreases |a|
  {
    if a == [] {
      assert a + b == b;
    } else {
      assert (a + b)[1..] == a[1..] + b;
      LegalAppend(sc, O.Step(sc, w, a[0], o), a[1..], b, o);
    }
  }

  /** Performing one more command extends what has been applied, or what has been put aside. */
  lemma PerformedNext(sc: Schema, w: WorldState, done: seq<O.Command>, c: O.Command, o: Owner)
    requires O.LegalSteps(sc, w, O.Immediate(sc, done), o)
    requires O.Anchors(sc, c) || O.Legal(sc, O.Steps(sc, w, O.Immediate(sc, done), o), c)
    ensures var now, next := O.Steps(sc, w, O.Immediate(sc, done), o), O.Immediate(sc, done + [c]);
      && O.Steps(sc, w, next, o) == (if O.Anchors(sc, c) then now else O.Step(sc, now, c, o))
      && O.LegalSteps(sc, w, next, o)
      && O.Deferred(sc, done + [c]) == O.Deferred(sc, done) + if O.Anchors(sc, c) then [c] else []
  {
    OneMoreCommand(sc, done, c);
    if O.Anchors(sc, c) {
      assert O.Immediate(sc, done) + [] == O.Immediate(sc, done);
    } else {
      O.StepsAppend(sc, w, O.Immediate(sc, done), [c], o);
      assert [c][1..] == [];
      LegalAppend(sc, w, O.Immediate(sc, done), [c], o);
    }
  }

  lemma {:induction false} DeferredAreAnchors(sc: Schema, cs: seq<O.Command>)
    ensures forall i :: 0 <= i < |O.Deferred(sc, cs)| ==> O.Anchors(sc, O.Deferred(sc, cs)[i])
  {
    if cs != [] { DeferredAreAnchors(sc, cs[1..]); }
  }

  lemma {:induction false} AnchorsAreLegal(sc: Schema, w: WorldState, cs: seq<O.Command>, o: Owner)
    requires sc.Valid() && forall i :: 0 <= i < |cs| ==> O.Anchors(sc, cs[i])
    ensures O.LegalSteps(sc, w, cs, o)
    decreases |cs|
  {
    if cs != [] {
      assert O.Anchors(sc, cs[0]);
      AnchorsAreLegal(sc, O.Step(sc, w, cs[0], o), cs[1..], o);
    }
  }

  // ---- whole entities ----

  /** What the strip has collected from the first `n` stores; the rest is still to come. */
  ghost predicate Reports(w: WorldState, e: Entity, types: seq<TypeId>, n: nat, unindex: seq<(Owner, TypeId)>, owners: seq<Owner>,
                          removed: seq<(TypeId, Entity)>)
    requires n <= |types|
  {
    && unindex + Unindex(w, e, types[n..]) == Unindex(w, e, types)
    && owners + R.OwnersOf(w, e, types[n..]) == R.OwnersOf(w, e, types)
    && removed + R.Carried(w, e, types[n..]) == R.Carried(w, e, types)
  }

  lemma ReportsNext(w: WorldState, e: Entity, types: seq<TypeId>, n: nat, unindex: seq<(Owner, TypeId)>, owners: seq<Owner>,
                    removed: seq<(TypeId, Entity)>)
    requires n < |types| && Reports(w, e, types, n, unindex, owners, removed)
    ensures var o := OwnerAt(w, types[n], e);
      Reports(w, e, types, n + 1, if o.Some? then unindex + [(o.value, types[n])] else unindex, if o.Some? then owners + [o.value] else owners,
              if Has(w, types[n], e) then removed + [(types[n], e)] else removed)
  {
    assert types[n..][0] == types[n] && types[n..][1..] == types[n + 1..];
  }

  function DisownEach(owners: map<Owner, set<(TypeId, Entity)>>, e: Entity, unindex: seq<(Owner, TypeId)>): map<Owner, set<(TypeId, Entity)>>
    decreases |unindex|
  {
    if unindex == [] then owners else DisownEach(Disown(owners, unindex[0].0, unindex[0].1, e), e, unindex[1..])
  }

  function Unindex(w: WorldState, e: Entity, types: seq<TypeId>): seq<(Owner, TypeId)> {
    if types == [] then []
    else (if OwnerAt(w, types[0], e).Some? then [(OwnerAt(w, types[0], e).value, types[0])] else []) + Unindex(w, e, types[1..])
  }

  lemma {:induction false} DisownedIs(owners: map<Owner, set<(TypeId, Entity)>>, w: WorldState, e: Entity, types: seq<TypeId>)
    ensures DisownEach(owners, e, Unindex(w, e, types)) == R.DisownAll(owners, w, e, types)
    decreases |types|
  {
    if types != [] {
      var o := OwnerAt(w, types[0], e);
      DisownedIs(if o.Some? then Disown(owners, o.value, types[0], e) else owners, w, e, types[1..]);
      if o.Some? {
        assert Unindex(w, e, types)[1..] == Unindex(w, e, types[1..]);
      } else {
        assert Unindex(w, e, types) == Unindex(w, e, types[1..]);
      }
    }
  }

  lemma {:induction false} StripAllFrame(w: WorldState, e: Entity, types: seq<TypeId>)
    ensures R.StripAll(w, e, types).(revision := w.revision, mutations := w.mutations, stores := w.stores) == w
    decreases |types|
  {
    if types != [] { StripAllFrame(R.Strip(w, types[0], e), e, types[1..]); }
  }
}
