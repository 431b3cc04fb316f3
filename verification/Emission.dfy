/**
 What a commit leaves, entry by entry: a reading of the command buffer that follows one component of one entity and knows
 nothing of stores, indexes or sweeps.
 */
module Emission {
  import opened Ids
  import opened World
  import opened WorldLemmas
  import opened Output
  import opened Planners
  import AS = AnchorSweeps
  import M = Mutators
  import R = Removal
  import PH = Phases

  /** A component held: its value, its owner, and whether it is an output of the committing invocation from an earlier run. */
  datatype Held = Held(value: Value, owner: Option<Owner>, stale: bool)

  /** A value but for what a commit fills in itself: the revisions of a `DerivedFrom`'s anchors, and its stamp. */
  function Given(sc: Schema, t: TypeId, v: Value): Value {
    if t == sc.derivedFrom
    then v.(anchors := seq(|v.anchors|, i requires 0 <= i < |v.anchors| => v.anchors[i].(revision := None)), stamp := None)
    else v
  }

  /** What one command does to a component: put it there, drop it, or take it along with an entity. */
  function Follow(sc: Schema, c: Command, o: Owner, t: TypeId, e: Entity, x: Option<Held>): Option<Held> {
    match c
    case Put(u, f, v) => if (u, f) == (t, e) then Some(Held(Given(sc, t, v), Some(o), false)) else x
    case Drop(u, f) => if (u, f) == (t, e) then None else x
    case Despawn(f, _) => if f == e || (x.Some? && EdgeOf(sc, t, x.value.value) == Some(f)) then None else x
  }

  function FollowAll(sc: Schema, cs: seq<Command>, o: Owner, t: TypeId, e: Entity, x: Option<Held>): Option<Held>
    decreases |cs|
  {
    if cs == [] then x else FollowAll(sc, cs[1..], o, t, e, Follow(sc, cs[0], o, t, e, x))
  }

  /** What the committing invocation left there earlier and has not put there again goes in the end. */
  function Swept(x: Option<Held>): Option<Held> {
    if x.Some? && x.value.stale then None else x
  }

  function HeldAt(sc: Schema, w: WorldState, o: Owner, t: TypeId, e: Entity): Option<Held> {
    if Has(w, t, e)
    then Some(Held(Given(sc, t, Lookup(w, t, e).value.value), OwnerAt(w, t, e), OwnerAt(w, t, e) == Some(o) && !Indexed(w, o, t, e)))
    else None
  }

  /** As a commit of `o` finds it: everything of its own is from an earlier run. */
  function Found(sc: Schema, w: WorldState, o: Owner, t: TypeId, e: Entity): Option<Held> {
    if Has(w, t, e) then Some(Held(Given(sc, t, Lookup(w, t, e).value.value), OwnerAt(w, t, e), OwnerAt(w, t, e) == Some(o))) else None
  }

  lemma CaptureGives(sc: Schema, w: WorldState, v: Value)
    ensures Given(sc, sc.derivedFrom, Capture(sc, w, v)) == Given(sc, sc.derivedFrom, v)
  {}

  lemma PutFollows(sc: Schema, w: WorldState, c: Command, o: Owner, emitted: set<(TypeId, Entity)>, loose: Loose, t: TypeId, e: Entity)
    requires Replacing(sc, w, o, emitted, loose) && Legal(sc, w, c) && c.Put? && !sc.Kind(t).Inverse?
    ensures HeldAt(sc, Step(sc, w, c, o), o, t, e) == Follow(sc, c, o, t, e, HeldAt(sc, w, o, t, e))
  {
    var v := if c.t == sc.derivedFrom then Capture(sc, w, c.v) else c.v;
    M.InsertReads(sc, w, c.t, c.e, v, Some(o), loose);
    InsertIndexes(sc, w, c.t, c.e, v, o, loose);
    if c.t == sc.derivedFrom { CaptureGives(sc, w, c.v); }
  }

  /** A removal leaves or takes an entry; what it leaves is indexed as it was. */
  lemma SurvivorFollows(sc: Schema, w: WorldState, w': WorldState, o: Owner, emitted: set<(TypeId, Entity)>, left: set<(TypeId, Entity)>, loose: Loose, t: TypeId, e: Entity)
    requires Replacing(sc, w, o, emitted, loose) && Replacing(sc, w', o, left, loose) && left == Present(w', emitted)
    requires Lookup(w', t, e) == Lookup(w, t, e)
    ensures HeldAt(sc, w', o, t, e) == HeldAt(sc, w, o, t, e)
  {
    if Has(w, t, e) { assert Indexed(w', o, t, e) <==> Indexed(w, o, t, e); }
  }

  lemma RemovalFollows(sc: Schema, w: WorldState, c: Command, o: Owner, emitted: set<(TypeId, Entity)>, loose: Loose, t: TypeId, e: Entity)
    requires Replacing(sc, w, o, emitted, loose) && Legal(sc, w, c) && !c.Put? && !sc.Kind(t).Inverse?
    ensures HeldAt(sc, Step(sc, w, c, o), o, t, e) == Follow(sc, c, o, t, e, HeldAt(sc, w, o, t, e))
  {
    var w' := Step(sc, w, c, o);
    StepReplaces(sc, w, c, o, emitted, loose);
    match c {
      case Drop(u, f) => M.RemoveComponentKeepsInv(sc, w, u, f, Some(o), loose);
      case Despawn(f, order) =>
        R.RemoveEntityKeepsInv(sc, w, f, order, loose);
        PlainHasNoEdge(sc, w, t, e);
        if EdgeAt(sc, w, t, e) == Some(f) { assert EdgeAt(sc, w', t, e) != Some(f); }
    }
    if Lookup(w', t, e) == Lookup(w, t, e) {
      SurvivorFollows(sc, w, w', o, emitted, Present(w', emitted), loose, t, e);
    }
  }

  lemma PlainHasNoEdge(sc: Schema, w: WorldState, t: TypeId, e: Entity)
    requires sc.Valid()
    ensures Has(w, t, e) ==> EdgeOf(sc, t, Given(sc, t, Lookup(w, t, e).value.value)) == EdgeAt(sc, w, t, e)
  {}

  lemma {:induction false} StepsFollow(sc: Schema, w: WorldState, cs: seq<Command>, o: Owner, emitted: set<(TypeId, Entity)>, loose: Loose, t: TypeId, e: Entity)
    requires Replacing(sc, w, o, emitted, loose) && LegalSteps(sc, w, cs, o) && !sc.Kind(t).Inverse?
    ensures HeldAt(sc, Steps(sc, w, cs, o), o, t, e) == FollowAll(sc, cs, o, t, e, HeldAt(sc, w, o, t, e))
    decreases |cs|
  {
    if cs != [] {
      var c := cs[0];
      var next := Step(sc, w, c, o);
      if c.Put? { PutFollows(sc, w, c, o, emitted, loose, t, e); } else { RemovalFollows(sc, w, c, o, emitted, loose, t, e); }
      StepReplaces(sc, w, c, o, emitted, loose);
      var written := if c.Put? then emitted + {(c.t, c.e)} else emitted;
      StepsFollow(sc, next, cs[1..], o, Present(next, written), if c.Put? then loose - {(o, c.t, c.e)} else loose, t, e);
    }
  }

  lemma TakenIsFound(sc: Schema, w: WorldState, o: Owner, t: TypeId, e: Entity)
    ensures HeldAt(sc, Take(w, o), o, t, e) == Found(sc, w, o, t, e)
  {
    assert Lookup(Take(w, o), t, e) == Lookup(w, t, e);
    assert !Indexed(Take(w, o), o, t, e);
  }

  lemma SweptIsSwept(sc: Schema, w: WorldState, o: Owner, previous: seq<(TypeId, Entity)>, loose: Loose, t: TypeId, e: Entity)
    requires Inv(sc, w, loose) && !sc.Kind(t).Inverse? && forall i :: 0 <= i < |previous| ==> !sc.Kind(previous[i].0).Inverse?
    requires forall x :: x in loose ==> x.0 == o && (x.1, x.2) in previous
    ensures HeldAt(sc, Sweep(sc, w, o, previous), o, t, e) == Swept(HeldAt(sc, w, o, t, e))
  {
    AS.SweepReads(sc, w, o, previous, loose);
    if Has(w, t, e) && OwnerAt(w, t, e) == Some(o) && !Indexed(w, o, t, e) {
      assert (o, t, e) in loose;
      assert (t, e) in previous;
    }
  }

  /**
   Whatever a buffer holds: a commit leaves of every ordinary component exactly what following its commands one by one, the
   anchor inserts last, leaves; less what the invocation had put there earlier and not again. Values and owners included.
   */
  lemma CommitLeavesExactly(sc: Schema, w: WorldState, cs: seq<Command>, o: Owner, previous: seq<(TypeId, Entity)>, t: TypeId, e: Entity)
    requires Inv(sc, w, {}) && Lists(previous, Outputs(w, o)) && LegalSteps(sc, Take(w, o), Reordered(sc, cs), o) && !sc.Kind(t).Inverse?
    ensures HeldAt(sc, Replace(sc, w, cs, o, previous), o, t, e) == Swept(FollowAll(sc, Reordered(sc, cs), o, t, e, Found(sc, w, o, t, e)))
  {
    var taken := Take(w, o);
    var loose := set p | p in Outputs(w, o) :: (o, p.0, p.1);
    TakeLoosens(sc, w, o);
    TakenIsFound(sc, w, o, t, e);
    DeferralReorders(sc, taken, cs, o);
    var left := StepsReplace(sc, taken, Reordered(sc, cs), o, {}, loose);
    StepsFollow(sc, taken, Reordered(sc, cs), o, {}, loose, t, e);
    OutputsAreOrdinary(sc, w, o, previous);
    forall x | x in left ensures x.0 == o && (x.1, x.2) in previous {
      var p :| p in Outputs(w, o) && x == (o, p.0, p.1);
      assert p == (x.1, x.2);
    }
    SweptIsSwept(sc, ApplyBuffer(sc, taken, cs, o), o, previous, left, t, e);
  }

  /** The order commands take effect in: the buffer's own, with the `DerivedFrom` inserts, and nothing else, put off to the end. */
  lemma {:induction false} AnchorsComeLast(sc: Schema, cs: seq<Command>)
    ensures Reordered(sc, cs) == Immediate(sc, cs) + Deferred(sc, cs) && multiset(Reordered(sc, cs)) == multiset(cs)
    ensures forall c :: c in Immediate(sc, cs) ==> !(c.Put? && c.t == sc.derivedFrom)
    ensures forall c :: c in Deferred(sc, cs) ==> c.Put? && c.t == sc.derivedFrom
  {
    if cs != [] {
      AnchorsComeLast(sc, cs[1..]);
      assert cs == [cs[0]] + cs[1..];
    }
  }

  /**
   The revision a write leaves: the old one if the component is tracked and its stamp is there and the same, and otherwise
   one above every earlier revision, which its store's watermark takes too; so whoever depends on the entry is told of it.
   */
  lemma PutRevises(sc: Schema, w: WorldState, c: Command, o: Owner, loose: Loose)
    requires Inv(sc, w, loose) && c.Put? && !sc.Kind(c.t).Inverse? && c.t != sc.derivedFrom
    ensures var w' := Step(sc, w, c, o);
      && Has(w', c.t, c.e) && StampAt(w', c.t, c.e) == c.v.stamp
      && (if sc.Tracked(c.t) && c.v.stamp.Some? && StampAt(w, c.t, c.e) == c.v.stamp then Rev(w', c.t, c.e) == Rev(w, c.t, c.e)
          else Rev(w', c.t, c.e).value > w.revision && Mark(w', c.t) > w.revision)
  {
    var w' := Step(sc, w, c, o);
    M.InsertReads(sc, w, c.t, c.e, c.v, Some(o), loose);
    M.InsertKeepsInv(sc, w, c.t, c.e, c.v, Some(o), loose);
    assert Lookup(w', c.t, c.e).value.revision <= Mark(w', c.t);
  }

  // ---- a settle phase's commit ----

  /** The command removes the component: by name, with its entity, or with the entity its edge points at. */
  predicate Removes(sc: Schema, c: Command, t: TypeId, e: Entity, x: Held) {
    (c.Drop? && (c.t, c.e) == (t, e)) || (c.Despawn? && (c.e == e || EdgeOf(sc, t, x.value) == Some(c.e)))
  }

  lemma {:induction false} FollowRemovals(sc: Schema, cs: seq<Command>, o: Owner, t: TypeId, e: Entity, x: Option<Held>)
    requires forall c :: c in cs ==> !c.Put?
    ensures FollowAll(sc, cs, o, t, e, x) ==
              if x.Some? && exists c :: c in cs && Removes(sc, c, t, e, x.value) then None else x
    decreases |cs|
  {
    if cs != [] {
      assert cs[0] in cs && forall c :: c in cs[1..] ==> c in cs;
      assert forall c :: c in cs ==> c == cs[0] || c in cs[1..];
      FollowRemovals(sc, cs[1..], o, t, e, Follow(sc, cs[0], o, t, e, x));
    }
  }

  lemma {:induction false} KeptAre(cs: seq<Command>)
    ensures forall c :: c in PH.Kept(Some(Settle), cs) <==> c in cs && !c.Put?
  {
    if cs != [] { KeptAre(cs[1..]); }
  }

  /**
   A settle phase's commit only removes, and removes all it is told to: an ordinary component is there afterwards, with value
   and owner as they were, exactly if it was there, no command of the buffer removes it, and it is no earlier output of the
   same invocation. Nothing that the buffer puts anywhere shows.
   */
  lemma SettleCommitOnlyRemoves(sc: Schema, w: WorldState, cs: seq<Command>, o: Owner, previous: seq<(TypeId, Entity)>, t: TypeId, e: Entity)
    requires Inv(sc, w, {}) && PH.MayReturn(sc, w, Some(Settle), o, cs, previous) && !sc.Kind(t).Inverse?
    ensures var w', x := Replace(sc, w, PH.Kept(Some(Settle), cs), o, previous), Found(sc, w, o, t, e);
      HeldAt(sc, w', o, t, e) == if x.Some? && (x.value.stale || exists c :: c in cs && Removes(sc, c, t, e, x.value)) then None else x
  {
    var kept := PH.Kept(Some(Settle), cs);
    KeptAre(cs);
    forall i | 0 <= i < |kept| ensures !Anchors(sc, kept[i]) { assert kept[i] in kept; }
    NoAnchorsNothingDeferred(sc, kept);
    CommitLeavesExactly(sc, w, kept, o, previous, t, e);
    var x := Found(sc, w, o, t, e);
    FollowRemovals(sc, kept, o, t, e, x);
    if x.Some? {
      assert (exists c :: c in cs && Removes(sc, c, t, e, x.value)) <==> exists c :: c in kept && Removes(sc, c, t, e, x.value);
    }
  }

  /** In any other phase, and for hooks, the buffer is kept whole. */
  lemma KeptWhole(phase: Option<Phase>, cs: seq<Command>)
    requires phase != Some(Settle)
    ensures PH.Kept(phase, cs) == cs
  {}
}
