/**
 What the sweep that ends an accepted output does to the anchors its flush has just captured: they were exact in the
 fully written world, and the sweep can take away what made them so.
 */
module AnchorSweeps {
  import opened Ids
  import opened Ascending
  import opened World
  import opened WorldLemmas
  import opened Output
  import H = Handles
  import M = Mutators
  import WR = WorldRuns

  // ---- what a sweep reads ----

  /** A previous output that the owner still carries and has not emitted again. */
  predicate Swept(w: WorldState, o: Owner, previous: seq<(TypeId, Entity)>, t: TypeId, e: Entity) {
    (t, e) in previous && OwnerAt(w, t, e) == Some(o) && !Indexed(w, o, t, e)
  }

  function SweepStep(sc: Schema, w: WorldState, o: Owner, p: (TypeId, Entity)): WorldState {
    if Indexed(w, o, p.0, p.1) then w else M.RemoveDerivedEntry(sc, w, p.0, p.1, o)
  }

  lemma SweepStepReads(sc: Schema, w: WorldState, o: Owner, p: (TypeId, Entity), loose: Loose)
    requires Inv(sc, w, loose) && !sc.Kind(p.0).Inverse?
    ensures var w' := SweepStep(sc, w, o, p);
      && Inv(sc, w', loose) && Evolves(sc, w, w') && w'.owners == w.owners
      && (Swept(w, o, [p], p.0, p.1) ==> !Has(w', p.0, p.1))
      && (forall t, e: Entity :: !sc.Kind(t).Inverse? && !Swept(w, o, [p], t, e) ==> Lookup(w', t, e) == Lookup(w, t, e))
  {
    EvolvesReflexive(sc, w);
    if !Indexed(w, o, p.0, p.1) {
      M.RemoveDerivedEntryKeepsInv(sc, w, p.0, p.1, o, loose);
      RemoveDerivedKeepsOwners(sc, w, p.0, p.1, o, loose);
      LooserIsInv(sc, SweepStep(sc, w, o, p), loose - {(o, p.0, p.1)}, loose);
    }
  }

  lemma LooserIsInv(sc: Schema, w: WorldState, a: Loose, b: Loose)
    requires Inv(sc, w, a) && a <= b
    ensures Inv(sc, w, b)
  {}

  /** Of the ordinary entries a sweep removes exactly the swept outputs, and changes none. */
  lemma {:induction false} SweepReads(sc: Schema, w: WorldState, o: Owner, previous: seq<(TypeId, Entity)>, loose: Loose)
    requires Inv(sc, w, loose) && forall i :: 0 <= i < |previous| ==> !sc.Kind(previous[i].0).Inverse?
    ensures var w' := Sweep(sc, w, o, previous);
      && Evolves(sc, w, w') && w'.owners == w.owners
      && (forall t, e: Entity :: !sc.Kind(t).Inverse? ==>
            if Swept(w, o, previous, t, e) then !Has(w', t, e) else Lookup(w', t, e) == Lookup(w, t, e))
    decreases |previous|
  {
    EvolvesReflexive(sc, w);
    if previous != [] {
      var p, rest := previous[0], previous[1..];
      var next := SweepStep(sc, w, o, p);
      SweepStepReads(sc, w, o, p, loose);
      assert forall i :: 0 <= i < |rest| ==> rest[i] == previous[i + 1];
      SweepReads(sc, next, o, rest, loose);
      EvolvesTransitive(sc, w, next, Sweep(sc, w, o, previous));
      forall t, e: Entity | !sc.Kind(t).Inverse?
        ensures if Swept(w, o, previous, t, e) then !Has(Sweep(sc, w, o, previous), t, e)
                else Lookup(Sweep(sc, w, o, previous), t, e) == Lookup(w, t, e)
      {
        SweptHereOrLater(sc, w, next, o, previous, t, e);
      }
    }
  }

  lemma SweptHereOrLater(sc: Schema, w: WorldState, next: WorldState, o: Owner, previous: seq<(TypeId, Entity)>, t: TypeId, e: Entity)
    requires previous != [] && next.owners == w.owners && !sc.Kind(t).Inverse?
    requires Swept(w, o, [previous[0]], t, e) ==> !Has(next, t, e)
    requires !Swept(w, o, [previous[0]], t, e) ==> Lookup(next, t, e) == Lookup(w, t, e)
    ensures Swept(w, o, previous, t, e) <==> Swept(w, o, [previous[0]], t, e) || Swept(next, o, previous[1..], t, e)
    ensures Swept(w, o, [previous[0]], t, e) ==> !Swept(next, o, previous[1..], t, e)
  {
    assert (t, e) in previous <==> (t, e) == previous[0] || (t, e) in previous[1..];
  }

  // ---- inverses ----

  /** No swept edge points at `f`. */
  ghost predicate Spared(sc: Schema, w: WorldState, o: Owner, previous: seq<(TypeId, Entity)>, f: Entity) {
    forall t, s: Entity :: Swept(w, o, previous, t, s) ==> EdgeAt(sc, w, t, s) != Some(f)
  }

  lemma RelinkSpares(sc: Schema, w: WorldState, t: TypeId, e: Entity, before: Option<Entity>, u: TypeId, f: Entity)
    requires before != Some(f)
    ensures Lookup(M.Relink(sc, w, t, e, before, None), u, f) == Lookup(w, u, f)
  {}

  lemma SweepStepSpares(sc: Schema, w: WorldState, o: Owner, p: (TypeId, Entity), v: TypeId, f: Entity)
    requires sc.Kind(v).Inverse? && !sc.Kind(p.0).Inverse? && (Swept(w, o, [p], p.0, p.1) ==> EdgeAt(sc, w, p.0, p.1) != Some(f))
    ensures Lookup(SweepStep(sc, w, o, p), v, f) == Lookup(w, v, f)
  {
    if Swept(w, o, [p], p.0, p.1) {
      EraseReads(w, p.0, p.1);
      RelinkSpares(sc, Erase(w, p.0, p.1), p.0, p.1, EdgeAt(sc, w, p.0, p.1), v, f);
    }
  }

  /** An inverse no swept edge points at is left as it is. */
  lemma {:induction false} SweepSpares(sc: Schema, w: WorldState, o: Owner, previous: seq<(TypeId, Entity)>, loose: Loose, v: TypeId, f: Entity)
    requires Inv(sc, w, loose) && (forall i :: 0 <= i < |previous| ==> !sc.Kind(previous[i].0).Inverse?)
    requires sc.Kind(v).Inverse? && Spared(sc, w, o, previous, f)
    ensures Lookup(Sweep(sc, w, o, previous), v, f) == Lookup(w, v, f)
    decreases |previous|
  {
    if previous != [] {
      var p, rest := previous[0], previous[1..];
      var next := SweepStep(sc, w, o, p);
      SweepStepReads(sc, w, o, p, loose);
      assert forall i :: 0 <= i < |rest| ==> rest[i] == previous[i + 1];
      assert p in previous;
      assert Swept(w, o, [p], p.0, p.1) ==> Swept(w, o, previous, p.0, p.1);
      SweepStepSpares(sc, w, o, p, v, f);
      forall t, s: Entity | Swept(next, o, rest, t, s) ensures EdgeAt(sc, next, t, s) != Some(f) {
        if sc.Kind(t).Edge? {
          SweptHereOrLater(sc, w, next, o, previous, t, s);
          assert Swept(w, o, previous, t, s);
        }
      }
      SweepSpares(sc, next, o, rest, loose, v, f);
    }
  }

  // ---- revisions of entities ----

  /** `r` is the newest revision of what is tracked on `f`. */
  ghost predicate Newest(sc: Schema, w: WorldState, f: Entity, r: Option<nat>) {
    && (forall t :: sc.Tracked(t) && Rev(w, t, f).Some? ==> r.Some? && Rev(w, t, f).value <= r.value)
    && (r.Some? ==> exists t :: sc.Tracked(t) && Rev(w, t, f) == r)
  }

  lemma EntityRevisionIsNewest(sc: Schema, w: WorldState, f: Entity)
    ensures Newest(sc, w, f, EntityRevision(sc, w, f))
  {
    var revisions := set t | t in w.stores && sc.Tracked(t) && Has(w, t, f) :: Lookup(w, t, f).value.revision;
    var all := Sorted(revisions);
    forall t | sc.Tracked(t) && Rev(w, t, f).Some? ensures revisions != {} && Rev(w, t, f).value <= all[|all| - 1] {
      assert t in w.stores;
      assert Lookup(w, t, f).value.revision in revisions;
      assert Lookup(w, t, f).value.revision in all;
    }
    if revisions != {} {
      var x :| x in revisions;
      assert x in all;
      assert all[|all| - 1] in all;
    }
  }

  /** Nothing tracked on `f` has been written again, and some tracked component at its newest revision `r` is still there. */
  ghost predicate Stands(sc: Schema, w: WorldState, w': WorldState, f: Entity, r: Option<nat>) {
    && (forall t :: sc.Tracked(t) && Rev(w', t, f).Some? ==> Rev(w', t, f) == Rev(w, t, f))
    && (r.Some? ==> exists t :: sc.Tracked(t) && Rev(w, t, f) == r && Rev(w', t, f) == r)
  }

  lemma NewestStandsIff(sc: Schema, w: WorldState, w': WorldState, f: Entity, r: Option<nat>, r': Option<nat>)
    requires RevisionsBounded(w) && RevsGrow(w, w') && Newest(sc, w, f, r) && Newest(sc, w', f, r')
    ensures r == r' <==> Stands(sc, w, w', f, r)
  {
    forall t ensures Rev(w, t, f).Some? ==> Rev(w, t, f).value <= w.revision { WR.RevisionWithin(w, t, f); }
    if r == r' {
      if r.Some? {
        var t :| sc.Tracked(t) && Rev(w', t, f) == r';
        var u :| sc.Tracked(u) && Rev(w, u, f) == r;
        assert Rev(w, t, f) == r;
      }
    } else if Stands(sc, w, w', f, r) {
      assert false;
    }
  }

  /** An entity's revision outlives any stretch of a run exactly if it stands. */
  lemma RevisionStandsIff(sc: Schema, w: WorldState, w': WorldState, f: Entity)
    requires RevisionsBounded(w) && Evolves(sc, w, w')
    ensures EntityRevision(sc, w', f) == EntityRevision(sc, w, f) <==> Stands(sc, w, w', f, EntityRevision(sc, w, f))
  {
    EntityRevisionIsNewest(sc, w, f);
    EntityRevisionIsNewest(sc, w', f);
    NewestStandsIff(sc, w, w', f, EntityRevision(sc, w, f), EntityRevision(sc, w', f));
  }

  // ---- a whole accepted output ----

  /** The world the flush captured its anchors in. */
  function Flushed(sc: Schema, w: WorldState, cs: seq<Command>, o: Owner): WorldState {
    ApplyBuffer(sc, Take(w, o), cs, o)
  }

  lemma FlushedIsInv(sc: Schema, w: WorldState, cs: seq<Command>, o: Owner, previous: seq<(TypeId, Entity)>) returns (loose: Loose)
    requires Inv(sc, w, {}) && Lists(previous, Outputs(w, o)) && LegalSteps(sc, Take(w, o), Reordered(sc, cs), o)
    ensures Inv(sc, Flushed(sc, w, cs, o), loose)
    ensures forall i :: 0 <= i < |previous| ==> !sc.Kind(previous[i].0).Inverse?
  {
    var taken := Take(w, o);
    TakeLoosens(sc, w, o);
    DeferralReorders(sc, taken, cs, o);
    OutputsAreOrdinary(sc, w, o, previous);
    loose := StepsReplace(sc, taken, Reordered(sc, cs), o, {}, set p | p in Outputs(w, o) :: (o, p.0, p.1));
  }

  /**
   Whether an entity an anchor names keeps, through the sweep, the revision the flush captured. Where no swept edge
   points at it, the sweep must leave some tracked component that fixes that revision.
   */
  lemma SourceOutlivesSweepIff(sc: Schema, w: WorldState, cs: seq<Command>, o: Owner, previous: seq<(TypeId, Entity)>, f: Entity)
    requires Inv(sc, w, {}) && Lists(previous, Outputs(w, o)) && LegalSteps(sc, Take(w, o), Reordered(sc, cs), o)
    ensures var x, y := Flushed(sc, w, cs, o), Replace(sc, w, cs, o, previous);
      var r := EntityRevision(sc, x, f);
      && (EntityRevision(sc, y, f) == r <==> Stands(sc, x, y, f, r))
      && (Spared(sc, x, o, previous, f) ==>
            (EntityRevision(sc, y, f) == r <==>
              r.Some? ==> exists t :: sc.Tracked(t) && Rev(x, t, f) == r && !Swept(x, o, previous, t, f)))
  {
    var x, y := Flushed(sc, w, cs, o), Replace(sc, w, cs, o, previous);
    var r := EntityRevision(sc, x, f);
    var loose := FlushedIsInv(sc, w, cs, o, previous);
    SweepReads(sc, x, o, previous, loose);
    RevisionStandsIff(sc, x, y, f);
    if Spared(sc, x, o, previous, f) {
      forall t ensures if Swept(x, o, previous, t, f) then Rev(y, t, f).None? else Rev(y, t, f) == Rev(x, t, f) {
        if sc.Kind(t).Inverse? {
          SweepSpares(sc, x, o, previous, loose, t, f);
          InverseIsNotSwept(sc, x, o, previous, t, f);
        }
      }
      SparedStandsIff(sc, x, y, o, previous, f, r);
    }
  }

  lemma InverseIsNotSwept(sc: Schema, w: WorldState, o: Owner, previous: seq<(TypeId, Entity)>, v: TypeId, f: Entity)
    requires sc.Kind(v).Inverse? && forall i :: 0 <= i < |previous| ==> !sc.Kind(previous[i].0).Inverse?
    ensures !Swept(w, o, previous, v, f)
  {}

  lemma SparedStandsIff(sc: Schema, x: WorldState, y: WorldState, o: Owner, previous: seq<(TypeId, Entity)>, f: Entity, r: Option<nat>)
    requires forall t :: if Swept(x, o, previous, t, f) then Rev(y, t, f).None? else Rev(y, t, f) == Rev(x, t, f)
    ensures Stands(sc, x, y, f, r) <==> (r.Some? ==> exists t :: sc.Tracked(t) && Rev(x, t, f) == r && !Swept(x, o, previous, t, f))
  {
    if r.Some? && Stands(sc, x, y, f, r) {
      var t :| sc.Tracked(t) && Rev(x, t, f) == r && Rev(y, t, f) == r;
      assert !Swept(x, o, previous, t, f);
    }
    if t :| sc.Tracked(t) && Rev(x, t, f) == r && !Swept(x, o, previous, t, f) {
      assert Rev(y, t, f) == r;
    }
  }

  /** A flushed value is still current after the sweep exactly if each entity it is anchored at lives and stands. */
  lemma AnchorsOutliveSweepIff(sc: Schema, w: WorldState, cs: seq<Command>, o: Owner, previous: seq<(TypeId, Entity)>, v: Value)
    requires Inv(sc, w, {}) && Lists(previous, Outputs(w, o)) && LegalSteps(sc, Take(w, o), Reordered(sc, cs), o)
    requires AnchorsExact(sc, Flushed(sc, w, cs, o), v)
    ensures var x, y := Flushed(sc, w, cs, o), Replace(sc, w, cs, o, previous);
      IsCurrent(sc, y, v) <==>
        AnchorsLive(sc, x, v)
        && forall i :: 0 <= i < |v.anchors| ==> Stands(sc, x, y, v.anchors[i].entity, EntityRevision(sc, x, v.anchors[i].entity))
  {
    forall i | 0 <= i < |v.anchors|
      ensures var x, y, f := Flushed(sc, w, cs, o), Replace(sc, w, cs, o, previous), v.anchors[i].entity;
        EntityRevision(sc, y, f) == EntityRevision(sc, x, f) <==> Stands(sc, x, y, f, EntityRevision(sc, x, f))
    {
      SourceOutlivesSweepIff(sc, w, cs, o, previous, v.anchors[i].entity);
    }
  }

  // ---- a stale anchor ----

  /** A rerun that emits nothing but one derived value. */
  function OnlyAnchor(sc: Schema, e: Entity, v: Value): seq<Command> {
    [Put(sc.derivedFrom, e, v)]
  }

  lemma OnlyAnchorIsFlushed(sc: Schema, w: WorldState, o: Owner, e: Entity, v: Value)
    requires sc.Valid()
    ensures Reordered(sc, OnlyAnchor(sc, e, v)) == OnlyAnchor(sc, e, v)
    ensures LegalSteps(sc, Take(w, o), OnlyAnchor(sc, e, v), o)
    ensures Flushed(sc, w, OnlyAnchor(sc, e, v), o)
         == Write(sc, Take(w, o), sc.derivedFrom, e, Capture(sc, Take(w, o), v), Some(o))
  {
    var cs, taken := OnlyAnchor(sc, e, v), Take(w, o);
    assert cs[1..] == [] && Anchors(sc, cs[0]);
    assert Immediate(sc, cs) == Immediate(sc, cs[1..]) && Deferred(sc, cs) == [cs[0]] + Deferred(sc, cs[1..]);
    DeferralReorders(sc, taken, cs, o);
    assert Steps(sc, taken, cs, o) == Steps(sc, Step(sc, taken, cs[0], o), cs[1..], o);
  }

  lemma SameStoresSameRevision(sc: Schema, w: WorldState, w': WorldState, f: Entity)
    requires w.stores == w'.stores
    ensures EntityRevision(sc, w, f) == EntityRevision(sc, w', f)
  {
    assert (set t | t in w.stores && sc.Tracked(t) && Has(w, t, f) :: Lookup(w, t, f).value.revision)
        == (set t | t in w'.stores && sc.Tracked(t) && Has(w', t, f) :: Lookup(w', t, f).value.revision);
  }

  /** Taking an owner out of the index and writing a derived value moves no entity's revision. */
  lemma OnlyAnchorReads(sc: Schema, w: WorldState, o: Owner, e: Entity, v: Value)
    requires sc.Valid()
    ensures var x := Flushed(sc, w, OnlyAnchor(sc, e, v), o);
      && (forall f: Entity :: EntityRevision(sc, x, f) == EntityRevision(sc, w, f))
      && Has(x, sc.derivedFrom, e) && Lookup(x, sc.derivedFrom, e).value.value == Capture(sc, w, v)
      && (forall t, f: Entity :: (t, f) != (sc.derivedFrom, e) ==> Lookup(x, t, f) == Lookup(w, t, f))
      && (forall t, f: Entity :: Indexed(x, o, t, f) ==> (t, f) == (sc.derivedFrom, e))
  {
    var taken := Take(w, o);
    OnlyAnchorIsFlushed(sc, w, o, e, v);
    AnchorInsertReads(sc, taken, e, Capture(sc, taken, v), o);
    WriteReads(sc, taken, sc.derivedFrom, e, Capture(sc, taken, v), Some(o));
    forall f: Entity ensures EntityRevision(sc, taken, f) == EntityRevision(sc, w, f) {
      SameStoresSameRevision(sc, taken, w, f);
    }
    assert Capture(sc, taken, v).anchors == Capture(sc, w, v).anchors;
  }

  /** Component `u` of `f` is the only output of `o`, is newer than all else tracked there, and something else is. */
  ghost predicate OutputIsNewest(sc: Schema, w: WorldState, o: Owner, u: TypeId, f: Entity, t: TypeId) {
    && Outputs(w, o) == {(u, f)} && OwnerAt(w, u, f) == Some(o) && sc.Tracked(u) && !sc.Kind(u).Edge?
    && sc.Tracked(t) && t != u && Has(w, t, f) && OwnerAt(w, t, f) != Some(o) && !sc.Kind(t).Inverse?
    && (forall s :: sc.Tracked(s) && s != u && Rev(w, s, f).Some? ==> Rev(w, s, f).value < Rev(w, u, f).value)
  }

  lemma NewestOutput(sc: Schema, w: WorldState, o: Owner, u: TypeId, f: Entity, t: TypeId)
    requires OutputIsNewest(sc, w, o, u, f, t)
    ensures EntityRevision(sc, w, f) == Rev(w, u, f) && Rev(w, u, f).Some?
    ensures forall s :: sc.Tracked(s) && Rev(w, s, f) == Rev(w, u, f) ==> s == u
  {
    EntityRevisionIsNewest(sc, w, f);
    assert Has(w, u, f);
  }

  /** Such an output, not emitted again, takes its entity's revision with it when it is swept. */
  lemma SweptOutputMovesSource(sc: Schema, w: WorldState, o: Owner, u: TypeId, f: Entity, t: TypeId, e: Entity, v: Value)
    requires Inv(sc, w, {}) && OutputIsNewest(sc, w, o, u, f, t)
    ensures var x, y := Flushed(sc, w, OnlyAnchor(sc, e, v), o), Replace(sc, w, OnlyAnchor(sc, e, v), o, [(u, f)]);
      && EntityRevision(sc, x, f).Some? && EntityRevision(sc, y, f).Some? && EntityRevision(sc, y, f) != EntityRevision(sc, x, f)
      && Lookup(y, sc.derivedFrom, e) == Lookup(x, sc.derivedFrom, e)
  {
    var cs := OnlyAnchor(sc, e, v);
    var x, y := Flushed(sc, w, cs, o), Replace(sc, w, cs, o, [(u, f)]);
    OnlyAnchorIsFlushed(sc, w, o, e, v);
    OnlyAnchorReads(sc, w, o, e, v);
    NewestOutput(sc, w, o, u, f, t);
    var loose := FlushedIsInv(sc, w, cs, o, [(u, f)]);
    SweepReads(sc, x, o, [(u, f)], loose);
    OnlySwept(sc, w, x, o, u, f, sc.derivedFrom, e);
    SourceOutlivesSweepIff(sc, w, cs, o, [(u, f)], f);
    SurvivorKeepsAlive(sc, w, x, y, t, f);
  }

  lemma OnlySwept(sc: Schema, w: WorldState, x: WorldState, o: Owner, u: TypeId, f: Entity, d: TypeId, e: Entity)
    requires !sc.Kind(u).Edge? && u != d && OwnerAt(w, u, f) == Some(o)
    requires forall t, g: Entity :: (t, g) != (d, e) ==> Lookup(x, t, g) == Lookup(w, t, g)
    requires forall t, g: Entity :: Indexed(x, o, t, g) ==> (t, g) == (d, e)
    ensures forall t, g: Entity :: Swept(x, o, [(u, f)], t, g) <==> (t, g) == (u, f)
    ensures Spared(sc, x, o, [(u, f)], f)
  {}

  /** So the value derived from that entity in the same buffer is exact when flushed, and stale when swept. */
  lemma SweptOutputMakesStale(sc: Schema, w: WorldState, o: Owner, u: TypeId, f: Entity, t: TypeId, e: Entity, v: Value)
    requires Inv(sc, w, {}) && OutputIsNewest(sc, w, o, u, f, t) && v.anchors == [Anchor(f, None)]
    ensures var x, y := Flushed(sc, w, OnlyAnchor(sc, e, v), o), Replace(sc, w, OnlyAnchor(sc, e, v), o, [(u, f)]);
      && Has(x, sc.derivedFrom, e) && Lookup(y, sc.derivedFrom, e) == Lookup(x, sc.derivedFrom, e)
      && IsCurrent(sc, x, Lookup(x, sc.derivedFrom, e).value.value)
      && AnchorsLive(sc, y, Lookup(x, sc.derivedFrom, e).value.value)
      && !IsCurrent(sc, y, Lookup(x, sc.derivedFrom, e).value.value)
  {
    OnlyAnchorReads(sc, w, o, e, v);
    SweptOutputMovesSource(sc, w, o, u, f, t, e, v);
    var x, y := Flushed(sc, w, OnlyAnchor(sc, e, v), o), Replace(sc, w, OnlyAnchor(sc, e, v), o, [(u, f)]);
    assert Capture(sc, w, v).anchors == [Anchor(f, EntityRevision(sc, x, f))];
    LoneAnchor(sc, x, Capture(sc, w, v), f, EntityRevision(sc, x, f).value);
    LoneAnchor(sc, y, Capture(sc, w, v), f, EntityRevision(sc, x, f).value);
  }

  lemma LoneAnchor(sc: Schema, w: WorldState, v: Value, f: Entity, r: nat)
    requires v.anchors == [Anchor(f, Some(r))]
    ensures IsCurrent(sc, w, v) <==> EntityRevision(sc, w, f) == Some(r)
    ensures AnchorsLive(sc, w, v) <==> EntityRevision(sc, w, f).Some?
  {
    assert v.anchors[0] == Anchor(f, Some(r));
  }

  lemma SurvivorKeepsAlive(sc: Schema, w: WorldState, x: WorldState, y: WorldState, t: TypeId, f: Entity)
    requires sc.Tracked(t) && Has(w, t, f) && Lookup(x, t, f) == Lookup(w, t, f) && Lookup(y, t, f) == Lookup(x, t, f)
    ensures EntityRevision(sc, y, f).Some?
  {
    EntityRevisionIsNewest(sc, y, f);
    assert Rev(y, t, f).Some?;
  }

  const O := Owner(0, [1])
  const FACT := Value(0, None, None, [], [])
  const DERIVED := Value(0, None, None, [], [Anchor(1, None)])

  /** Component 1 of entity 1 is a base fact; component 2 is an output of `O`. */
  function OneOutput(): WorldState {
    M.Insert(H.Edged(), H.OneFact(), 2, 1, FACT, Some(O))
  }

  lemma OneOutputReads()
    ensures var w := OneOutput();
      && w.owners == map[O := {(2, 1)}] && OwnerAt(w, 2, 1) == Some(O) && OwnerAt(w, 1, 1) == None
      && Rev(w, 1, 1) == Some(1) && Rev(w, 2, 1) == Some(2) && forall t, f: Entity :: Has(w, t, f) ==> t == 1 || t == 2
  {
    assert H.OneFact() == Write(H.Edged(), WR.Blank(None), 1, 1, FACT, None);
    assert OneOutput() == Write(H.Edged(), H.OneFact(), 2, 1, FACT, Some(O));
    H.OneFactOwnsNothing();
    assert {} + {(2, 1)} == {(2, 1)};
  }

  lemma OneOutputHolds()
    ensures Inv(H.Edged(), OneOutput(), {}) && OutputIsNewest(H.Edged(), OneOutput(), O, 2, 1, 1)
  {
    H.OneFactHolds();
    M.InsertKeepsInv(H.Edged(), H.OneFact(), 2, 1, FACT, Some(O), {});
    OneOutputReads();
    NewestOfTwo(H.Edged(), OneOutput());
  }

  lemma NewestOfTwo(sc: Schema, w: WorldState)
    requires sc.Kind(1) == Plain && sc.Kind(2) == Plain && sc.Tracked(1) && sc.Tracked(2)
    requires w.owners == map[O := {(2, 1)}] && OwnerAt(w, 2, 1) == Some(O) && OwnerAt(w, 1, 1) == None
    requires Rev(w, 1, 1) == Some(1) && Rev(w, 2, 1) == Some(2) && forall t, f: Entity :: Has(w, t, f) ==> t == 1 || t == 2
    ensures OutputIsNewest(sc, w, O, 2, 1, 1)
  {
    assert Has(w, 1, 1) && Has(w, 2, 1);
  }

  /** A run's commit can store an anchor that is stale the moment it returns, on an entity that is still there. */
  lemma CommitLeavesAnchorStale() returns (sc: Schema, w: WorldState, cs: seq<Command>, o: Owner, previous: seq<(TypeId, Entity)>, e: Entity)
    ensures Inv(sc, w, {}) && Lists(previous, Outputs(w, o)) && LegalSteps(sc, Take(w, o), Reordered(sc, cs), o)
    ensures var y := Replace(sc, w, cs, o, previous);
      && Has(y, sc.derivedFrom, e) && OwnerAt(y, sc.derivedFrom, e) == Some(o)
      && AnchorsLive(sc, y, Lookup(y, sc.derivedFrom, e).value.value)
      && !IsCurrent(sc, y, Lookup(y, sc.derivedFrom, e).value.value)
  {
    sc, w, o, previous, e := H.Edged(), OneOutput(), O, [(2, 1)], 3;
    cs := OnlyAnchor(sc, e, DERIVED);
    OneOutputHolds();
    SweptOutputMakesStale(sc, w, o, 2, 1, 1, e, DERIVED);
    OnlyAnchorIsFlushed(sc, w, o, e, DERIVED);
    WriteReads(sc, Take(w, o), sc.derivedFrom, e, Capture(sc, Take(w, o), DERIVED), Some(o));
  }
}
