/**
 Bare handles, `Query<Entity<H>, F>`: nothing but the enumeration of a handle's own rows ever checks its anchor. Worlds
 in which a hint, a member list and a filter each hand it a stranger.
 */
module Handles {
  import opened Ids
  import opened World
  import opened Queries
  import opened Joins
  import opened Hints
  import opened WorldRuns
  import M = Mutators

  /** Components 3 and 4 are an inverse and its edge; every other is plain. */
  function Edged(): Schema {
    Schema(map[3 := Inverse(4), 4 := Edge(3)], {0}, 0, _ => 0, _ => 0)
  }

  /** Entity 1 carries component 1 and nothing else. */
  function OneFact(): WorldState {
    M.Insert(Edged(), Blank(None), 1, 1, Value(0, None, None, [], []), None)
  }

  lemma OneFactHolds()
    ensures Edged().Valid() && Inv(Edged(), OneFact(), {})
    ensures Has(OneFact(), 1, 1) && forall t :: t != 1 && !Edged().Kind(t).Inverse? ==> !Has(OneFact(), t, 1)
  {
    EmptyIsInv(Edged(), Blank(None));
    M.InsertKeepsInv(Edged(), Blank(None), 1, 1, Value(0, None, None, [], []), None, {});
    M.InsertReads(Edged(), Blank(None), 1, 1, Value(0, None, None, [], []), None, {});
    forall t | t != 1 && !Edged().Kind(t).Inverse? ensures !Has(OneFact(), t, 1) {
      assert Lookup(OneFact(), t, 1) == Lookup(Blank(None), t, 1);
    }
  }

  lemma OneFactOwnsNothing()
    ensures var w := OneFact();
      && w.owners == map[] && w.removedEntities == [] && w.removedOwners == [] && w.removedComponentOwners == []
      && forall e: Entity :: Has(w, 1, e) <==> e == 1
  {
    assert OneFact() == Write(Edged(), Blank(None), 1, 1, Value(0, None, None, [], []), None);
  }

  lemma LoneHandle(w: WorldState, q: Query, e: Entity)
    requires WellBound([q]) && q.form.Handle? && q.binding.Free? && q.with == []
    ensures [e] in States(w, [q]) <==> Listed(w, q, e)
    ensures [e] in Build(w, [q], [], Hinted({e})) <==> Narrowed(w, q, e)
  {
    assert [e][..0] == [] && [q][0] == q;
    RowsAre(w, q);
    BuildMembers(w, [q], [], Paired, [e]);
    BuildMembers(w, [q], [], Hinted({e}), [e]);
  }

  /** Every entity that lacks a bare handle's anchor is planned when hinted, and never listed. */
  lemma StrangerIsInvented(sc: Schema, w: WorldState, q: Query, e: Entity)
    requires WellBound([q]) && q.form.Handle? && q.binding.Free? && q.with == q.without == [] && !Carries(w, q.anchor, e)
    ensures [e] in StatesHinted(sc, w, [q], {e}) && [e] !in States(w, [q])
  {
    assert LargeCount(w, [q]) == 1 + LargeCount(w, [q][1..]);
    assert Widened(sc, w, [q], {e}) == {e};
    LoneHandle(w, q, e);
    HandleRequires(w, q, e);
  }

  /** A hinted plan can invent a row: the hinted entity has part of the handle's shape, and the full plan leaves it out. */
  lemma HintInventsRow() returns (sc: Schema, w: WorldState, q: Query, e: Entity)
    ensures Inv(sc, w, {}) && WellBound([q]) && q.anchor != [] && Has(w, q.anchor[0], e) && !Matches(w, q, e)
    ensures [e] in StatesHinted(sc, w, [q], {e}) && [e] !in States(w, [q])
  {
    sc, w, q, e := Edged(), OneFact(), Query(Handle, [1, 2], [], [], [], [], [], Free), 1;
    OneFactHolds();
    assert q.anchor[1] == 2;
    StrangerIsInvented(sc, w, q, e);
    HandleRequires(w, q, e);
  }

  lemma FilteredIsListed(w: WorldState, q: Query, e: Entity)
    requires Formed(q) && q.form.Handle? && Required(q) != [] && |q.with| == 1 && q.binding.Free? && q.without == []
    requires Has(w, q.with[0], e) && !Carries(w, q.anchor, e)
    ensures e in Rows(w, q) && !Matches(w, q, e)
  {
    RowsAre(w, q);
    HandleRequires(w, q, e);
  }

  /** A filter can hand a bare handle a stranger: the full plan lists an entity without the anchor. */
  lemma FilterHandsOverStranger() returns (sc: Schema, w: WorldState, q: Query, e: Entity)
    ensures Inv(sc, w, {}) && WellBound([q]) && Required([q][0]) != [] && e in Rows(w, q) && !Matches(w, q, e)
  {
    sc, w, q, e := Edged(), OneFact(), Query(Handle, [2], [], [], [], [1], [], Free), 1;
    OneFactHolds();
    assert q.anchor[0] == 2;
    FilteredIsListed(w, q, e);
  }

  /** Entity 1 has an edge to entity 2. */
  function OneEdge(): WorldState {
    M.Insert(Edged(), Blank(None), 4, 1, Value(0, None, Some(2), [], []), None)
  }

  lemma OneEdgeHolds()
    ensures Edged().Valid() && Inv(Edged(), OneEdge(), {})
    ensures Has(OneEdge(), 3, 2) && 1 in Members(OneEdge(), 3, 2) && !Has(OneEdge(), 5, 1)
  {
    EmptyIsInv(Edged(), Blank(None));
    M.InsertKeepsInv(Edged(), Blank(None), 4, 1, Value(0, None, Some(2), [], []), None, {});
    M.InsertReads(Edged(), Blank(None), 4, 1, Value(0, None, Some(2), [], []), None, {});
    assert Points(Edged(), OneEdge(), 3, 1, 2);
    assert Linked(OneEdge(), 3, 1, 2);
    assert Lookup(OneEdge(), 5, 1) == Lookup(Blank(None), 5, 1);
  }

  /** The first parameter reads an inverse, the second is a bare handle on its members. */
  function MemberHandles(v: TypeId, h: TypeId): seq<Query> {
    [Query(Scalar, [], [v], [], [], [], [], Free), Query(Handle, [h], [], [], [], [], [], InOf(v))]
  }

  lemma MemberHandlesAreBound(v: TypeId, h: TypeId)
    ensures WellBound(MemberHandles(v, h)) && ProviderFrom(MemberHandles(v, h), 1, 0) == 0
  {
    assert OnlyProvider(MemberHandles(v, h), 0, 1);
    ProviderFound(MemberHandles(v, h), 0, 1, 0);
  }

  lemma TargetIsCandidate(w: WorldState, v: TypeId, h: TypeId, target: Entity)
    requires WellBound(MemberHandles(v, h)) && Has(w, v, target)
    ensures target in Candidates(w, MemberHandles(v, h), [], Paired)
  {
    var q := MemberHandles(v, h)[0];
    assert Listing(q) == [v];
    RowsAre(w, q);
    assert Listed(w, q, target);
    assert Candidates(w, MemberHandles(v, h), [], Paired) == Rows(w, q);
  }

  lemma MemberIsCandidate(w: WorldState, v: TypeId, h: TypeId, target: Entity, member: Entity)
    requires WellBound(MemberHandles(v, h)) && member in Members(w, v, target)
    ensures member in Candidates(w, MemberHandles(v, h), [target], Paired)
  {
    var ps := MemberHandles(v, h);
    var q := ps[1];
    MemberHandlesAreBound(v, h);
    assert Narrowing(q) == [];
    assert Candidates(w, ps, [target], Paired) == Narrow(w, q, Members(w, v, target));
  }

  lemma StrangerIsPlanned(w: WorldState, v: TypeId, h: TypeId, target: Entity, member: Entity)
    requires WellBound(MemberHandles(v, h)) && Has(w, v, target) && member in Members(w, v, target)
    ensures [target, member] in States(w, MemberHandles(v, h))
  {
    TargetIsCandidate(w, v, h, target);
    MemberIsCandidate(w, v, h, target, member);
    PairIsEnumerated(w, MemberHandles(v, h), target, member);
  }

  lemma StrangerIsPruned(w: WorldState, v: TypeId, h: TypeId, target: Entity, member: Entity)
    requires WellBound(MemberHandles(v, h)) && Readable(w, MemberHandles(v, h)) && !Has(w, h, member)
    ensures [target, member] !in Specified(w, MemberHandles(v, h))
  {
    var ps, row := MemberHandles(v, h), [target, member];
    PrunedProductIsSievedPairs(w, ps);
    assert ps[1].anchor[0] == h && row[1] == member;
    assert !AnchoredAt(w, ps[1], row[1]) && !Anchored(w, ps, row);
  }

  /** A member list can hand a joined bare handle a stranger: the pair is planned, and the pruned product has none. */
  lemma MembersHandOverStranger() returns (sc: Schema, w: WorldState, ps: seq<Query>, row: seq<Entity>)
    ensures Inv(sc, w, {}) && WellBound(ps) && row in States(w, ps) && row !in Specified(w, ps)
  {
    sc, w, ps, row := Edged(), OneEdge(), MemberHandles(3, 5), [2, 1];
    OneEdgeHolds();
    MemberHandlesAreBound(3, 5);
    InversesReadable(sc, w, ps);
    StrangerIsPlanned(w, 3, 5, 2, 1);
    StrangerIsPruned(w, 3, 5, 2, 1);
  }
}
