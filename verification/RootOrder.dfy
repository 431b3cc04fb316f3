/**
 Bound cleanup takes its roots in the order of a hash set, and removing one retracts the edges that point at it: an owner
 whose only component on the roots is such an edge may or may not be found.
 */
module RootOrder {
  import opened Ids
  import opened World
  import opened Retirement
  import H = Handles
  import M = Mutators

  /**
   Roots that hold the owner fast: each has a component of its that no root outside of them can take along. So the first
   of them to be visited gives the owner away, in whatever order they come.
   */
  ghost predicate Holdfast(sc: Schema, w: WorldState, roots: set<Entity>, o: Owner, held: set<Entity>) {
    && held != {} && held <= roots
    && forall e :: e in held ==> exists t :: OwnerAt(w, t, e) == Some(o) && !PointsInto(sc, w, t, e, roots - held)
  }

  ghost predicate PointsInto(sc: Schema, w: WorldState, t: TypeId, e: Entity, es: set<Entity>) {
    EdgeAt(sc, w, t, e).Some? && EdgeAt(sc, w, t, e).value in es
  }

  lemma {:induction false} FirstOf(visits: seq<Entity>, held: set<Entity>) returns (n: nat)
    requires exists e :: e in held && e in visits
    ensures n < |visits| && visits[n] in held && forall m :: 0 <= m < n ==> visits[m] !in held
  {
    if visits[0] in held {
      n := 0;
    } else {
      var e :| e in held && e in visits;
      assert e in visits[1..];
      n := FirstOf(visits[1..], held);
      n := n + 1;
      forall m | 0 <= m < n ensures visits[m] !in held { if m > 0 { assert visits[m] == visits[1..][m - 1]; } }
    }
  }

  lemma HeldIsFound(sc: Schema, w: WorldState, roots: set<Entity>, visits: seq<Entity>, o: Owner, held: set<Entity>)
    requires Lists(visits, roots) && Holdfast(sc, w, roots, o, held)
    ensures FoundOn(sc, w, visits, o)
  {
    var some :| some in held;
    assert some in visits;
    var n := FirstOf(visits, held);
    var t :| OwnerAt(w, t, visits[n]) == Some(o) && !PointsInto(sc, w, t, visits[n], roots - held);
    assert forall e :: e in visits[..n] ==> e in roots - held;
    assert !GoneWith(sc, w, visits[..n], t, visits[n]);
  }

  /** With nothing to hold the owner, roots can be put off until what they have of its points at one visited before. */
  lemma {:induction false} OrderThatMisses(sc: Schema, w: WorldState, roots: set<Entity>, o: Owner, done: seq<Entity>) returns (visits: seq<Entity>)
    requires (forall held :: !Holdfast(sc, w, roots, o, held)) && !FoundOn(sc, w, done, o)
    requires Distinct(done) && forall e :: e in done ==> e in roots
    ensures Lists(visits, roots) && !FoundOn(sc, w, visits, o)
    decreases roots - set e | e in done
  {
    var rest := roots - set e | e in done;
    if rest == {} {
      forall e | e in roots ensures e in done { assert e !in rest; }
      visits := done;
    } else {
      assert !Holdfast(sc, w, roots, o, rest);
      var e :| e in rest && forall t :: OwnerAt(w, t, e) == Some(o) ==> PointsInto(sc, w, t, e, roots - rest);
      assert forall f :: f in roots - rest ==> f in done;
      FoundOneMore(sc, w, done, e, o);
      assert (set f | f in done + [e]) == (set f | f in done) + {e};
      visits := OrderThatMisses(sc, w, roots, o, done + [e]);
    }
  }

  /** An owner is found whatever order the roots come in, iff some of them hold it fast. */
  lemma FoundInEveryOrderIff(sc: Schema, w: WorldState, roots: set<Entity>, o: Owner)
    ensures (forall visits :: Lists(visits, roots) ==> FoundOn(sc, w, visits, o)) <==> exists held :: Holdfast(sc, w, roots, o, held)
  {
    if held :| Holdfast(sc, w, roots, o, held) {
      forall visits | Lists(visits, roots) ensures FoundOn(sc, w, visits, o) { HeldIsFound(sc, w, roots, visits, o, held); }
    } else {
      var visits := OrderThatMisses(sc, w, roots, o, []);
    }
  }

  /** In particular one component that is no edge, on any root, is enough. */
  lemma PlainComponentIsFound(sc: Schema, w: WorldState, roots: set<Entity>, visits: seq<Entity>, o: Owner, t: TypeId, e: Entity)
    requires Lists(visits, roots) && e in roots && OwnerAt(w, t, e) == Some(o) && !sc.Kind(t).Edge?
    ensures FoundOn(sc, w, visits, o)
  {
    assert Holdfast(sc, w, roots, o, {e});
    HeldIsFound(sc, w, roots, visits, o, {e});
  }

  // ---- an owner that is not found ----

  /** It has an edge from entity 2 to entity 1, and an output on entity 3; it is keyed by none of them. */
  const OWNER := Owner(0, [7])

  const EDGE := Value(0, None, Some(1), [], [])

  const FACT := Value(0, None, None, [], [])

  /** The owner has these two outputs, and nobody has any other. */
  ghost predicate OneEdge(sc: Schema, w: WorldState) {
    && Inv(sc, w, {}) && OwnerAt(w, 4, 2) == Some(OWNER) && EdgeAt(sc, w, 4, 2) == Some(1)
    && OwnerAt(w, 1, 3) == Some(OWNER) && !sc.Kind(1).Edge?
    && forall t, e: Entity :: (t, e) != (4, 2) && (t, e) != (1, 3) ==> OwnerAt(w, t, e).None?
  }

  lemma NobodyOwns(sc: Schema, w: WorldState, t: TypeId, e: Entity)
    requires Inv(sc, w, {}) && w.owners == map[]
    ensures OwnerAt(w, t, e).None?
  {}

  lemma TwoOutputs(sc: Schema, base: WorldState)
    requires Inv(sc, base, {}) && base.owners == map[] && sc.Kind(1) == Plain && sc.Kind(4).Edge?
    ensures OneEdge(sc, M.Insert(sc, M.Insert(sc, base, 4, 2, EDGE, Some(OWNER)), 1, 3, FACT, Some(OWNER)))
  {
    var edged := M.Insert(sc, base, 4, 2, EDGE, Some(OWNER));
    var w := M.Insert(sc, edged, 1, 3, FACT, Some(OWNER));
    M.InsertKeepsInv(sc, base, 4, 2, EDGE, Some(OWNER), {});
    M.InsertReads(sc, base, 4, 2, EDGE, Some(OWNER), {});
    M.InsertKeepsInv(sc, edged, 1, 3, FACT, Some(OWNER), {});
    M.InsertReads(sc, edged, 1, 3, FACT, Some(OWNER), {});
    assert Lookup(w, 4, 2) == Lookup(edged, 4, 2);
    forall t, e: Entity | (t, e) != (4, 2) && (t, e) != (1, 3) ensures OwnerAt(w, t, e).None? {
      NobodyOwns(sc, base, t, e);
      if sc.Kind(t).Inverse? {
        assert Has(w, t, e) ==> OwnerAt(w, t, e).None?;
      } else {
        assert Lookup(w, t, e) == Lookup(edged, t, e) == Lookup(base, t, e);
      }
    }
  }

  lemma OneEdgeExists()
    ensures exists w :: OneEdge(H.Edged(), w)
  {
    H.OneFactHolds();
    H.OneFactOwnsNothing();
    TwoOutputs(H.Edged(), H.OneFact());
  }

  lemma RootsAreClosed(sc: Schema, w: WorldState)
    requires OneEdge(sc, w)
    ensures LeastClosed(w.owners, None, {1, 2}, {1, 2}) && !KeyedIn(OWNER, {1, 2})
  {
    forall o | o in w.owners ensures o == OWNER {
      var p :| p in w.owners[o];
      assert Indexed(w, o, p.0, p.1);
    }
  }

  /**
   With roots 1 and 2 the cascade leaves the owner alone, and it has a component on a root. It is found if 2 comes first; if
   1 does, its edge is gone by the time 2 is visited, and it keeps its memo and its output on entity 3.
   */
  lemma EdgeBetweenRootsIsMissed(sc: Schema, w: WorldState)
    requires OneEdge(sc, w)
    ensures LeastClosed(w.owners, None, {1, 2}, {1, 2}) && !KeyedIn(OWNER, {1, 2}) && OwnerAt(w, 4, 2) == Some(OWNER)
    ensures Lists([2, 1], {1, 2}) && FoundOn(sc, w, [2, 1], OWNER)
    ensures Lists([1, 2], {1, 2}) && !FoundOn(sc, w, [1, 2], OWNER) && !GoneWith(sc, w, [1, 2], 1, 3)
  {
    RootsAreClosed(sc, w);
    var one: seq<Entity> := [1, 2];
    assert one[..0] == [] && one[..1] == [1];
    forall n, t | 0 <= n < |one| && OwnerAt(w, t, one[n]) == Some(OWNER) ensures GoneWith(sc, w, one[..n], t, one[n]) {
      assert (t, one[n]) == (4, 2);
    }
    var two: seq<Entity> := [2, 1];
    assert two[..0] == [] && two[0] == 2 && !GoneWith(sc, w, two[..0], 4, two[0]);
  }
}
