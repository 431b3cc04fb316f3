/** What it takes to be a row, in terms of the queries' own fields and of the edges stored. */
module Matching {
  import opened Ids
  import opened World
  import opened Queries
  import opened Joins
  import opened Hints

  /** What the parts and the filter ask of an entity. */
  ghost predicate Fits(w: WorldState, q: Query, e: Entity) {
    && (forall t :: t in q.refs || t in q.mutates || t in q.with || q.binding == EqOn(t) ==> Has(w, t, e))
    && (forall t :: t in q.without ==> !Has(w, t, e))
  }

  /** What the facet of its handle asks. */
  ghost predicate Conforms(w: WorldState, q: Query, e: Entity) {
    forall t :: t in q.anchor ==> Has(w, t, e)
  }

  /** Nothing asks a bare handle's facet once its filter hands over the entities. */
  predicate HandedByFilter(q: Query) {
    q.form.Handle? && (q.with != [] || q.binding.EqOn?)
  }

  lemma CarriesAll(w: WorldState, ts: seq<TypeId>, e: Entity)
    ensures Carries(w, ts, e) <==> forall t :: t in ts ==> Has(w, t, e)
    ensures Lacks(w, ts, e) <==> forall t :: t in ts ==> !Has(w, t, e)
  {
    if Carries(w, ts, e) {
      forall t | t in ts ensures Has(w, t, e) { var i :| 0 <= i < |ts| && ts[i] == t; }
    }
    if Lacks(w, ts, e) {
      forall t | t in ts ensures !Has(w, t, e) { var i :| 0 <= i < |ts| && ts[i] == t; }
    }
  }

  lemma MatchesIff(w: WorldState, q: Query, e: Entity)
    ensures Matches(w, q, e) <==> Fits(w, q, e) && Conforms(w, q, e)
  {
    CarriesAll(w, Required(q), e);
    CarriesAll(w, q.without, e);
    assert forall t :: t in Required(q) <==> t in q.anchor || t in q.refs || t in q.mutates || t in q.with || q.binding == EqOn(t);
  }

  /** An entity is listed when it fits, and conforms unless it is handed over by the filter of a bare handle. */
  lemma ListedIff(w: WorldState, q: Query, e: Entity)
    requires Formed(q)
    ensures Listed(w, q, e) <==> Fits(w, q, e) && (HandedByFilter(q) || Conforms(w, q, e))
  {
    if HandedByFilter(q) {
      CarriesAll(w, Filter(q), e);
      CarriesAll(w, q.without, e);
      assert forall t :: t in Filter(q) <==> t in q.with || q.binding == EqOn(t);
      if q.with != [] { assert q.with[0] in Filter(q); }
    } else {
      MatchesIff(w, q, e);
    }
  }

  /** A joined parameter and its provider: an equal stamp of the key, or an edge from the one to the other. */
  ghost predicate Partnered(sc: Schema, w: WorldState, ps: seq<Query>, row: seq<Entity>, j: nat)
    requires j < |ps| == |row| && JoinsInverses(sc, ps)
  {
    match ps[j].binding
    case Free => true
    case EqOn(k) => forall i :: 0 <= i < |ps| && i != j && k in ps[i].refs ==>
        StampAt(w, k, row[i]).Some? && StampAt(w, k, row[j]) == StampAt(w, k, row[i])
    case InOf(v) => forall i :: 0 <= i < |ps| && i != j && v in ps[i].refs ==>
        EdgeAt(sc, w, sc.Kind(v).edge, row[j]) == Some(row[i])
  }

  lemma {:induction false} PruneKeeps(w: WorldState, ps: seq<Query>, rows: seq<seq<Entity>>, row: seq<Entity>)
    ensures row in Prune(w, ps, rows) <==> row in rows && BindingMatches(w, ps, row)
  {
    if rows != [] { PruneKeeps(w, ps, rows[1..], row); }
  }

  lemma BoundIffPartnered(sc: Schema, w: WorldState, ps: seq<Query>, row: seq<Entity>, j: nat)
    requires Inv(sc, w, {}) && WellBound(ps) && JoinsInverses(sc, ps) && j < |ps| == |row|
    ensures Bound(w, ps, row, j) <==> Partnered(sc, w, ps, row, j)
  {
    if !ps[j].binding.Free? {
      var i :| 0 <= i < j && OnlyProvider(ps, i, j);
      ProviderFound(ps, i, j, 0);
      assert forall k :: 0 <= k < |ps| && k != j && Provides(ps[k], ps[j]) ==> k == i;
      if ps[j].binding.InOf? {
        var v := ps[j].binding.inverse;
        assert Linked(w, v, row[j], row[i]) <==> Points(sc, w, v, row[j], row[i]);
      }
    }
  }

  /** The rows of a system: the entities picked are listed, one by one, and each joined one is its provider's partner. */
  lemma SpecifiedIff(sc: Schema, w: WorldState, ps: seq<Query>, row: seq<Entity>)
    requires Inv(sc, w, {}) && WellBound(ps) && JoinsInverses(sc, ps)
    ensures row in Specified(w, ps) <==>
              && |row| == |ps|
              && (forall j :: 0 <= j < |ps| ==> Fits(w, ps[j], row[j]) && (HandedByFilter(ps[j]) || Conforms(w, ps[j], row[j])))
              && (forall j :: 0 <= j < |ps| ==> Partnered(sc, w, ps, row, j))
  {
    PruneKeeps(w, ps, Build(w, ps, [], Product), row);
    BuildMembers(w, ps, [], Product, row);
    if |row| == |ps| {
      forall j | 0 <= j < |ps|
        ensures row[j] in Candidates(w, ps, row[..j], Product) <==> Fits(w, ps[j], row[j]) && (HandedByFilter(ps[j]) || Conforms(w, ps[j], row[j]))
        ensures Bound(w, ps, row, j) <==> Partnered(sc, w, ps, row, j)
      {
        RowsAre(w, ps[j]);
        ListedIff(w, ps[j], row[j]);
        BoundIffPartnered(sc, w, ps, row, j);
      }
    }
  }
}
