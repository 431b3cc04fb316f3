/** Query parameters of a system: which rows they match in a snapshot, and what those rows depend on. */
module Queries {
  import opened Ids
  import opened Ascending
  import opened Presence
  import opened World

  /** How a parameter is joined to an earlier one: not at all, by an equal key, or by membership in an inverse. */
  datatype Binding = Free | EqOn(key: TypeId) | InOf(inverse: TypeId)

  /** What is queried: a bare handle `Entity<H>`, a bare `&T` or `(MutRef<T>,)`, or a tuple `(Entity<H>, parts..)`. */
  datatype Form = Handle | Scalar | Parts

  /**
   One `Query` parameter: the required parts of its facet anchor, its `&T`, `MutRef<T>` and `Option<&T>` parts,
   its `With`/`Without` filters and its bound join filter.
   */
  datatype Query = Query(
    form: Form,
    anchor: seq<TypeId>,
    refs: seq<TypeId>,
    mutates: seq<TypeId>,
    optional: seq<TypeId>,
    with: seq<TypeId>,
    without: seq<TypeId>,
    binding: Binding)

  /** `revision == None` records an observed absence; a store-scoped dependency observes a whole watermark. */
  datatype Dep = RowDep(t: TypeId, e: Entity, revision: Option<nat>) | StoreDep(t: TypeId, mark: nat)

  function Keyed(q: Query): seq<TypeId> {
    if q.binding.EqOn? then [q.binding.key] else []
  }

  predicate Formed(q: Query) {
    match q.form
    case Handle => q.refs == q.mutates == q.optional == []
    case Scalar => q.anchor == q.optional == [] && |q.refs| + |q.mutates| == 1
    case Parts => true
  }

  /** Components a row is meant to carry. */
  function Required(q: Query): seq<TypeId> {
    q.anchor + q.refs + q.mutates + q.with + Keyed(q)
  }

  /** Components the filter asks for; when there are any, the filter hands over the entities to look at. */
  function Filter(q: Query): seq<TypeId> {
    q.with + Keyed(q)
  }

  /** Components full enumeration checks: a bare handle takes what its filter hands over, without its anchor. */
  function Listing(q: Query): seq<TypeId> {
    if q.form.Handle? && Filter(q) != [] then Filter(q) else Required(q)
  }

  /** Components a candidate list is narrowed by: a bare handle takes any list it is given, without its anchor. */
  function Narrowing(q: Query): seq<TypeId> {
    if q.form.Handle? then Filter(q) else Required(q)
  }

  /** Full enumeration and candidate lists check the same components. */
  predicate Exact(q: Query) {
    !q.form.Handle? || Filter(q) != []
  }

  /** Components whose revision a row records; the facet anchor and `Without` contribute none. */
  function Observed(q: Query): seq<TypeId> {
    q.refs + q.mutates + q.optional + q.with + Keyed(q)
  }

  /** Stores whose movement can change the rows or dependencies of a parameter. */
  function Interest(q: Query): seq<TypeId> {
    Required(q) + q.optional + q.without + (if q.binding.InOf? then [q.binding.inverse] else [])
  }

  predicate Carries(w: WorldState, ts: seq<TypeId>, e: Entity) {
    forall i :: 0 <= i < |ts| ==> Has(w, ts[i], e)
  }

  predicate Lacks(w: WorldState, ts: seq<TypeId>, e: Entity) {
    forall i :: 0 <= i < |ts| ==> !Has(w, ts[i], e)
  }

  predicate Keeps(w: WorldState, ts: seq<TypeId>, q: Query, e: Entity) {
    Carries(w, ts, e) && Lacks(w, q.without, e)
  }

  /** The rows a query is meant to have. */
  predicate Matches(w: WorldState, q: Query, e: Entity) {
    Keeps(w, Required(q), q, e)
  }

  /** The rows full enumeration lists. */
  predicate Listed(w: WorldState, q: Query, e: Entity) {
    Keeps(w, Listing(q), q, e)
  }

  /** The candidates narrowing lets through. */
  predicate Narrowed(w: WorldState, q: Query, e: Entity) {
    Keeps(w, Narrowing(q), q, e)
  }

  function KeepIn(w: WorldState, ts: seq<TypeId>, q: Query, es: seq<Entity>): (r: seq<Entity>)
    ensures forall e: Entity :: e in r <==> e in es && Keeps(w, ts, q, e)
    ensures StrictlySorted(es) ==> StrictlySorted(r)
  {
    if es == [] then []
    else
      var rest := KeepIn(w, ts, q, es[1..]);
      assert forall e: Entity :: e in es <==> e == es[0] || e in es[1..];
      Prepend(es[0], rest);
      if Keeps(w, ts, q, es[0]) then [es[0]] + rest else rest
  }

  /** `filtered_rows_from_candidates`. */
  function Narrow(w: WorldState, q: Query, candidates: seq<Entity>): (r: seq<Entity>)
    ensures forall e: Entity :: e in r <==> e in candidates && Narrowed(w, q, e)
    ensures StrictlySorted(candidates) ==> StrictlySorted(r)
  {
    KeepIn(w, Narrowing(q), q, candidates)
  }

  function EntitiesWith(w: WorldState, t: TypeId): seq<Entity> {
    Sorted(StoreOf(w, t).entries.Keys)
  }

  /** Row enumeration from the store of one component every listed row carries. */
  function RowsFrom(w: WorldState, q: Query, driver: TypeId): seq<Entity> {
    KeepIn(w, Listing(q), q, EntitiesWith(w, driver))
  }

  /** `filtered_rows`, ascending. Every query names at least one required component. */
  function Rows(w: WorldState, q: Query): seq<Entity>
    requires Required(q) != []
  {
    RowsFrom(w, q, Listing(q)[0])
  }

  lemma RowsAre(w: WorldState, q: Query)
    requires Required(q) != []
    ensures StrictlySorted(Rows(w, q))
    ensures forall e: Entity :: e in Rows(w, q) <==> Listed(w, q, e)
  {
    forall e: Entity | Listed(w, q, e) ensures e in Rows(w, q) {
      assert Has(w, Listing(q)[0], e);
    }
  }

  /** The listed rows are the rows meant exactly when no bare handle is handed a stranger by its filter. */
  lemma ListedRowsMatchIff(w: WorldState, q: Query)
    requires Formed(q) && Required(q) != []
    ensures (forall e: Entity :: e in Rows(w, q) <==> Matches(w, q, e)) <==>
              !q.form.Handle? || Filter(q) == [] || forall e: Entity :: Keeps(w, Filter(q), q, e) ==> Carries(w, q.anchor, e)
  {
    RowsAre(w, q);
    if q.form.Handle? && Filter(q) != [] {
      forall e: Entity ensures Matches(w, q, e) <==> Listed(w, q, e) && Carries(w, q.anchor, e) {
        HandleRequires(w, q, e);
      }
      if forall e: Entity :: e in Rows(w, q) <==> Matches(w, q, e) {
        forall e: Entity | Keeps(w, Filter(q), q, e) ensures Carries(w, q.anchor, e) {
          assert Listed(w, q, e) && e in Rows(w, q) && Matches(w, q, e);
        }
      }
    }
  }

  /** What a bare handle is meant to require: its anchor, and what its filter asks for. */
  lemma HandleRequires(w: WorldState, q: Query, e: Entity)
    requires Formed(q) && q.form.Handle?
    ensures Carries(w, Required(q), e) <==> Carries(w, q.anchor, e) && Carries(w, Filter(q), e)
  {
    assert Required(q) == q.anchor + Filter(q);
    if Carries(w, Required(q), e) {
      forall i | 0 <= i < |q.anchor| ensures Has(w, q.anchor[i], e) { assert Required(q)[i] == q.anchor[i]; }
      forall i | 0 <= i < |Filter(q)| ensures Has(w, Filter(q)[i], e) { assert Required(q)[|q.anchor| + i] == Filter(q)[i]; }
    }
  }

  /** A candidate passes narrowing but not full enumeration only past a bare handle without a filter to drive it. */
  lemma NarrowedIsListed(w: WorldState, q: Query, e: Entity)
    requires Formed(q)
    ensures Listed(w, q, e) <==> Narrowed(w, q, e) && (Exact(q) || Carries(w, q.anchor, e))
  {
    if !Exact(q) { HandleRequires(w, q, e); }
  }

  /** Which driving store full enumeration starts from, smallest or not, is invisible in the rows. */
  lemma DriverIsInvisible(w: WorldState, q: Query, driver: TypeId)
    requires driver in Listing(q)
    ensures RowsFrom(w, q, driver) == Rows(w, q)
  {
    RowsAre(w, q);
    forall e: Entity ensures e in RowsFrom(w, q, driver) <==> e in Rows(w, q) {
      var i :| 0 <= i < |Listing(q)| && Listing(q)[i] == driver;
      if Listed(w, q, e) { assert Has(w, Listing(q)[i], e); }
    }
    SortedUnique(RowsFrom(w, q, driver), Rows(w, q));
  }

  /** On a schema bowl the presence bitmap enumerates the same rows as probing the stores. */
  lemma BitmapRowsAgree(w: WorldState, q: Query, found: seq<Entity>)
    requires PresenceExact(w) && w.presence.Some? && q.without == [] && Required(q) != []
    requires forall i :: 0 <= i < |Listing(q)| ==> Listing(q)[i] in w.presence.value.bitFor
    requires StrictlySorted(found)
    requires forall e: Entity :: e in found <==> AllPresent(w.presence.value, Listing(q), e)
    ensures found == Rows(w, q)
  {
    RowsAre(w, q);
    forall e: Entity ensures e in found <==> e in Rows(w, q) {
      if Listed(w, q, e) {
        forall i | 0 <= i < |Listing(q)| ensures w.presence.value.Bit(Listing(q)[i], e) {
          assert Has(w, Listing(q)[i], e);
        }
      }
      if AllPresent(w.presence.value, Listing(q), e) {
        forall i | 0 <= i < |Listing(q)| ensures Has(w, Listing(q)[i], e) {
          assert w.presence.value.Bit(Listing(q)[i], e);
        }
      }
    }
    SortedUnique(found, Rows(w, q));
  }

  // ---- dependencies ----

  function DepsOn(sc: Schema, w: WorldState, ts: seq<TypeId>, e: Entity): seq<Dep> {
    if ts == [] then []
    else (if sc.Tracked(ts[0]) then [RowDep(ts[0], e, Rev(w, ts[0], e))] else []) + DepsOn(sc, w, ts[1..], e)
  }

  function RowDeps(sc: Schema, w: WorldState, ps: seq<Query>, row: seq<Entity>): seq<Dep>
    requires |row| == |ps|
  {
    if ps == [] then [] else DepsOn(sc, w, Observed(ps[0]), row[0]) + RowDeps(sc, w, ps[1..], row[1..])
  }

  predicate IsCurrent(w: WorldState, d: Dep) {
    match d
    case RowDep(t, e, revision) => Rev(w, t, e) == revision
    case StoreDep(t, mark) => Mark(w, t) == mark
  }

  /** The interest of a whole parameter list. */
  function InterestOf(ps: seq<Query>): seq<TypeId> {
    if ps == [] then [] else Interest(ps[0]) + InterestOf(ps[1..])
  }

  lemma {:induction false} InterestCovers(ps: seq<Query>, i: nat)
    requires i < |ps|
    ensures forall t :: t in Interest(ps[i]) ==> t in InterestOf(ps)
  {
    if i > 0 { InterestCovers(ps[1..], i - 1); }
  }

  lemma {:induction false} DepsOnSame(sc: Schema, w: WorldState, w': WorldState, ts: seq<TypeId>, e: Entity)
    requires forall i :: 0 <= i < |ts| ==> Rev(w, ts[i], e) == Rev(w', ts[i], e)
    ensures DepsOn(sc, w, ts, e) == DepsOn(sc, w', ts, e)
  {
    if ts != [] {
      assert forall i :: 0 <= i < |ts[1..]| ==> ts[1..][i] == ts[i + 1];
      DepsOnSame(sc, w, w', ts[1..], e);
    }
  }

  /** Equal revisions of everything of interest on the row's keys mean equal dependencies. */
  lemma {:induction false} RowDepsSame(sc: Schema, w: WorldState, w': WorldState, ps: seq<Query>, row: seq<Entity>)
    requires |row| == |ps|
    requires forall j, t :: 0 <= j < |ps| && t in Interest(ps[j]) ==> Rev(w, t, row[j]) == Rev(w', t, row[j])
    ensures RowDeps(sc, w, ps, row) == RowDeps(sc, w', ps, row)
  {
    if ps != [] {
      forall i | 0 <= i < |Observed(ps[0])| ensures Rev(w, Observed(ps[0])[i], row[0]) == Rev(w', Observed(ps[0])[i], row[0]) {
        ObservedIsInterest(ps[0], i);
      }
      DepsOnSame(sc, w, w', Observed(ps[0]), row[0]);
      assert forall j :: 0 <= j < |ps[1..]| ==> ps[1..][j] == ps[j + 1] && row[1..][j] == row[j + 1];
      RowDepsSame(sc, w, w', ps[1..], row[1..]);
    }
  }

  lemma ObservedIsInterest(q: Query, i: nat)
    requires i < |Observed(q)|
    ensures Observed(q)[i] in Interest(q)
  {
    var t := Observed(q)[i];
    assert t in q.refs || t in q.mutates || t in q.optional || t in q.with || t in Keyed(q);
    if t !in q.optional {
      assert t in Required(q);
    }
  }

  /** A presence change of nothing of interest cannot change what is listed or let through. */
  lemma MatchesSame(w: WorldState, w': WorldState, q: Query, e: Entity)
    requires forall t :: t in Interest(q) ==> Has(w, t, e) == Has(w', t, e)
    ensures Listed(w, q, e) == Listed(w', q, e)
    ensures Narrowed(w, q, e) == Narrowed(w', q, e)
    ensures Carries(w, q.anchor, e) == Carries(w', q.anchor, e)
  {
    forall i | 0 <= i < |q.without| ensures q.without[i] in Interest(q) {}
    forall i | 0 <= i < |q.anchor| ensures q.anchor[i] in Interest(q) { assert q.anchor[i] in Required(q); }
    CarriesSame(w, w', q, Listing(q), e);
    CarriesSame(w, w', q, Narrowing(q), e);
  }

  lemma CarriesSame(w: WorldState, w': WorldState, q: Query, ts: seq<TypeId>, e: Entity)
    requires forall t :: t in Interest(q) ==> Has(w, t, e) == Has(w', t, e)
    requires ts == Required(q) || ts == Filter(q)
    ensures Carries(w, ts, e) == Carries(w', ts, e)
  {
    forall i | 0 <= i < |ts| ensures ts[i] in Interest(q) {
      assert ts[i] in Required(q) by { assert ts[i] in ts; }
    }
  }
}
