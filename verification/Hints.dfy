/** Delta planning: re-enumerating only what a dirty hint can have changed. */
module Hints {
  import opened Ids
  import opened Ascending
  import opened World
  import opened Queries
  import opened Joins

  function LargeCount(w: WorldState, ps: seq<Query>): nat {
    if ps == [] then 0 else (if Large(w, ps[0]) then 1 else 0) + LargeCount(w, ps[1..])
  }

  /** Providers whose pairs include a hinted member of `q`. */
  function ProvidersOf(sc: Schema, w: WorldState, q: Query, hint: set<Entity>): set<Entity> {
    match q.binding
    case Free => {}
    case EqOn(k) =>
      set m, p | m in hint && StampAt(w, k, m).Some? && p in Bucket(w, k, StampAt(w, k, m).value) :: p
    case InOf(v) =>
      if sc.Kind(v).Inverse?
      then set m | m in hint && EdgeAt(sc, w, sc.Kind(v).edge, m).Some? :: EdgeAt(sc, w, sc.Kind(v).edge, m).value
      else {}
  }

  function Widened(sc: Schema, w: WorldState, ps: seq<Query>, hint: set<Entity>): set<Entity> {
    if ps == [] then hint else ProvidersOf(sc, w, ps[0], hint) + Widened(sc, w, ps[1..], hint)
  }

  /** Some row of a small driver is dirty, so every product row may be. */
  predicate TinyDirty(w: WorldState, ps: seq<Query>, dirty: set<Entity>)
    requires forall j :: 0 <= j < |ps| ==> Required(ps[j]) != []
  {
    exists j :: 0 <= j < |ps| && ps[j].binding.Free? && !Large(w, ps[j])
                && exists e :: e in Rows(w, ps[j]) && e in dirty
  }

  /** `states_hinted`: at most one large driver is narrowed; several, or a dirty small one, mean a full plan. */
  function StatesHinted(sc: Schema, w: WorldState, ps: seq<Query>, hint: set<Entity>): seq<seq<Entity>>
    requires WellBound(ps)
  {
    var dirty := Widened(sc, w, ps, hint);
    if LargeCount(w, ps) > 1 || TinyDirty(w, ps, dirty) then States(w, ps)
    else Build(w, ps, [], Hinted(dirty))
  }

  /** Every joined parameter's provider is an unjoined one. */
  ghost predicate FreeProviders(ps: seq<Query>) {
    forall j :: 0 <= j < |ps| && !ps[j].binding.Free? ==>
      exists i :: 0 <= i < j && OnlyProvider(ps, i, j) && ps[i].binding.Free?
  }

  ghost predicate Touches(row: seq<Entity>, hint: set<Entity>) {
    exists j :: 0 <= j < |row| && row[j] in hint
  }

  lemma {:induction false} WidenedCovers(sc: Schema, w: WorldState, ps: seq<Query>, hint: set<Entity>, j: nat)
    requires j < |ps|
    ensures hint <= Widened(sc, w, ps, hint) && ProvidersOf(sc, w, ps[j], hint) <= Widened(sc, w, ps, hint)
    decreases |ps|
  {
    if j > 0 { WidenedCovers(sc, w, ps[1..], hint, j - 1); } else { WidenedHint(sc, w, ps, hint); }
  }

  lemma {:induction false} WidenedHint(sc: Schema, w: WorldState, ps: seq<Query>, hint: set<Entity>)
    ensures hint <= Widened(sc, w, ps, hint)
  {
    if ps != [] { WidenedHint(sc, w, ps[1..], hint); }
  }

  lemma {:induction false} OneLarge(w: WorldState, ps: seq<Query>, i: nat, j: nat)
    requires i < j < |ps| && Large(w, ps[i]) && Large(w, ps[j])
    ensures LargeCount(w, ps) > 1
    decreases |ps|
  {
    if i > 0 { OneLarge(w, ps[1..], i - 1, j - 1); } else { SomeLarge(w, ps[1..], j - 1); }
  }

  lemma {:induction false} SomeLarge(w: WorldState, ps: seq<Query>, j: nat)
    requires j < |ps| && Large(w, ps[j])
    ensures LargeCount(w, ps) > 0
  {
    if j > 0 { SomeLarge(w, ps[1..], j - 1); }
  }

  /** A partner handed over by its provider leads back to it: by its key's bucket, or by its edge. */
  lemma PartnerLeadsBack(sc: Schema, w: WorldState, ps: seq<Query>, picked: seq<Entity>, i: nat, e: Entity, hint: set<Entity>)
    requires sc.Valid() && IndexExact(w) && InversesExact(sc, w)
    requires i < |picked| < |ps| && e in HandedOver(w, ps, picked, i) && e in hint
    requires ps[|picked|].binding.InOf? ==> sc.Kind(ps[|picked|].binding.inverse).Inverse?
    ensures picked[i] in ProvidersOf(sc, w, ps[|picked|], hint)
  {
    match ps[|picked|].binding {
      case EqOn(k) =>
        var s := StampAt(w, k, picked[i]).value;
        assert e in Bucket(w, k, s);
        assert StampAt(w, k, e) == Some(s);
        assert Has(w, k, picked[i]) && picked[i] in Bucket(w, k, s);
      case InOf(v) =>
        assert Linked(w, v, e, picked[i]);
        assert Points(sc, w, v, e, picked[i]);
    }
  }

  /** A dirty partner makes its provider dirty. */
  lemma DirtyPartnerReachesProvider(sc: Schema, w: WorldState, ps: seq<Query>, row: seq<Entity>, i: nat, j: nat, hint: set<Entity>)
    requires sc.Valid() && IndexExact(w) && InversesExact(sc, w)
    requires WellBound(ps) && |row| == |ps| && j < |ps| && i < j && OnlyProvider(ps, i, j)
    requires ps[j].binding.InOf? ==> sc.Kind(ps[j].binding.inverse).Inverse?
    requires row[j] in Candidates(w, ps, row[..j], Paired) && row[j] in hint
    ensures row[i] in ProvidersOf(sc, w, ps[j], hint)
  {
    var picked := row[..j];
    ProviderFound(ps, i, j, 0);
    assert picked[i] == row[i];
    assert Candidates(w, ps, picked, Paired) == PairRows(w, ps, picked, i);
    assert row[j] in HandedOver(w, ps, picked, i);
    PartnerLeadsBack(sc, w, ps, picked, i, row[j], hint);
  }

  /** Every row with a hinted key is planned, whatever part of the row the hint names. */
  lemma TouchedRowsArePlanned(sc: Schema, w: WorldState, ps: seq<Query>, hint: set<Entity>, row: seq<Entity>)
    requires sc.Valid() && IndexExact(w) && InversesExact(sc, w)
    requires WellBound(ps) && FreeProviders(ps) && JoinsInverses(sc, ps)
    requires row in States(w, ps) && Touches(row, hint)
    ensures row in StatesHinted(sc, w, ps, hint)
  {
    var dirty := Widened(sc, w, ps, hint);
    BuildMembers(w, ps, [], Paired, row);
    if !(LargeCount(w, ps) > 1 || TinyDirty(w, ps, dirty)) {
      var i := DirtyDriver(sc, w, ps, hint, row);
      assert row[i] in Candidates(w, ps, row[..i], Paired);
      DirtyDriverIsNarrowed(w, ps, dirty, row, i);
    }
  }

  /** Some unjoined parameter of a touched row is dirty: the touched one, or the provider of the touched one. */
  lemma DirtyDriver(sc: Schema, w: WorldState, ps: seq<Query>, hint: set<Entity>, row: seq<Entity>) returns (i: nat)
    requires sc.Valid() && IndexExact(w) && InversesExact(sc, w)
    requires WellBound(ps) && FreeProviders(ps) && JoinsInverses(sc, ps)
    requires Enumerated(w, ps, row, 0, Paired) && Touches(row, hint)
    ensures i < |ps| && ps[i].binding.Free? && row[i] in Widened(sc, w, ps, hint)
  {
    var j :| 0 <= j < |row| && row[j] in hint;
    WidenedCovers(sc, w, ps, hint, j);
    i := j;
    if !ps[j].binding.Free? {
      i :| 0 <= i < j && OnlyProvider(ps, i, j) && ps[i].binding.Free?;
      assert row[j] in Candidates(w, ps, row[..j], Paired);
      DirtyPartnerReachesProvider(sc, w, ps, row, i, j, hint);
    }
  }

  lemma DirtyDriverIsNarrowed(w: WorldState, ps: seq<Query>, dirty: set<Entity>, row: seq<Entity>, i: nat)
    requires WellBound(ps) && Enumerated(w, ps, row, 0, Paired)
    requires i < |ps| && ps[i].binding.Free? && row[i] in dirty && row[i] in Rows(w, ps[i])
    requires LargeCount(w, ps) <= 1 && !TinyDirty(w, ps, dirty)
    ensures row in Build(w, ps, [], Hinted(dirty))
  {
    forall k | 0 <= k < |ps| ensures row[k] in Candidates(w, ps, row[..k], Hinted(dirty)) {
      assert row[k] in Candidates(w, ps, row[..k], Paired);
      CandidateIsNarrowed(w, ps, dirty, row, i, k);
    }
    BuildMembers(w, ps, [], Hinted(dirty), row);
  }

  /** Only the dirty driver can be large, so narrowing it keeps every candidate of the row. */
  lemma CandidateIsNarrowed(w: WorldState, ps: seq<Query>, dirty: set<Entity>, row: seq<Entity>, i: nat, k: nat)
    requires WellBound(ps) && i < |ps| == |row| && k < |ps|
    requires ps[i].binding.Free? && row[i] in dirty && row[i] in Rows(w, ps[i])
    requires LargeCount(w, ps) <= 1 && !TinyDirty(w, ps, dirty)
    requires row[k] in Candidates(w, ps, row[..k], Paired)
    ensures row[k] in Candidates(w, ps, row[..k], Hinted(dirty))
  {
    DirtyDriverIsLarge(w, ps, dirty, row, i);
    if Large(w, ps[k]) { OnlyLarge(w, ps, i, k); }
    NarrowedCandidate(w, ps, row[..k], dirty, row[k], k == i);
  }

  lemma OnlyLarge(w: WorldState, ps: seq<Query>, i: nat, k: nat)
    requires i < |ps| && k < |ps| && LargeCount(w, ps) <= 1 && Large(w, ps[i]) && Large(w, ps[k])
    ensures k == i
  {
    if k < i { OneLarge(w, ps, k, i); } else if i < k { OneLarge(w, ps, i, k); }
  }

  lemma NarrowedCandidate(w: WorldState, ps: seq<Query>, picked: seq<Entity>, dirty: set<Entity>, e: Entity, driver: bool)
    requires |picked| < |ps| && Formed(ps[|picked|]) && Required(ps[|picked|]) != []
    requires e in Candidates(w, ps, picked, Paired) && (Large(w, ps[|picked|]) ==> driver)
    requires driver ==> ps[|picked|].binding.Free? && e in dirty
    ensures e in Candidates(w, ps, picked, Hinted(dirty))
  {
    if Large(w, ps[|picked|]) {
      assert Candidates(w, ps, picked, Paired) == Rows(w, ps[|picked|]);
      ListedPassesNarrowing(w, ps[|picked|], dirty, e);
    }
  }

  lemma ListedPassesNarrowing(w: WorldState, q: Query, dirty: set<Entity>, e: Entity)
    requires Formed(q) && Required(q) != [] && e in Rows(w, q) && e in dirty
    ensures e in Narrow(w, q, Sorted(dirty))
  {
    RowsAre(w, q);
    NarrowedIsListed(w, q, e);
  }

  lemma DirtyDriverIsLarge(w: WorldState, ps: seq<Query>, dirty: set<Entity>, row: seq<Entity>, i: nat)
    requires WellBound(ps) && i < |ps| == |row|
    requires ps[i].binding.Free? && row[i] in dirty && row[i] in Rows(w, ps[i]) && !TinyDirty(w, ps, dirty)
    ensures Large(w, ps[i])
  {}

  ghost predicate JoinsInverses(sc: Schema, ps: seq<Query>) {
    forall j :: 0 <= j < |ps| && ps[j].binding.InOf? ==> sc.Kind(ps[j].binding.inverse).Inverse?
  }

  /** The hint is used to narrow the one large driver. */
  predicate Narrows(sc: Schema, w: WorldState, ps: seq<Query>, hint: set<Entity>)
    requires forall j :: 0 <= j < |ps| ==> Required(ps[j]) != []
  {
    LargeCount(w, ps) <= 1 && !TinyDirty(w, ps, Widened(sc, w, ps, hint))
  }

  /**
   A hinted row is a row of the full plan, if and only if the hint was not used to narrow a bare handle to an entity
   that lacks its anchor.
   */
  lemma HintedRowsAreRows(sc: Schema, w: WorldState, ps: seq<Query>, hint: set<Entity>, row: seq<Entity>)
    requires WellBound(ps)
    requires row in StatesHinted(sc, w, ps, hint)
    ensures |row| == |ps|
    ensures row in States(w, ps) <==>
              (Narrows(sc, w, ps, hint) ==>
                 forall k :: 0 <= k < |ps| && Large(w, ps[k]) ==> Exact(ps[k]) || Carries(w, ps[k].anchor, row[k]))
  {
    var dirty := Widened(sc, w, ps, hint);
    BuildMembers(w, ps, [], Paired, row);
    if Narrows(sc, w, ps, hint) {
      BuildMembers(w, ps, [], Hinted(dirty), row);
      forall k | 0 <= k < |ps|
        ensures row[k] in Candidates(w, ps, row[..k], Paired) <==>
                  (Large(w, ps[k]) ==> Exact(ps[k]) || Carries(w, ps[k].anchor, row[k]))
      {
        assert row[k] in Candidates(w, ps, row[..k], Hinted(dirty));
        if Large(w, ps[k]) {
          RowsAre(w, ps[k]);
          NarrowedIsListed(w, ps[k], row[k]);
        }
      }
    }
  }

  /** A lone query's hinted plan invents no row, if and only if no hinted entity that passes its filter lacks its anchor. */
  lemma HintInventsNothingIff(sc: Schema, w: WorldState, q: Query, hint: set<Entity>)
    requires WellBound([q]) && Large(w, q)
    ensures (forall row :: row in StatesHinted(sc, w, [q], hint) ==> row in States(w, [q])) <==>
              Exact(q) || forall e :: e in hint && Lacks(w, q.without, e) ==> Carries(w, q.anchor, e)
  {
    var ps := [q];
    assert LargeCount(w, ps) == 1 + LargeCount(w, ps[1..]);
    assert Widened(sc, w, ps, hint) == hint;
    forall row | row in StatesHinted(sc, w, ps, hint)
      ensures |row| == 1 && row[0] in hint && Narrowed(w, q, row[0])
      ensures row in States(w, ps) <==> Exact(q) || Carries(w, q.anchor, row[0])
    {
      HintedRowsAreRows(sc, w, ps, hint, row);
      BuildMembers(w, ps, [], Hinted(hint), row);
      assert row[0] in Candidates(w, ps, row[..0], Hinted(hint));
    }
    if !Exact(q) {
      forall e | e in hint && Lacks(w, q.without, e) ensures [e] in StatesHinted(sc, w, ps, hint) {
        assert [e][..0] == [];
        assert e in Candidates(w, ps, [], Hinted(hint));
        BuildMembers(w, ps, [], Hinted(hint), [e]);
      }
    }
  }

  // ---- nothing outside the hint has changed ----

  /** Everything planning reads of `e` in store `t`. */
  ghost predicate SameFor(w: WorldState, w': WorldState, t: TypeId, e: Entity) {
    Rev(w, t, e) == Rev(w', t, e) && Members(w, t, e) == Members(w', t, e)
  }

  ghost predicate KeysOf(ps: seq<Query>, k: TypeId) {
    exists j :: 0 <= j < |ps| && ps[j].binding == EqOn(k)
  }

  /** The hint names every entity whose stored facts of interest moved between two snapshots. */
  ghost predicate Covers(w: WorldState, w': WorldState, ps: seq<Query>, hint: set<Entity>) {
    && (forall t, e: Entity :: t in InterestOf(ps) && e !in hint ==> SameFor(w, w', t, e))
    && (forall k, e: Entity :: KeysOf(ps, k) && e !in hint ==> StampAt(w, k, e) == StampAt(w', k, e))
  }

  /** A row none of whose keys is hinted is a row of both snapshots, with the same dependencies. */
  lemma UntouchedRowIsOld(sc: Schema, w: WorldState, w': WorldState, ps: seq<Query>, hint: set<Entity>, row: seq<Entity>)
    requires IndexExact(w) && IndexExact(w') && WellBound(ps) && Covers(w, w', ps, hint)
    requires row in States(w', ps) && !Touches(row, hint)
    ensures |row| == |ps| && row in States(w, ps) && RowDeps(sc, w, ps, row) == RowDeps(sc, w', ps, row)
  {
    BuildMembers(w', ps, [], Paired, row);
    BuildMembers(w, ps, [], Paired, row);
    assert forall j :: 0 <= j < |row| ==> row[j] !in hint;
    forall j | 0 <= j < |ps| ensures row[j] in Candidates(w, ps, row[..j], Paired) {
      assert row[j] in Candidates(w', ps, row[..j], Paired);
      CandidateIsOld(w, w', ps, hint, row, j);
    }
    forall j, t | 0 <= j < |ps| && t in Interest(ps[j]) ensures Rev(w, t, row[j]) == Rev(w', t, row[j]) {
      InterestCovers(ps, j);
      assert SameFor(w, w', t, row[j]);
    }
    RowDepsSame(sc, w, w', ps, row);
  }

  lemma CandidateIsOld(w: WorldState, w': WorldState, ps: seq<Query>, hint: set<Entity>, row: seq<Entity>, j: nat)
    requires IndexExact(w) && IndexExact(w') && WellBound(ps) && Covers(w, w', ps, hint)
    requires |row| == |ps| && j < |ps| && forall i :: 0 <= i < |row| ==> row[i] !in hint
    requires row[j] in Candidates(w', ps, row[..j], Paired)
    ensures row[j] in Candidates(w, ps, row[..j], Paired)
  {
    var q := ps[j];
    var i := ProviderFrom(ps, j, 0);
    InterestCovers(ps, j);
    forall t | t in Interest(q) ensures Has(w, t, row[j]) == Has(w', t, row[j]) {
      assert SameFor(w, w', t, row[j]);
    }
    MatchesSame(w, w', q, row[j]);
    if !q.binding.Free? {
      var p :| 0 <= p < j && OnlyProvider(ps, p, j);
      ProviderFound(ps, p, j, 0);
      BindingIsOld(w, w', ps, hint, row, i, j);
    }
    PairRowAt(w, ps, row[..j], i, row[j]);
    PairRowAt(w', ps, row[..j], i, row[j]);
  }

  /** Two unhinted entities are bound as they were. */
  lemma BindingIsOld(w: WorldState, w': WorldState, ps: seq<Query>, hint: set<Entity>, row: seq<Entity>, i: nat, j: nat)
    requires Covers(w, w', ps, hint) && |row| == |ps| && i < j < |ps| && i == ProviderFrom(ps, j, 0)
    requires row[i] !in hint && row[j] !in hint
    ensures Bound(w, ps, row[..j] + [row[j]], j) == Bound(w', ps, row[..j] + [row[j]], j)
  {
    var pair := row[..j] + [row[j]];
    assert pair[i] == row[i] && pair[j] == row[j];
    match ps[j].binding {
      case Free =>
      case EqOn(k) =>
        assert KeysOf(ps, k);
      case InOf(v) =>
        InterestCovers(ps, j);
        assert v in Interest(ps[j]);
        assert SameFor(w, w', v, row[i]);
    }
  }

  /**
   Hinted planning is complete: a row of the full plan that it leaves out was already a row at the snapshot the
   hint starts from, with the same dependencies.
   */
  lemma HintedPlanningIsComplete(sc: Schema, w: WorldState, w': WorldState, ps: seq<Query>, hint: set<Entity>, row: seq<Entity>)
    requires sc.Valid() && IndexExact(w) && IndexExact(w') && InversesExact(sc, w')
    requires WellBound(ps) && FreeProviders(ps) && JoinsInverses(sc, ps)
    requires Covers(w, w', ps, hint)
    requires row in States(w', ps) && row !in StatesHinted(sc, w', ps, hint)
    ensures |row| == |ps| && row in States(w, ps) && RowDeps(sc, w, ps, row) == RowDeps(sc, w', ps, row)
  {
    if Touches(row, hint) {
      TouchedRowsArePlanned(sc, w', ps, hint, row);
    } else {
      UntouchedRowIsOld(sc, w, w', ps, hint, row);
    }
  }

  // ---- the log as a hint ----

  ghost predicate HintsTail(w: WorldState, w': WorldState, ps: seq<Query>, hint: set<Entity>) {
    forall t, e: Entity :: t in InterestOf(ps) && Logged(w, w', t, e) ==> e in hint
  }

  /** No untracked join key outside the hint has been restamped in place: the one change neither revision nor log tells. */
  ghost predicate KeysHeld(sc: Schema, w: WorldState, w': WorldState, ps: seq<Query>, hint: set<Entity>) {
    forall k, e: Entity :: KeysOf(ps, k) && !sc.Tracked(k) && e !in hint ==> StampAt(w, k, e) == StampAt(w', k, e)
  }

  /** The unread log tail of a run covers every change, if and only if no untracked join key was restamped unseen. */
  lemma LogTailCovers(sc: Schema, w: WorldState, w': WorldState, ps: seq<Query>, hint: set<Entity>)
    requires Evolves(sc, w, w') && HintsTail(w, w', ps, hint)
    ensures Covers(w, w', ps, hint) <==> KeysHeld(sc, w, w', ps, hint)
  {
    forall t, e: Entity | t in InterestOf(ps) && e !in hint ensures SameFor(w, w', t, e) {
      assert !Logged(w, w', t, e);
      assert Link(w, t, e) == Link(w', t, e);
    }
    forall k, e: Entity | KeysOf(ps, k) && sc.Tracked(k) && e !in hint ensures StampAt(w, k, e) == StampAt(w', k, e) {
      var j :| 0 <= j < |ps| && ps[j].binding == EqOn(k);
      InterestCovers(ps, j);
      assert k in Keyed(ps[j]) && k in Required(ps[j]);
      assert SameFor(w, w', k, e);
    }
  }

  /** Planning from the unread log tail leaves out only rows that stand as they did, while the log is one and the same. */
  lemma LogPlanningIsComplete(sc: Schema, w: WorldState, w': WorldState, ps: seq<Query>, hint: set<Entity>, row: seq<Entity>)
    requires Inv(sc, w, {}) && Inv(sc, w', {}) && Evolves(sc, w, w')
    requires WellBound(ps) && FreeProviders(ps) && JoinsInverses(sc, ps)
    requires HintsTail(w, w', ps, hint) && KeysHeld(sc, w, w', ps, hint)
    requires row in Specified(w', ps) && row !in StatesHinted(sc, w', ps, hint)
    ensures |row| == |ps| && row in Specified(w, ps) && RowDeps(sc, w, ps, row) == RowDeps(sc, w', ps, row)
  {
    LogTailCovers(sc, w, w', ps, hint);
    CoveredPlanningIsComplete(sc, w, w', ps, hint, row);
  }

  /** So does planning from any hint that covers what has changed, in rows of the pruned product. */
  lemma CoveredPlanningIsComplete(sc: Schema, w: WorldState, w': WorldState, ps: seq<Query>, hint: set<Entity>, row: seq<Entity>)
    requires Inv(sc, w, {}) && Inv(sc, w', {}) && Covers(w, w', ps, hint)
    requires WellBound(ps) && FreeProviders(ps) && JoinsInverses(sc, ps)
    requires row in Specified(w', ps) && row !in StatesHinted(sc, w', ps, hint)
    ensures |row| == |ps| && row in Specified(w, ps) && RowDeps(sc, w, ps, row) == RowDeps(sc, w', ps, row)
  {
    InversesReadable(sc, w, ps);
    InversesReadable(sc, w', ps);
    PrunedProductIsSievedPairs(w, ps);
    PrunedProductIsSievedPairs(w', ps);
    if Touches(row, hint) {
      TouchedRowsArePlanned(sc, w', ps, hint, row);
    } else {
      UntouchedRowIsOld(sc, w, w', ps, hint, row);
      forall j | 0 <= j < |ps| ensures AnchoredAt(w, ps[j], row[j]) {
        assert AnchoredAt(w', ps[j], row[j]) && row[j] !in hint;
        InterestCovers(ps, j);
        forall t | t in Interest(ps[j]) ensures Has(w, t, row[j]) == Has(w', t, row[j]) { assert SameFor(w, w', t, row[j]); }
        MatchesSame(w, w', ps[j], row[j]);
      }
    }
  }

  lemma InversesReadable(sc: Schema, w: WorldState, ps: seq<Query>)
    requires Inv(sc, w, {}) && JoinsInverses(sc, ps)
    ensures Readable(w, ps)
  {
    forall v, e: Entity | InOf(v) in Bindings(ps) ensures StrictlySorted(Members(w, v, e)) {
      var j :| 0 <= j < |ps| && ps[j].binding == InOf(v);
      if Has(w, v, e) {}
    }
  }
}
