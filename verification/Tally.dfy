/** Counting the accesses held by live records: the meaning of the reservation counters. */
module Tallies {
  import opened Ids
  import opened Ascending
  import A = Accesses

  /** An access whose component is a dense slot number. */
  datatype Resolved = Resolved(component: nat, entity: Option<Entity>, kind: A.AccessKind)

  datatype Record = Record(owner: Owner, accesses: seq<Resolved>, writer: bool)

  /** A record slot; `generation` counts the records it has outlived. */
  datatype Slot = Slot(generation: nat, record: Option<Record>)

  datatype Counts = Counts(readers: nat, writers: nat) {

    predicate Any() {
      readers != 0 || writers != 0
    }

    predicate Conflicts(kind: A.AccessKind) {
      match kind
      case Read => writers != 0
      case Write => Any()
    }

    function Of(kind: A.AccessKind): nat {
      match kind
      case Read => readers
      case Write => writers
    }

    function Add(kind: A.AccessKind): Counts {
      match kind
      case Read => this.(readers := readers + 1)
      case Write => this.(writers := writers + 1)
    }

    function Remove(kind: A.AccessKind): Counts
      requires Of(kind) > 0
    {
      match kind
      case Read => this.(readers := readers - 1)
      case Write => this.(writers := writers - 1)
    }
  }

  const NONE := Counts(0, 0)

  datatype ComponentAccess = ComponentAccess(total: Counts, whole: Counts, rows: map<Entity, Counts>) {

    function Row(e: Entity): Counts {
      if e in rows then rows[e] else NONE
    }

    /** The counter test: a whole-store access meets everything, a row access the whole store and its row. */
    predicate Conflicts(x: Resolved) {
      match x.entity
      case None => total.Conflicts(x.kind)
      case Some(e) => whole.Conflicts(x.kind) || (e in rows && rows[e].Conflicts(x.kind))
    }

    function Add(x: Resolved): ComponentAccess {
      match x.entity
      case None => this.(total := total.Add(x.kind), whole := whole.Add(x.kind))
      case Some(e) => this.(total := total.Add(x.kind), rows := rows[e := Row(e).Add(x.kind)])
    }

    /** A row whose counts reach zero leaves the map. */
    function Remove(x: Resolved): ComponentAccess
      requires total.Of(x.kind) > 0
      requires match x.entity case None => whole.Of(x.kind) > 0 case Some(e) => Row(e).Of(x.kind) > 0
    {
      match x.entity
      case None => this.(total := total.Remove(x.kind), whole := whole.Remove(x.kind))
      case Some(e) =>
        var left := Row(e).Remove(x.kind);
        this.(total := total.Remove(x.kind), rows := if left.Any() then rows[e := left] else rows - {e})
    }
  }

  const IDLE := ComponentAccess(NONE, NONE, map[])

  // ---- tallies ----

  datatype Scope = Everything | WholeStore | OneRow(e: Entity)

  predicate Falls(x: Resolved, c: nat, scope: Scope, kind: A.AccessKind) {
    x.component == c && x.kind == kind &&
    match scope
    case Everything => true
    case WholeStore => x.entity.None?
    case OneRow(e) => x.entity == Some(e)
  }

  function TallyOf(xs: seq<Resolved>, c: nat, scope: Scope, kind: A.AccessKind): nat {
    if xs == [] then 0 else (if Falls(xs[0], c, scope, kind) then 1 else 0) + TallyOf(xs[1..], c, scope, kind)
  }

  function Held(s: Slot): seq<Resolved> {
    if s.record.Some? then s.record.value.accesses else []
  }

  function Tally(slots: seq<Slot>, c: nat, scope: Scope, kind: A.AccessKind): nat {
    if slots == [] then 0 else TallyOf(Held(slots[0]), c, scope, kind) + Tally(slots[1..], c, scope, kind)
  }

  lemma {:induction false} TallyUpdate(slots: seq<Slot>, i: nat, s: Slot, c: nat, scope: Scope, kind: A.AccessKind)
    requires i < |slots|
    ensures Tally(slots[i := s], c, scope, kind) + TallyOf(Held(slots[i]), c, scope, kind)
            == Tally(slots, c, scope, kind) + TallyOf(Held(s), c, scope, kind)
  {
    if i > 0 {
      assert slots[i := s][1..] == slots[1..][i - 1 := s];
      TallyUpdate(slots[1..], i - 1, s, c, scope, kind);
    } else {
      assert slots[i := s][1..] == slots[1..];
    }
  }

  lemma {:induction false} TallyPush(slots: seq<Slot>, s: Slot, c: nat, scope: Scope, kind: A.AccessKind)
    ensures Tally(slots + [s], c, scope, kind) == Tally(slots, c, scope, kind) + TallyOf(Held(s), c, scope, kind)
  {
    if slots == [] {
      assert (slots + [s])[1..] == [];
    } else {
      assert (slots + [s])[1..] == slots[1..] + [s];
      TallyPush(slots[1..], s, c, scope, kind);
    }
  }

  lemma {:induction false} TallyOfPush(xs: seq<Resolved>, x: Resolved, c: nat, scope: Scope, kind: A.AccessKind)
    ensures TallyOf(xs + [x], c, scope, kind) == TallyOf(xs, c, scope, kind) + if Falls(x, c, scope, kind) then 1 else 0
  {
    if xs == [] {
      assert (xs + [x])[1..] == [];
    } else {
      assert (xs + [x])[1..] == xs[1..] + [x];
      TallyOfPush(xs[1..], x, c, scope, kind);
    }
  }

  lemma {:induction false} TallyOfPositive(xs: seq<Resolved>, c: nat, scope: Scope, kind: A.AccessKind)
    ensures TallyOf(xs, c, scope, kind) > 0 <==> exists j :: 0 <= j < |xs| && Falls(xs[j], c, scope, kind)
  {
    if xs != [] {
      TallyOfPositive(xs[1..], c, scope, kind);
      if exists j :: 0 <= j < |xs| && Falls(xs[j], c, scope, kind) {
        var j :| 0 <= j < |xs| && Falls(xs[j], c, scope, kind);
        if j > 0 { assert xs[1..][j - 1] == xs[j]; }
      }
      if j :| 0 <= j < |xs[1..]| && Falls(xs[1..][j], c, scope, kind) { assert xs[j + 1] == xs[1..][j]; }
    }
  }

  /** A tally is positive exactly when some live record holds such an access. */
  lemma {:induction false} TallyPositive(slots: seq<Slot>, c: nat, scope: Scope, kind: A.AccessKind)
    ensures Tally(slots, c, scope, kind) > 0 <==>
              exists i, j :: 0 <= i < |slots| && 0 <= j < |Held(slots[i])| && Falls(Held(slots[i])[j], c, scope, kind)
  {
    if slots != [] {
      TallyOfPositive(Held(slots[0]), c, scope, kind);
      TallyPositive(slots[1..], c, scope, kind);
      if i, j :| 0 <= i < |slots| && 0 <= j < |Held(slots[i])| && Falls(Held(slots[i])[j], c, scope, kind) {
        if i > 0 { assert slots[1..][i - 1] == slots[i]; }
      }
      if i, j :| 0 <= i < |slots[1..]| && 0 <= j < |Held(slots[1..][i])| && Falls(Held(slots[1..][i])[j], c, scope, kind) {
        assert slots[i + 1] == slots[1..][i];
      }
    }
  }

  // ---- counters against tallies ----

  /** The counters are the tallies of the live records and of the accesses in `extra`, and no row is kept at zero. */
  ghost predicate Exact(components: seq<ComponentAccess>, slots: seq<Slot>, extra: seq<Resolved>) {
    && (forall c, kind :: 0 <= c < |components| ==>
          && components[c].total.Of(kind) == Tally(slots, c, Everything, kind) + TallyOf(extra, c, Everything, kind)
          && components[c].whole.Of(kind) == Tally(slots, c, WholeStore, kind) + TallyOf(extra, c, WholeStore, kind))
    && (forall c, kind, e: Entity :: 0 <= c < |components| ==>
          components[c].Row(e).Of(kind) == Tally(slots, c, OneRow(e), kind) + TallyOf(extra, c, OneRow(e), kind))
    && (forall c, e: Entity :: 0 <= c < |components| && e in components[c].rows ==> components[c].rows[e].Any())
  }

  lemma AddIsExact(components: seq<ComponentAccess>, slots: seq<Slot>, extra: seq<Resolved>, x: Resolved)
    requires Exact(components, slots, extra) && x.component < |components|
    ensures Exact(components[x.component := components[x.component].Add(x)], slots, extra + [x])
  {
    var after := components[x.component := components[x.component].Add(x)];
    forall c, scope, kind ensures
      TallyOf(extra + [x], c, scope, kind) == TallyOf(extra, c, scope, kind) + if Falls(x, c, scope, kind) then 1 else 0
    {
      TallyOfPush(extra, x, c, scope, kind);
    }
    forall c, kind, e: Entity | 0 <= c < |after|
      ensures after[c].Row(e).Of(kind) == Tally(slots, c, OneRow(e), kind) + TallyOf(extra + [x], c, OneRow(e), kind)
    {
      assert components[c].Row(e).Of(kind) == Tally(slots, c, OneRow(e), kind) + TallyOf(extra, c, OneRow(e), kind);
    }
  }

  lemma RemoveIsExact(components: seq<ComponentAccess>, slots: seq<Slot>, extra: seq<Resolved>, x: Resolved)
    requires Exact(components, slots, [x] + extra) && x.component < |components|
    ensures components[x.component].total.Of(x.kind) > 0
    ensures match x.entity case None => components[x.component].whole.Of(x.kind) > 0
                           case Some(e) => components[x.component].Row(e).Of(x.kind) > 0
    ensures Exact(components[x.component := components[x.component].Remove(x)], slots, extra)
  {
    var all := [x] + extra;
    assert all[1..] == extra;
    forall c, scope, kind ensures
      TallyOf(all, c, scope, kind) == (if Falls(x, c, scope, kind) then 1 else 0) + TallyOf(extra, c, scope, kind)
    {}
    if x.entity.Some? {
      var e := x.entity.value;
      assert components[x.component].Row(e).Of(x.kind) == Tally(slots, x.component, OneRow(e), x.kind) + TallyOf(all, x.component, OneRow(e), x.kind);
    }
    var after := components[x.component := components[x.component].Remove(x)];
    forall c, kind, e: Entity | 0 <= c < |after|
      ensures after[c].Row(e).Of(kind) == Tally(slots, c, OneRow(e), kind) + TallyOf(extra, c, OneRow(e), kind)
    {
      assert components[c].Row(e).Of(kind) == Tally(slots, c, OneRow(e), kind) + TallyOf(all, c, OneRow(e), kind);
      RowAfterRemove(components[x.component], x, e, kind);
    }
    forall c, e: Entity | 0 <= c < |after| && e in after[c].rows ensures after[c].rows[e].Any() {
      if c != x.component || Some(e) != x.entity { assert components[c].rows[e].Any(); }
    }
  }

  lemma RowAfterRemove(ca: ComponentAccess, x: Resolved, e: Entity, kind: A.AccessKind)
    requires ca.total.Of(x.kind) > 0
    requires match x.entity case None => ca.whole.Of(x.kind) > 0 case Some(f) => ca.Row(f).Of(x.kind) > 0
    ensures ca.Remove(x).Row(e).Of(kind) == if x.entity == Some(e) && x.kind == kind then ca.Row(e).Of(kind) - 1 else ca.Row(e).Of(kind)
  {}

  /** The pairwise rule on resolved accesses. */
  predicate Meets(x: Resolved, y: Resolved) {
    && x.component == y.component
    && (x.kind.Write? || y.kind.Write?)
    && (x.entity.Some? && y.entity.Some? ==> x.entity == y.entity)
  }

  /** Some access of some live record meets `x`. */
  ghost predicate MeetsSome(slots: seq<Slot>, x: Resolved) {
    exists i, j :: 0 <= i < |slots| && 0 <= j < |Held(slots[i])| && Meets(x, Held(slots[i])[j])
  }

  lemma CountFindsAccess(components: seq<ComponentAccess>, slots: seq<Slot>, x: Resolved)
    requires Exact(components, slots, []) && x.component < |components| && components[x.component].Conflicts(x)
    ensures MeetsSome(slots, x)
  {
    var scope, kind := FoundCount(components, slots, x);
    TallyPositive(slots, x.component, scope, kind);
    var i, j :| 0 <= i < |slots| && 0 <= j < |Held(slots[i])| && Falls(Held(slots[i])[j], x.component, scope, kind);
    assert Meets(x, Held(slots[i])[j]);
  }

  lemma AccessIsCounted(components: seq<ComponentAccess>, slots: seq<Slot>, x: Resolved)
    requires Exact(components, slots, []) && x.component < |components| && MeetsSome(slots, x)
    ensures components[x.component].Conflicts(x)
  {
    var c := x.component;
    var i, j :| 0 <= i < |slots| && 0 <= j < |Held(slots[i])| && Meets(x, Held(slots[i])[j]);
    var y := Held(slots[i])[j];
    var scope := if x.entity.None? then Everything else if y.entity.None? then WholeStore else OneRow(y.entity.value);
    assert Falls(y, c, scope, y.kind);
    TallyPositive(slots, c, scope, y.kind);
    if scope.OneRow? {
      assert components[c].Row(scope.e).Of(y.kind) == Tally(slots, c, scope, y.kind) + TallyOf([], c, scope, y.kind);
    }
  }

  /** The counter test decides the pairwise rule against every access of every live record. */
  lemma CountersDecide(components: seq<ComponentAccess>, slots: seq<Slot>, x: Resolved)
    requires Exact(components, slots, []) && x.component < |components|
    ensures components[x.component].Conflicts(x) <==> MeetsSome(slots, x)
  {
    if components[x.component].Conflicts(x) { CountFindsAccess(components, slots, x); }
    if MeetsSome(slots, x) { AccessIsCounted(components, slots, x); }
  }

  lemma FoundCount(components: seq<ComponentAccess>, slots: seq<Slot>, x: Resolved) returns (scope: Scope, kind: A.AccessKind)
    requires Exact(components, slots, []) && x.component < |components| && components[x.component].Conflicts(x)
    ensures Tally(slots, x.component, scope, kind) > 0 && (x.kind.Write? || kind.Write?)
    ensures x.entity.Some? ==> scope == WholeStore || scope == OneRow(x.entity.value)
  {
    var ca := components[x.component];
    match x.entity {
      case None =>
        scope := Everything;
        kind := if ca.total.writers != 0 then A.Write else A.Read;
        assert ca.total.Of(kind) > 0;
      case Some(e) =>
        if ca.whole.Conflicts(x.kind) {
          scope := WholeStore;
          kind := if ca.whole.writers != 0 then A.Write else A.Read;
          assert ca.whole.Of(kind) > 0;
        } else {
          scope := OneRow(e);
          kind := if ca.rows[e].writers != 0 then A.Write else A.Read;
          assert ca.Row(e).Of(kind) > 0;
          assert ca.Row(e).Of(kind) == Tally(slots, x.component, OneRow(e), kind) + TallyOf([], x.component, OneRow(e), kind);
        }
    }
  }

  // ---- total, whole store and rows ----

  function SumRows(ca: ComponentAccess, es: seq<Entity>, kind: A.AccessKind): nat {
    if es == [] then 0 else ca.Row(es[0]).Of(kind) + SumRows(ca, es[1..], kind)
  }

  function SumTally(slots: seq<Slot>, c: nat, es: seq<Entity>, kind: A.AccessKind): nat {
    if es == [] then 0 else Tally(slots, c, OneRow(es[0]), kind) + SumTally(slots, c, es[1..], kind)
  }

  function SumTallyOf(xs: seq<Resolved>, c: nat, es: seq<Entity>, kind: A.AccessKind): nat {
    if es == [] then 0 else TallyOf(xs, c, OneRow(es[0]), kind) + SumTallyOf(xs, c, es[1..], kind)
  }

  /** An access to a listed row adds one to the sum over an ascending list, any other adds nothing. */
  lemma {:induction false} SumStep(xs: seq<Resolved>, c: nat, es: seq<Entity>, kind: A.AccessKind)
    requires xs != [] && StrictlySorted(es)
    ensures SumTallyOf(xs, c, es, kind) == SumTallyOf(xs[1..], c, es, kind)
              + if Falls(xs[0], c, Everything, kind) && xs[0].entity.Some? && xs[0].entity.value in es then 1 else 0
  {
    if es != [] {
      SumStep(xs, c, es[1..], kind);
      assert forall y :: y in es <==> y == es[0] || y in es[1..];
      forall i | 0 <= i < |es[1..]| ensures es[1..][i] != es[0] { assert es[1..][i] == es[i + 1]; }
    }
  }

  lemma {:induction false} PartsOf(xs: seq<Resolved>, c: nat, es: seq<Entity>, kind: A.AccessKind)
    requires StrictlySorted(es)
    requires forall j :: 0 <= j < |xs| && Falls(xs[j], c, Everything, kind) && xs[j].entity.Some? ==> xs[j].entity.value in es
    ensures TallyOf(xs, c, Everything, kind) == TallyOf(xs, c, WholeStore, kind) + SumTallyOf(xs, c, es, kind)
  {
    if xs == [] {
      NoneSum(c, es, kind);
    } else {
      assert forall j :: 0 <= j < |xs[1..]| ==> xs[1..][j] == xs[j + 1];
      PartsOf(xs[1..], c, es, kind);
      SumStep(xs, c, es, kind);
    }
  }

  lemma {:induction false} NoneSum(c: nat, es: seq<Entity>, kind: A.AccessKind)
    ensures SumTallyOf([], c, es, kind) == 0
    ensures SumTally([], c, es, kind) == 0
  {
    if es != [] { NoneSum(c, es[1..], kind); }
  }

  lemma {:induction false} SumSplits(slots: seq<Slot>, c: nat, es: seq<Entity>, kind: A.AccessKind)
    requires slots != []
    ensures SumTally(slots, c, es, kind) == SumTallyOf(Held(slots[0]), c, es, kind) + SumTally(slots[1..], c, es, kind)
  {
    if es != [] { SumSplits(slots, c, es[1..], kind); }
  }

  lemma {:induction false} Parts(slots: seq<Slot>, c: nat, es: seq<Entity>, kind: A.AccessKind)
    requires StrictlySorted(es)
    requires forall e: Entity :: Tally(slots, c, OneRow(e), kind) > 0 ==> e in es
    ensures Tally(slots, c, Everything, kind) == Tally(slots, c, WholeStore, kind) + SumTally(slots, c, es, kind)
  {
    if slots == [] {
      NoneSum(c, es, kind);
    } else {
      var xs := Held(slots[0]);
      forall j | 0 <= j < |xs| && Falls(xs[j], c, Everything, kind) && xs[j].entity.Some? ensures xs[j].entity.value in es {
        assert Falls(xs[j], c, OneRow(xs[j].entity.value), kind);
        TallyOfPositive(xs, c, OneRow(xs[j].entity.value), kind);
        assert Tally(slots, c, OneRow(xs[j].entity.value), kind) > 0;
      }
      PartsOf(xs, c, es, kind);
      forall e: Entity | Tally(slots[1..], c, OneRow(e), kind) > 0 ensures e in es {
        assert Tally(slots, c, OneRow(e), kind) > 0;
      }
      Parts(slots[1..], c, es, kind);
      SumSplits(slots, c, es, kind);
    }
  }

  lemma {:induction false} SumsAgree(components: seq<ComponentAccess>, slots: seq<Slot>, c: nat, es: seq<Entity>, kind: A.AccessKind)
    requires Exact(components, slots, []) && c < |components|
    ensures SumRows(components[c], es, kind) == SumTally(slots, c, es, kind)
  {
    if es != [] {
      assert components[c].Row(es[0]).Of(kind) == Tally(slots, c, OneRow(es[0]), kind) + TallyOf([], c, OneRow(es[0]), kind);
      SumsAgree(components, slots, c, es[1..], kind);
    }
  }

  /** In every component, total = whole store + sum of rows. */
  lemma TotalIsWholePlusRows(components: seq<ComponentAccess>, slots: seq<Slot>, c: nat, kind: A.AccessKind)
    requires Exact(components, slots, []) && c < |components|
    ensures components[c].total.Of(kind)
            == components[c].whole.Of(kind) + SumRows(components[c], Sorted(components[c].rows.Keys), kind)
  {
    var es := Sorted(components[c].rows.Keys);
    forall e: Entity | Tally(slots, c, OneRow(e), kind) > 0 ensures e in es {
      assert components[c].Row(e).Of(kind) == Tally(slots, c, OneRow(e), kind) + TallyOf([], c, OneRow(e), kind);
    }
    Parts(slots, c, es, kind);
    SumsAgree(components, slots, c, es, kind);
  }
}
