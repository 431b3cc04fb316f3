/**
 The reservation table of one phase: admission by counters, records in generational slots. `Reservations.live` is
 what it means: the claims of the invocations in flight, by run id.
 */
module ReservationTable {
  import opened Ids
  import opened Tallies
  import A = Accesses

  datatype RunId = RunId(slot: nat, generation: nat)

  datatype Claim = Claim(owner: Owner, accesses: seq<A.Access>)

  datatype Outcome = Admitted(id: RunId) | Duplicate | Conflict(owner: Owner)

  const MAX_U32: nat := 0xFFFF_FFFF

  // ---- component numbering ----

  /** The slot number of a component type: the schema's, or one given out on first use. */
  function Numbered(schema: map<TypeId, nat>, extra: map<TypeId, nat>, t: TypeId): Option<nat> {
    if t in schema then Some(schema[t]) else if t in extra then Some(extra[t]) else None
  }

  ghost predicate Numbering(schema: map<TypeId, nat>, extra: map<TypeId, nat>, n: nat) {
    && (forall t :: t in schema ==> schema[t] < n)
    && (forall t :: t in extra ==> extra[t] < n && t !in schema)
    && (forall t, u :: Numbered(schema, extra, t).Some? && Numbered(schema, extra, t) == Numbered(schema, extra, u) ==> t == u)
  }

  ghost predicate Resolves(schema: map<TypeId, nat>, extra: map<TypeId, nat>, a: A.Access, x: Resolved) {
    Numbered(schema, extra, a.component) == Some(x.component) && x.entity == a.entity && x.kind == a.kind
  }

  ghost predicate ResolvesAll(schema: map<TypeId, nat>, extra: map<TypeId, nat>, xs: seq<A.Access>, ys: seq<Resolved>) {
    |xs| == |ys| && forall j :: 0 <= j < |xs| ==> Resolves(schema, extra, xs[j], ys[j])
  }

  /** Numbers given out later change nothing already resolved. */
  lemma ResolvedStays(schema: map<TypeId, nat>, extra: map<TypeId, nat>, more: map<TypeId, nat>, xs: seq<A.Access>, ys: seq<Resolved>)
    requires ResolvesAll(schema, extra, xs, ys) && forall t :: t in extra ==> t in more && more[t] == extra[t]
    ensures ResolvesAll(schema, more, xs, ys)
  {
    forall j | 0 <= j < |xs| ensures Resolves(schema, more, xs[j], ys[j]) { assert Resolves(schema, extra, xs[j], ys[j]); }
  }

  /** Numbering is injective, so numbers meet exactly when types conflict. */
  lemma MeetsIsConflict(schema: map<TypeId, nat>, extra: map<TypeId, nat>, n: nat, a: A.Access, x: Resolved, b: A.Access, y: Resolved)
    requires Numbering(schema, extra, n) && Resolves(schema, extra, a, x) && Resolves(schema, extra, b, y)
    ensures Meets(x, y) <==> A.Conflicts(a, b)
  {}

  // ---- records and ids ----

  ghost predicate LiveAt(slots: seq<Slot>, id: RunId) {
    id.slot < |slots| && slots[id.slot].record.Some? && slots[id.slot].generation == id.generation
  }

  /** The free list names each vacant slot that can be reused, once; an exhausted slot is on it never again. */
  ghost predicate FreeOk(slots: seq<Slot>, free: seq<nat>) {
    && (forall k :: 0 <= k < |free| ==> free[k] < |slots| && slots[free[k]].record.None?)
    && (forall k, l :: 0 <= k < l < |free| ==> free[k] != free[l])
    && (forall i :: 0 <= i < |slots| ==> slots[i].generation <= MAX_U32)
  }

  /** Every id ever given out is behind its slot, or is the one its slot holds or died with. */
  ghost predicate IssuedOk(slots: seq<Slot>, free: seq<nat>, issued: set<RunId>) {
    forall id :: id in issued ==>
      && id.slot < |slots| && id.generation <= slots[id.slot].generation
      && (id.slot in free ==> id.generation < slots[id.slot].generation)
  }

  ghost predicate LiveOk(schema: map<TypeId, nat>, extra: map<TypeId, nat>, slots: seq<Slot>, live: map<RunId, Claim>) {
    && (forall id :: id in live <==> LiveAt(slots, id))
    && (forall id :: id in live ==>
          var r := slots[id.slot].record.value;
          && r.owner == live[id].owner
          && ResolvesAll(schema, extra, live[id].accesses, r.accesses)
          && r.writer == A.Writes(live[id].accesses))
  }

  ghost predicate OwnersOk(owners: map<Owner, RunId>, live: map<RunId, Claim>) {
    && (forall o :: o in owners ==> owners[o] in live && live[owners[o]].owner == o)
    && (forall id :: id in live ==> live[id].owner in owners && owners[live[id].owner] == id)
  }

  /** The pairwise oracle: some live claim holds an access that conflicts with one of these. */
  ghost predicate Blocked(live: map<RunId, Claim>, accesses: seq<A.Access>) {
    exists id :: id in live && A.Clash(accesses, live[id].accesses)
  }

  // ---- counters while records come and go ----

  lemma ExactTransfers(components: seq<ComponentAccess>, slots: seq<Slot>, extra: seq<Resolved>, slots': seq<Slot>, extra': seq<Resolved>)
    requires Exact(components, slots, extra)
    requires forall c, scope, kind ::
      Tally(slots, c, scope, kind) + TallyOf(extra, c, scope, kind) == Tally(slots', c, scope, kind) + TallyOf(extra', c, scope, kind)
    ensures Exact(components, slots', extra')
  {
    forall c, kind, e: Entity | 0 <= c < |components|
      ensures components[c].Row(e).Of(kind) == Tally(slots', c, OneRow(e), kind) + TallyOf(extra', c, OneRow(e), kind)
    {
      assert components[c].Row(e).Of(kind) == Tally(slots, c, OneRow(e), kind) + TallyOf(extra, c, OneRow(e), kind);
    }
  }

  lemma EmptySlotIsExact(components: seq<ComponentAccess>, slots: seq<Slot>, extra: seq<Resolved>)
    requires Exact(components, slots, extra)
    ensures Exact(components, slots + [Slot(0, None)], extra)
  {
    forall c, scope, kind ensures Tally(slots + [Slot(0, None)], c, scope, kind) == Tally(slots, c, scope, kind) {
      TallyPush(slots, Slot(0, None), c, scope, kind);
    }
    ExactTransfers(components, slots, extra, slots + [Slot(0, None)], extra);
  }

  /** Accesses counted ahead belong to the record once it is filed. */
  lemma FiledIsExact(components: seq<ComponentAccess>, slots: seq<Slot>, i: nat, record: Record)
    requires Exact(components, slots, record.accesses) && i < |slots| && slots[i].record.None?
    ensures Exact(components, slots[i := slots[i].(record := Some(record))], [])
  {
    var s := slots[i].(record := Some(record));
    forall c, scope, kind
      ensures Tally(slots, c, scope, kind) + TallyOf(record.accesses, c, scope, kind) == Tally(slots[i := s], c, scope, kind) + TallyOf([], c, scope, kind)
    {
      TallyUpdate(slots, i, s, c, scope, kind);
    }
    ExactTransfers(components, slots, record.accesses, slots[i := s], []);
  }

  lemma VacatedIsExact(components: seq<ComponentAccess>, slots: seq<Slot>, i: nat, s: Slot)
    requires Exact(components, slots, []) && i < |slots| && slots[i].record.Some? && s.record.None?
    ensures Exact(components, slots[i := s], slots[i].record.value.accesses)
  {
    var held := slots[i].record.value.accesses;
    forall c, scope, kind
      ensures Tally(slots, c, scope, kind) + TallyOf([], c, scope, kind) == Tally(slots[i := s], c, scope, kind) + TallyOf(held, c, scope, kind)
    {
      TallyUpdate(slots, i, s, c, scope, kind);
    }
    ExactTransfers(components, slots, [], slots[i := s], held);
  }

  // ---- records while they come and go ----

  /** An emptied slot moves on to its next generation, unless there is none. */
  function Vacated(s: Slot): Slot {
    Slot(if s.generation < MAX_U32 then s.generation + 1 else s.generation, None)
  }

  /** Its number is free again only if it has a next generation. */
  function Released(free: seq<nat>, s: Slot, i: nat): seq<nat> {
    if s.generation < MAX_U32 then free + [i] else free
  }

  lemma FiledIsLive(schema: map<TypeId, nat>, extra: map<TypeId, nat>, slots: seq<Slot>, live: map<RunId, Claim>, i: nat, record: Record, claim: Claim)
    requires LiveOk(schema, extra, slots, live) && i < |slots| && slots[i].record.None?
    requires record.owner == claim.owner && ResolvesAll(schema, extra, claim.accesses, record.accesses) && record.writer == A.Writes(claim.accesses)
    ensures LiveOk(schema, extra, slots[i := slots[i].(record := Some(record))], live[RunId(i, slots[i].generation) := claim])
  {
    var id := RunId(i, slots[i].generation);
    var slots', live' := slots[i := slots[i].(record := Some(record))], live[id := claim];
    forall other ensures other in live' <==> LiveAt(slots', other) { assert other in live <==> LiveAt(slots, other); }
    forall other | other in live'
      ensures var r := slots'[other.slot].record.value;
        r.owner == live'[other].owner && ResolvesAll(schema, extra, live'[other].accesses, r.accesses) && r.writer == A.Writes(live'[other].accesses)
    {
      if other != id { assert other in live && LiveAt(slots, other) && other.slot != i; }
    }
  }

  lemma VacatedIsLive(schema: map<TypeId, nat>, extra: map<TypeId, nat>, slots: seq<Slot>, live: map<RunId, Claim>, id: RunId, vacated: Slot)
    requires LiveOk(schema, extra, slots, live) && id in live && LiveAt(slots, id) && vacated.record.None?
    ensures LiveOk(schema, extra, slots[id.slot := vacated], live - {id})
  {
    var slots', live' := slots[id.slot := vacated], live - {id};
    forall other ensures other in live' <==> LiveAt(slots', other) { assert other in live <==> LiveAt(slots, other); }
    forall other | other in live'
      ensures var r := slots'[other.slot].record.value;
        r.owner == live'[other].owner && ResolvesAll(schema, extra, live'[other].accesses, r.accesses) && r.writer == A.Writes(live'[other].accesses)
    {
      assert other in live && LiveAt(slots, other) && other.slot != id.slot;
    }
  }

  /** Vacating a slot retires its id: it moves behind the slot's generation, or the slot is never reused. */
  lemma VacatedIsIssued(slots: seq<Slot>, free: seq<nat>, issued: set<RunId>, id: RunId)
    requires FreeOk(slots, free) && IssuedOk(slots, free, issued) && LiveAt(slots, id)
    ensures var slots' := slots[id.slot := Vacated(slots[id.slot])];
      var free' := Released(free, slots[id.slot], id.slot);
      FreeOk(slots', free') && IssuedOk(slots', free', issued)
  {
    var slots' := slots[id.slot := Vacated(slots[id.slot])];
    var free' := Released(free, slots[id.slot], id.slot);
    assert forall k :: 0 <= k < |free| ==> free'[k] == free[k] && free[k] != id.slot;
    forall other | other in issued && other.slot in free' ensures other.generation < slots'[other.slot].generation {
      if other.slot != id.slot { assert other.slot in free; }
    }
  }

  lemma FreedSlot(slots: seq<Slot>, free: seq<nat>, issued: set<RunId>)
    requires FreeOk(slots, free) && IssuedOk(slots, free, issued) && free != []
    ensures var i := free[|free| - 1]; var free' := free[..|free| - 1];
      && i < |slots| && slots[i].record.None? && i !in free'
      && RunId(i, slots[i].generation) !in issued
      && FreeOk(slots, free') && IssuedOk(slots, free', issued)
  {
    var i := free[|free| - 1];
    assert i in free;
  }

  lemma PushedSlot(slots: seq<Slot>, free: seq<nat>, issued: set<RunId>)
    requires FreeOk(slots, free) && IssuedOk(slots, free, issued)
    ensures var slots' := slots + [Slot(0, None)];
      && |slots| !in free && RunId(|slots|, 0) !in issued
      && FreeOk(slots', free) && IssuedOk(slots', free, issued)
  {}

  lemma FiledIsIssued(slots: seq<Slot>, free: seq<nat>, issued: set<RunId>, i: nat, record: Record)
    requires FreeOk(slots, free) && IssuedOk(slots, free, issued) && i < |slots| && i !in free
    ensures var slots' := slots[i := slots[i].(record := Some(record))];
      FreeOk(slots', free) && IssuedOk(slots', free, issued + {RunId(i, slots[i].generation)})
  {
    forall k | 0 <= k < |free| ensures free[k] != i { assert free[k] in free; }
  }

  lemma PushedIsLive(schema: map<TypeId, nat>, extra: map<TypeId, nat>, slots: seq<Slot>, live: map<RunId, Claim>)
    requires LiveOk(schema, extra, slots, live)
    ensures LiveOk(schema, extra, slots + [Slot(0, None)], live)
  {
    var slots' := slots + [Slot(0, None)];
    forall other ensures other in live <==> LiveAt(slots', other) { assert other in live <==> LiveAt(slots, other); }
    forall other | other in live ensures slots'[other.slot] == slots[other.slot] { assert LiveAt(slots, other); }
  }

  lemma ResolvedBelow(schema: map<TypeId, nat>, extra: map<TypeId, nat>, n: nat, xs: seq<A.Access>, ys: seq<Resolved>)
    requires Numbering(schema, extra, n) && ResolvesAll(schema, extra, xs, ys)
    ensures forall j :: 0 <= j < |ys| ==> ys[j].component < n
  {
    forall j | 0 <= j < |ys| ensures ys[j].component < n { assert Resolves(schema, extra, xs[j], ys[j]); }
  }

  lemma BookedOwners(owners: map<Owner, RunId>, live: map<RunId, Claim>, id: RunId, claim: Claim)
    requires OwnersOk(owners, live) && claim.owner !in owners && id !in live
    ensures OwnersOk(owners[claim.owner := id], live[id := claim])
  {}

  lemma ReleasedOwners(owners: map<Owner, RunId>, live: map<RunId, Claim>, id: RunId)
    requires OwnersOk(owners, live) && id in live
    ensures OwnersOk(owners - {live[id].owner}, live - {id})
  {}

  lemma NewNumber(schema: map<TypeId, nat>, extra: map<TypeId, nat>, n: nat, t: TypeId)
    requires Numbering(schema, extra, n) && Numbered(schema, extra, t).None?
    ensures Numbering(schema, extra[t := n], n + 1)
  {
    var more := extra[t := n];
    forall u | Numbered(schema, more, u).Some? ensures Numbered(schema, more, u).value < n || u == t {}
    forall u, v | Numbered(schema, more, u).Some? && Numbered(schema, more, u) == Numbered(schema, more, v) ensures u == v {
      if u != t && v != t { assert Numbered(schema, extra, u) == Numbered(schema, extra, v); }
    }
  }

  lemma ExtendedIsLive(schema: map<TypeId, nat>, extra: map<TypeId, nat>, more: map<TypeId, nat>, slots: seq<Slot>, live: map<RunId, Claim>)
    requires LiveOk(schema, extra, slots, live) && forall t :: t in extra ==> t in more && more[t] == extra[t]
    ensures LiveOk(schema, more, slots, live)
  {
    forall id | id in live ensures ResolvesAll(schema, more, live[id].accesses, slots[id.slot].record.value.accesses) {
      ResolvedStays(schema, extra, more, live[id].accesses, slots[id.slot].record.value.accesses);
    }
  }

  lemma WriterIsWrites(schema: map<TypeId, nat>, extra: map<TypeId, nat>, accesses: seq<A.Access>, resolved: seq<Resolved>)
    requires ResolvesAll(schema, extra, accesses, resolved)
    ensures A.Writes(accesses) <==> exists j :: 0 <= j < |resolved| && resolved[j].kind.Write?
  {
    if A.Writes(accesses) {
      var j :| 0 <= j < |accesses| && accesses[j].kind.Write?;
      assert Resolves(schema, extra, accesses[j], resolved[j]);
    }
    if j :| 0 <= j < |resolved| && resolved[j].kind.Write? {
      assert Resolves(schema, extra, accesses[j], resolved[j]);
    }
  }

  lemma ClashOne(xs: seq<A.Access>, j: nat, ys: seq<A.Access>)
    requires j < |xs| && A.Clash([xs[j]], ys)
    ensures A.Clash(xs, ys)
  {
    var p, k :| 0 <= p < 1 && 0 <= k < |ys| && A.Conflicts([xs[j]][p], ys[k]);
    assert A.Conflicts(xs[j], ys[k]);
  }

  lemma ClashNone(xs: seq<A.Access>, ys: seq<A.Access>)
    requires forall j :: 0 <= j < |xs| ==> !A.Clash([xs[j]], ys)
    ensures !A.Clash(xs, ys)
  {
    forall i, k | 0 <= i < |xs| && 0 <= k < |ys| ensures !A.Conflicts(xs[i], ys[k]) {
      assert !A.Clash([xs[i]], ys);
      assert [xs[i]][0] == xs[i];
    }
  }

  /** Counters met for the first time are appended at zero. */
  ghost predicate Padded(before: seq<ComponentAccess>, after: seq<ComponentAccess>) {
    before <= after && forall c :: |before| <= c < |after| ==> after[c] == IDLE
  }

  // ---- ids over a run ----

  datatype View = TableView(live: map<RunId, Claim>, issued: set<RunId>)

  /** What one operation may do to the ids: issue one never issued before, or drop some; a claim never changes. */
  ghost predicate Steps(a: View, b: View) {
    && a.issued <= b.issued
    && (forall id :: id in b.live && id !in a.live ==> id !in a.issued && id in b.issued)
    && (forall id :: id in b.live && id in a.live ==> b.live[id] == a.live[id])
  }

  /** Once an issued id is no longer live, it never is again, however often its slot is reused. */
  lemma {:induction false} RetiredIdsStayRetired(views: seq<View>, i: nat, j: nat, id: RunId)
    requires i <= j < |views| && forall k :: 0 <= k < |views| - 1 ==> Steps(views[k], views[k + 1])
    requires id in views[i].issued && id !in views[i].live
    ensures id in views[j].issued && id !in views[j].live
    decreases j - i
  {
    if i < j {
      assert Steps(views[i], views[i + 1]);
      RetiredIdsStayRetired(views, i + 1, j, id);
    }
  }

  ghost function Without(live: map<RunId, Claim>, ids: seq<RunId>): map<RunId, Claim> {
    map id | id in live && id !in ids :: live[id]
  }

  lemma WithoutNext(live: map<RunId, Claim>, ids: seq<RunId>, n: nat)
    requires n < |ids|
    ensures Without(live, ids[..n + 1]) == Without(live, ids[..n]) - {ids[n]}
  {
    assert ids[..n + 1] == ids[..n] + [ids[n]];
  }

  /** Everything but the counters. */
  ghost predicate TableOk(schema: map<TypeId, nat>, extra: map<TypeId, nat>, n: nat, owners: map<Owner, RunId>,
                          slots: seq<Slot>, free: seq<nat>, live: map<RunId, Claim>, issued: set<RunId>) {
    && Numbering(schema, extra, n)
    && FreeOk(slots, free) && IssuedOk(slots, free, issued)
    && LiveOk(schema, extra, slots, live) && OwnersOk(owners, live)
    && (forall id :: id in live ==> id in issued)
  }

  lemma VacatedTable(schema: map<TypeId, nat>, extra: map<TypeId, nat>, n: nat, owners: map<Owner, RunId>,
                     slots: seq<Slot>, free: seq<nat>, live: map<RunId, Claim>, issued: set<RunId>, id: RunId)
    requires TableOk(schema, extra, n, owners, slots, free, live, issued) && id in live
    ensures LiveAt(slots, id) && slots[id.slot].record.value.owner == live[id].owner
    ensures var slots' := slots[id.slot := Vacated(slots[id.slot])];
      var free' := Released(free, slots[id.slot], id.slot);
      TableOk(schema, extra, n, owners - {live[id].owner}, slots', free', live - {id}, issued)
  {
    assert LiveAt(slots, id);
    VacatedIsIssued(slots, free, issued, id);
    VacatedIsLive(schema, extra, slots, live, id, Vacated(slots[id.slot]));
    ReleasedOwners(owners, live, id);
  }

  class Reservations {
    const schema: map<TypeId, nat>
    var extra: map<TypeId, nat>
    var components: seq<ComponentAccess>
    var owners: map<Owner, RunId>
    var slots: seq<Slot>
    var free: seq<nat>
    ghost var live: map<RunId, Claim>
    ghost var issued: set<RunId>

    ghost predicate Tabled()
      reads this
    {
      TableOk(schema, extra, |components|, owners, slots, free, live, issued)
    }

    ghost function Seen(): View
      reads this
    {
      TableView(live, issued)
    }

    ghost predicate Valid()
      reads this
    {
      Tabled() && Exact(components, slots, [])
    }

    constructor (schema: map<TypeId, nat>)
      requires forall t :: t in schema ==> schema[t] < |schema|
      requires forall t, u :: t in schema && u in schema && schema[t] == schema[u] ==> t == u
      ensures Valid() && live == map[] && issued == {} && this.schema == schema
    {
      this.schema := schema;
      extra, owners, slots, free, live, issued := map[], map[], [], [], map[], {};
      components := seq(|schema|, _ => IDLE);
    }

    /** Numbers one access, opening counters for a component type met for the first time. */
    method Resolve(a: A.Access) returns (x: Resolved)
      requires Valid()
      modifies this`extra, this`components
      ensures Valid() && Resolves(schema, extra, a, x) && x.component < |components|
      ensures forall t :: t in old(extra) ==> t in extra && extra[t] == old(extra)[t]
      ensures components == old(components) || components == old(components) + [IDLE]
    {
      if Numbered(schema, extra, a.component).None? {
        NewCounterIsExact(components, slots, live, extra);
        NewNumber(schema, extra, |components|, a.component);
        ExtendedIsLive(schema, extra, extra[a.component := |components|], slots, live);
        extra := extra[a.component := |components|];
        components := components + [IDLE];
      }
      x := Resolved(Numbered(schema, extra, a.component).value, a.entity, a.kind);
    }

    method ResolveAll(accesses: seq<A.Access>) returns (resolved: seq<Resolved>)
      requires Valid()
      modifies this`extra, this`components
      ensures Valid() && ResolvesAll(schema, extra, accesses, resolved)
      ensures Padded(old(components), components)
      ensures forall j :: 0 <= j < |resolved| ==> resolved[j].component < |components|
    {
      resolved := [];
      var n := 0;
      while n < |accesses|
        invariant 0 <= n <= |accesses| && Valid()
        invariant ResolvesAll(schema, extra, accesses[..n], resolved)
        invariant Padded(old(components), components)
        invariant forall j :: 0 <= j < |resolved| ==> resolved[j].component < |components|
      {
        ghost var before := extra;
        var x := Resolve(accesses[n]);
        ResolvedStays(schema, before, extra, accesses[..n], resolved);
        resolved := resolved + [x];
        assert accesses[..n + 1] == accesses[..n] + [accesses[n]];
        n := n + 1;
      }
      assert accesses[..n] == accesses;
    }

    /** A component no live record mentions yet starts at zero. */
    lemma NewCounterIsExact(components: seq<ComponentAccess>, slots: seq<Slot>, live: map<RunId, Claim>, extra: map<TypeId, nat>)
      requires Exact(components, slots, []) && Numbering(schema, extra, |components|) && LiveOk(schema, extra, slots, live)
      ensures Exact(components + [IDLE], slots, [])
    {
      var after := components + [IDLE];
      var c := |components|;
      forall i, j | 0 <= i < |slots| && 0 <= j < |Held(slots[i])| ensures Held(slots[i])[j].component < c {
        var id := RunId(i, slots[i].generation);
        assert LiveAt(slots, id) && id in live;
        assert Resolves(schema, extra, live[id].accesses[j], Held(slots[i])[j]);
      }
      forall scope, kind ensures Tally(slots, c, scope, kind) == 0 {
        TallyPositive(slots, c, scope, kind);
      }
      forall d, kind, e: Entity | 0 <= d < |after|
        ensures after[d].Row(e).Of(kind) == Tally(slots, d, OneRow(e), kind) + TallyOf([], d, OneRow(e), kind)
      {
        if d < c { assert components[d].Row(e).Of(kind) == Tally(slots, d, OneRow(e), kind) + TallyOf([], d, OneRow(e), kind); }
      }
      forall d, e: Entity | 0 <= d < |after| && e in after[d].rows ensures after[d].rows[e].Any() {
        if d < c { assert components[d].rows[e].Any(); }
      }
    }

    /** Counters against the oracle, access by access. */
    lemma CountersAreOracle(accesses: seq<A.Access>, resolved: seq<Resolved>, j: nat)
      requires Valid() && ResolvesAll(schema, extra, accesses, resolved) && j < |resolved|
      requires resolved[j].component < |components|
      ensures components[resolved[j].component].Conflicts(resolved[j]) <==>
                exists id :: id in live && A.Clash([accesses[j]], live[id].accesses)
    {
      var x, a := resolved[j], accesses[j];
      assert Resolves(schema, extra, a, x);
      CountersDecide(components, slots, x);
      if i, k :| 0 <= i < |slots| && 0 <= k < |Held(slots[i])| && Meets(x, Held(slots[i])[k]) {
        var id := RunId(i, slots[i].generation);
        assert LiveAt(slots, id) && id in live;
        var y := Held(slots[i])[k];
        assert Resolves(schema, extra, live[id].accesses[k], y);
        MeetsIsConflict(schema, extra, |components|, a, x, live[id].accesses[k], y);
        assert [a][0] == a && A.Conflicts([a][0], live[id].accesses[k]);
        assert A.Clash([a], live[id].accesses);
      }
      if id :| id in live && A.Clash([a], live[id].accesses) {
        var p, k :| 0 <= p < 1 && 0 <= k < |live[id].accesses| && A.Conflicts([a][p], live[id].accesses[k]);
        assert LiveAt(slots, id);
        var y := Held(slots[id.slot])[k];
        assert Resolves(schema, extra, live[id].accesses[k], y);
        MeetsIsConflict(schema, extra, |components|, a, x, live[id].accesses[k], y);
        assert Meets(x, Held(slots[id.slot])[k]);
      }
    }

    /** The scan over all requested accesses. */
    method AnyConflict(ghost accesses: seq<A.Access>, resolved: seq<Resolved>) returns (hit: bool)
      requires Valid() && ResolvesAll(schema, extra, accesses, resolved)
      requires forall j :: 0 <= j < |resolved| ==> resolved[j].component < |components|
      ensures hit <==> Blocked(live, accesses)
    {
      hit := false;
      var n := 0;
      while n < |resolved| && !hit
        invariant 0 <= n <= |resolved|
        invariant hit ==> Blocked(live, accesses)
        invariant !hit ==> forall id, j :: id in live && 0 <= j < n ==> !A.Clash([accesses[j]], live[id].accesses)
      {
        CountersAreOracle(accesses, resolved, n);
        if components[resolved[n].component].Conflicts(resolved[n]) {
          hit := true;
          ghost var id :| id in live && A.Clash([accesses[n]], live[id].accesses);
          ClashOne(accesses, n, live[id].accesses);
        }
        n := n + 1;
      }
      if !hit {
        forall id | id in live ensures !A.Clash(accesses, live[id].accesses) {
          ClashNone(accesses, live[id].accesses);
        }
      }
    }

    /** Admission: by owner first, then by access. A rejection changes no claim, record, owner or count. */
    method Admit(owner: Owner, accesses: seq<A.Access>) returns (r: Outcome)
      requires Valid() && (free != [] || |slots| <= MAX_U32 || owner in owners || Blocked(live, accesses))
      modifies this
      ensures Valid()
      ensures r.Duplicate? <==> exists id :: id in old(live) && old(live)[id].owner == owner
      ensures r.Conflict? <==> !r.Duplicate? && Blocked(old(live), accesses)
      ensures r.Conflict? ==> r.owner == owner
      ensures !r.Admitted? ==> live == old(live) && issued == old(issued) && slots == old(slots) && owners == old(owners) && free == old(free)
      ensures !r.Admitted? ==> Padded(old(components), components)
      ensures r.Admitted? ==> r.id !in old(issued) && issued == old(issued) + {r.id} && live == old(live)[r.id := Claim(owner, accesses)]
      ensures Steps(old(Seen()), Seen())
    {
      OwnersAreLive(owner);
      if owner in owners {
        return Duplicate;
      }
      var resolved := ResolveAll(accesses);
      var hit := AnyConflict(accesses, resolved);
      assert live == old(live) && issued == old(issued);
      if hit {
        return Conflict(owner);
      }
      var id := Book(owner, accesses, resolved);
      r := Admitted(id);
    }

    lemma OwnersAreLive(owner: Owner)
      requires Valid()
      ensures owner in owners <==> exists id :: id in live && live[id].owner == owner
    {
      if owner in owners { assert owners[owner] in live && live[owners[owner]].owner == owner; }
    }

    /** Counts the accesses, files the record and indexes its owner. */
    method Book(owner: Owner, ghost accesses: seq<A.Access>, resolved: seq<Resolved>) returns (id: RunId)
      requires Valid() && owner !in owners && ResolvesAll(schema, extra, accesses, resolved)
      requires forall j :: 0 <= j < |resolved| ==> resolved[j].component < |components|
      requires free != [] || |slots| <= MAX_U32
      modifies this`components, this`owners, this`slots, this`free, this`live, this`issued
      ensures Valid()
      ensures id !in old(issued) && issued == old(issued) + {id} && live == old(live)[id := Claim(owner, accesses)]
    {
      WriterIsWrites(schema, extra, accesses, resolved);
      var writer := exists j :: 0 <= j < |resolved| && resolved[j].kind.Write?;
      CountAll(resolved);
      id := Insert(Record(owner, resolved, writer), accesses);
      BookedOwners(owners, old(live), id, Claim(owner, accesses));
      owners := owners[owner := id];
    }

    /** Adds every access to the counters, ahead of the record that will hold them. */
    method CountAll(resolved: seq<Resolved>)
      requires Valid() && forall j :: 0 <= j < |resolved| ==> resolved[j].component < |components|
      modifies this`components
      ensures |components| == |old(components)| && Exact(components, slots, resolved)
    {
      var n := 0;
      while n < |resolved|
        invariant 0 <= n <= |resolved| && |components| == |old(components)|
        invariant Exact(components, slots, resolved[..n])
      {
        var x := resolved[n];
        AddIsExact(components, slots, resolved[..n], x);
        assert resolved[..n + 1] == resolved[..n] + [x];
        components := components[x.component := components[x.component].Add(x)];
        n := n + 1;
      }
      assert resolved[..n] == resolved;
    }

    /** Files a record under the last freed slot, or a new one. */
    method Insert(record: Record, ghost accesses: seq<A.Access>) returns (id: RunId)
      requires Tabled() && Exact(components, slots, record.accesses) && (free != [] || |slots| <= MAX_U32)
      requires record.owner !in owners && ResolvesAll(schema, extra, accesses, record.accesses) && record.writer == A.Writes(accesses)
      modifies this`slots, this`free, this`live, this`issued
      ensures FreeOk(slots, free) && IssuedOk(slots, free, issued) && LiveOk(schema, extra, slots, live)
      ensures Exact(components, slots, [])
      ensures id !in old(issued) && issued == old(issued) + {id}
      ensures id !in old(live) && live == old(live)[id := Claim(record.owner, accesses)]
    {
      var index := TakeSlot(record.accesses);
      id := RunId(index, slots[index].generation);
      FiledIsExact(components, slots, index, record);
      FiledIsIssued(slots, free, issued, index, record);
      FiledIsLive(schema, extra, slots, live, index, record, Claim(record.owner, accesses));
      assert !LiveAt(slots, id);
      slots := slots[index := slots[index].(record := Some(record))];
      live := live[id := Claim(record.owner, accesses)];
      issued := issued + {id};
    }

    /** The last freed slot, or a new one. */
    method TakeSlot(ghost counted: seq<Resolved>) returns (index: nat)
      requires FreeOk(slots, free) && IssuedOk(slots, free, issued) && LiveOk(schema, extra, slots, live)
      requires Exact(components, slots, counted) && (free != [] || |slots| <= MAX_U32)
      modifies this`slots, this`free
      ensures FreeOk(slots, free) && IssuedOk(slots, free, issued) && LiveOk(schema, extra, slots, live)
      ensures Exact(components, slots, counted)
      ensures index < |slots| && slots[index].record.None? && index !in free && RunId(index, slots[index].generation) !in issued
    {
      if free != [] {
        FreedSlot(slots, free, issued);
        index := free[|free| - 1];
        free := free[..|free| - 1];
      } else {
        PushedSlot(slots, free, issued);
        PushedIsLive(schema, extra, slots, live);
        EmptySlotIsExact(components, slots, counted);
        index := |slots|;
        slots := slots + [Slot(0, None)];
      }
    }

    method Contains(id: RunId) returns (r: bool)
      requires Valid()
      ensures r <==> id in live
    {
      r := id.slot < |slots| && slots[id.slot].generation == id.generation && slots[id.slot].record.Some?;
      assert r == LiveAt(slots, id);
    }

    method IsWriter(id: RunId) returns (r: bool)
      requires Valid() && id in live
      ensures r <==> A.Writes(live[id].accesses)
    {
      assert LiveAt(slots, id);
      r := slots[id.slot].record.value.writer;
    }

    /** Takes the accesses of a vacated record off the counters; none of them can underflow. */
    method Uncount(resolved: seq<Resolved>)
      requires Exact(components, slots, resolved)
      requires forall j :: 0 <= j < |resolved| ==> resolved[j].component < |components|
      modifies this`components
      ensures |components| == |old(components)| && Exact(components, slots, [])
    {
      var n := 0;
      while n < |resolved|
        invariant 0 <= n <= |resolved| && |components| == |old(components)|
        invariant Exact(components, slots, resolved[n..])
      {
        var x := resolved[n];
        assert resolved[n..] == [x] + resolved[n + 1..];
        RemoveIsExact(components, slots, resolved[n + 1..], x);
        components := components[x.component := components[x.component].Remove(x)];
        n := n + 1;
      }
      assert resolved[n..] == [];
    }

    /**
     Releases a live record; any other id, however old, is refused and changes nothing. A slot whose generation is
     exhausted never goes back on the free list.
     */
    method Remove(id: RunId) returns (owner: Option<Owner>)
      requires Valid()
      modifies this`components, this`owners, this`slots, this`free, this`live
      ensures Valid() && |slots| == |old(slots)| && forall i :: 0 <= i < |slots| && i != id.slot ==> slots[i] == old(slots)[i]
      ensures owner == (if id in old(live) then Some(old(live)[id].owner) else None) && live == old(live) - {id}
      ensures Steps(old(Seen()), Seen())
      ensures id !in old(live) ==> slots == old(slots) && components == old(components) && owners == old(owners) && free == old(free)
    {
      assert id in live <==> LiveAt(slots, id);
      assert id !in live ==> live - {id} == live;
      if id.slot >= |slots| || slots[id.slot].generation != id.generation || slots[id.slot].record.None? {
        return None;
      }
      var released := Release(id);
      owner := Some(released);
    }

    /** Takes a live record off the counters and out of its slot. */
    method Release(id: RunId) returns (owner: Owner)
      requires Valid() && id in live
      modifies this`components, this`owners, this`slots, this`free, this`live
      ensures Valid() && owner == old(live)[id].owner && live == old(live) - {id}
      ensures id.slot < |old(slots)| && slots == old(slots)[id.slot := Vacated(old(slots)[id.slot])]
    {
      RecordIsResolved(id);
      var record := slots[id.slot].record.value;
      VacatedIsExact(components, slots, id.slot, Vacated(slots[id.slot]));
      VacatedTable(schema, extra, |components|, owners, slots, free, live, issued, id);
      Vacate(id);
      Uncount(record.accesses);
      owner := record.owner;
    }

    lemma RecordIsResolved(id: RunId)
      requires Valid() && id in live
      ensures LiveAt(slots, id) && slots[id.slot].record.value.owner == live[id].owner
      ensures forall j :: 0 <= j < |Held(slots[id.slot])| ==> Held(slots[id.slot])[j].component < |components|
    {
      assert LiveAt(slots, id);
      ResolvedBelow(schema, extra, |components|, live[id].accesses, Held(slots[id.slot]));
    }

    /** Empties the slot of a live record and forgets its owner; the counters are left for the caller. */
    method Vacate(id: RunId)
      requires LiveAt(slots, id)
      modifies this`owners, this`slots, this`free, this`live
      ensures slots == old(slots)[id.slot := Vacated(old(slots)[id.slot])]
      ensures free == Released(old(free), old(slots)[id.slot], id.slot)
      ensures owners == old(owners) - {old(slots)[id.slot].record.value.owner}
      ensures live == old(live) - {id}
    {
      var s := slots[id.slot];
      free := Released(free, s, id.slot);
      slots := slots[id.slot := Vacated(s)];
      owners := owners - {s.record.value.owner};
      live := live - {id};
    }

    /** The ids of every live reader. */
    method Readers() returns (ids: seq<RunId>)
      requires Valid()
      ensures forall id :: id in ids <==> id in live && !A.Writes(live[id].accesses)
    {
      ids := [];
      var n := 0;
      while n < |slots|
        invariant 0 <= n <= |slots|
        invariant forall id :: id in ids <==> id in live && id.slot < n && !A.Writes(live[id].accesses)
      {
        OnlyAt(slots, live, n);
        if slots[n].record.Some? && !slots[n].record.value.writer {
          ids := ids + [RunId(n, slots[n].generation)];
        }
        n := n + 1;
      }
      forall id | id in live ensures id.slot < n { assert LiveAt(slots, id); }
    }

    /** The one claim a slot can hold. */
    lemma OnlyAt(slots: seq<Slot>, live: map<RunId, Claim>, n: nat)
      requires LiveOk(schema, extra, slots, live) && n < |slots|
      ensures var id := RunId(n, slots[n].generation);
        && (id in live <==> slots[n].record.Some?)
        && (id in live ==> slots[n].record.value.writer == A.Writes(live[id].accesses))
        && forall other :: other in live && other.slot == n ==> other == id
    {
      assert RunId(n, slots[n].generation) in live <==> LiveAt(slots, RunId(n, slots[n].generation));
      forall other | other in live && other.slot == n ensures other == RunId(n, slots[n].generation) {
        assert LiveAt(slots, other);
      }
    }

    /** Cancels every reader: what is left is exactly the writers, with the counters to match. */
    method CancelReaders()
      requires Valid()
      modifies this`components, this`owners, this`slots, this`free, this`live
      ensures Valid()
      ensures live == map id | id in old(live) && A.Writes(old(live)[id].accesses) :: old(live)[id]
      ensures Steps(old(Seen()), Seen())
    {
      var ids := Readers();
      RemoveEach(ids);
    }

    method RemoveEach(ids: seq<RunId>)
      requires Valid()
      modifies this`components, this`owners, this`slots, this`free, this`live
      ensures Valid() && live == Without(old(live), ids)
    {
      var n := 0;
      while n < |ids|
        invariant 0 <= n <= |ids| && Valid()
        invariant live == Without(old(live), ids[..n])
      {
        WithoutNext(old(live), ids, n);
        var _ := Remove(ids[n]);
        n := n + 1;
      }
      assert ids[..n] == ids;
    }
  }
}
