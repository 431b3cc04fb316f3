/**
 Identity of spawned entities. A run reserves ids while it buffers commands: first those its previous run spawned,
 slot by slot, then new ones. A commit records what was spawned, and the next run starts from that list; a commit of the
 settle phase records nothing, and what it held back is recorded when the next generation starts.
 */
module Spawning {
  import opened Ids

  // ---- what the operations mean ----

  /** The slot lists, and how far the commit in progress, or a reinstatement since the last one, has written each. */
  datatype Table = Table(spawns: map<Owner, seq<Entity>>, cursors: map<Owner, nat>) {

    function Slots(o: Owner): seq<Entity> {
      if o in spawns then spawns[o] else []
    }

    function Cursor(o: Owner): nat {
      if o in cursors then cursors[o] else 0
    }
  }

  /** Overwrites the slot at the cursor, or appends one. */
  function Record(t: Table, o: Owner, e: Entity): Table {
    var slots, at := t.Slots(o), t.Cursor(o);
    Table(t.spawns[o := if at < |slots| then slots[at := e] else slots + [e]], t.cursors[o := at + 1])
  }

  function RecordAll(t: Table, o: Owner, ids: seq<Entity>): Table {
    if ids == [] then t else Record(RecordAll(t, o, ids[..|ids| - 1]), o, ids[|ids| - 1])
  }

  function Upto(ids: seq<Entity>, n: nat): seq<Entity> {
    if n <= |ids| then ids[..n] else ids
  }

  function Listed(spawns: map<Owner, seq<Entity>>, o: Owner, ids: seq<Entity>): map<Owner, seq<Entity>> {
    if ids == [] then spawns - {o} else spawns[o := ids]
  }

  /** Drops the slots the commit did not reach; an emptied list goes altogether. */
  function Finish(t: Table, o: Owner): Table {
    Table(Listed(t.spawns, o, Upto(t.Slots(o), t.Cursor(o))), t.cursors - {o})
  }

  /** The spawns a settle-phase commit held back. */
  datatype Held = Held(owner: Owner, ids: seq<Entity>)

  /** What starting a generation does with them: they are recorded in order, and nothing is finished. */
  function Reinstate(t: Table, held: seq<Held>): Table {
    if held == [] then t else RecordAll(Reinstate(t, held[..|held| - 1]), held[|held| - 1].owner, held[|held| - 1].ids)
  }

  /** One run: the slots it was given and the ids it has handed out so far. */
  datatype Flight = Flight(owner: Owner, slots: seq<Entity>, reserved: seq<Entity>)

  /** All spawn state of a bowl: the allocator, the table, the runs in flight, and what is held back. */
  datatype Ledger = Ledger(next: Entity, table: Table, flights: map<nat, Flight>, held: seq<Held>)

  /** The id the next spawn of a run gets. */
  function Reservation(f: Flight, next: Entity): Entity {
    if |f.reserved| < |f.slots| then f.slots[|f.reserved|] else next
  }

  /** An invocation may be in flight more than once: settles that overlap each plan what is not in their own memo. */
  datatype Action =
    | Begin(id: nat, o: Owner)
    | Reserve(id: nat)
    | Commit(id: nat)
    | HoldBack(id: nat)
    | Discard(id: nat)
    | Forget(o: Owner)
    | Allocate
    | Start

  /** `late` are the systems of the settle phase: their runs are held back, and no others are. */
  predicate Possible(late: set<nat>, l: Ledger, a: Action) {
    match a
    case Begin(id, _) => id !in l.flights
    case Reserve(id) => id in l.flights
    case Commit(id) => id in l.flights && l.flights[id].owner.system !in late
    case HoldBack(id) => id in l.flights && l.flights[id].owner.system in late
    case Discard(id) => id in l.flights
    case _ => true
  }

  function Next(late: set<nat>, l: Ledger, a: Action): Ledger
    requires Possible(late, l, a)
  {
    match a
    case Begin(id, o) => l.(flights := l.flights[id := Flight(o, l.table.Slots(o), [])])
    case Reserve(id) =>
      var f := l.flights[id];
      l.(next := if |f.reserved| < |f.slots| then l.next else l.next + 1,
         flights := l.flights[id := f.(reserved := f.reserved + [Reservation(f, l.next)])])
    case Commit(id) =>
      var f := l.flights[id];
      l.(table := Finish(RecordAll(l.table, f.owner, f.reserved), f.owner), flights := l.flights - {id})
    case HoldBack(id) =>
      var f := l.flights[id];
      l.(table := Finish(l.table, f.owner), flights := l.flights - {id},
         held := if f.reserved == [] then l.held else l.held + [Held(f.owner, f.reserved)])
    case Discard(id) => l.(flights := l.flights - {id})
    case Forget(o) => l.(table := l.table.(spawns := l.table.spawns - {o}))
    case Allocate => l.(next := l.next + 1)
    case Start => l.(table := Reinstate(l.table, l.held), held := [])
  }

  // ---- recording ----

  function Beyond(slots: seq<Entity>, n: nat): seq<Entity> {
    if n <= |slots| then slots[n..] else []
  }

  /** Recording from the start overwrites the first slots in order, and leaves those beyond. */
  lemma {:induction false} RecordsInOrder(t: Table, o: Owner, ids: seq<Entity>)
    requires o !in t.cursors
    ensures var r := RecordAll(t, o, ids);
      && r.Slots(o) == ids + Beyond(t.Slots(o), |ids|) && r.Cursor(o) == |ids|
      && (ids == [] ==> r == t) && (ids != [] ==> o in r.cursors)
  {
    if ids != [] {
      var n := |ids| - 1;
      var slots := t.Slots(o);
      RecordsInOrder(t, o, ids[..n]);
      var before := ids[..n] + Beyond(slots, n);
      assert (if n < |before| then before[n := ids[n]] else before + [ids[n]]) == ids + Beyond(slots, |ids|);
    }
  }

  lemma {:induction false} RecordsOnlyOne(t: Table, o: Owner, ids: seq<Entity>, p: Owner)
    requires p != o
    ensures var r := RecordAll(t, o, ids); r.Slots(p) == t.Slots(p) && (p in r.cursors <==> p in t.cursors) && r.Cursor(p) == t.Cursor(p)
  {
    if ids != [] { RecordsOnlyOne(t, o, ids[..|ids| - 1], p); }
  }

  /** Wherever the cursor stands, recording brings in nothing but the ids recorded, and moves the cursor by their number. */
  lemma {:induction false} RecordsOnlyThese(t: Table, o: Owner, ids: seq<Entity>)
    ensures var r := RecordAll(t, o, ids);
      && r.Cursor(o) == t.Cursor(o) + |ids|
      && forall e :: e in r.Slots(o) ==> e in t.Slots(o) || e in ids
  {
    if ids != [] {
      var n := |ids| - 1;
      RecordsOnlyThese(t, o, ids[..n]);
      assert forall e :: e in ids[..n] ==> e in ids;
    }
  }

  /** A commit outside the settle phase leaves exactly the spawned ids, in order. */
  lemma CommitsExactly(t: Table, o: Owner, ids: seq<Entity>)
    requires o !in t.cursors
    ensures Finish(RecordAll(t, o, ids), o) == Table(Listed(t.spawns, o, ids), t.cursors)
  {
    var r := RecordAll(t, o, ids);
    RecordsInOrder(t, o, ids);
    assert Upto(r.Slots(o), |ids|) == ids;
    RecordedElsewhere(t, o, ids);
    assert r.cursors - {o} == t.cursors;
    if ids != [] { SameBut(r.spawns, t.spawns, o, ids); }
  }

  lemma SameBut(a: map<Owner, seq<Entity>>, b: map<Owner, seq<Entity>>, o: Owner, ids: seq<Entity>)
    requires a - {o} == b - {o}
    ensures a[o := ids] == b[o := ids]
  {
    forall p | p in a[o := ids] && p != o ensures p in b && b[p] == a[p] { assert p in a - {o}; }
    forall p | p in b[o := ids] && p != o ensures p in a { assert p in b - {o}; }
  }

  lemma {:induction false} RecordedElsewhere(t: Table, o: Owner, ids: seq<Entity>)
    ensures var r := RecordAll(t, o, ids); r.spawns - {o} == t.spawns - {o} && r.cursors - {o} == t.cursors - {o}
    ensures ids != [] ==> o in RecordAll(t, o, ids).spawns
  {
    if ids != [] { RecordedElsewhere(t, o, ids[..|ids| - 1]); }
  }

  // ---- reinstating ----

  /** The ids held back for one invocation, in order. */
  function HeldIds(held: seq<Held>, o: Owner): seq<Entity> {
    if held == [] then []
    else HeldIds(held[..|held| - 1], o) + if held[|held| - 1].owner == o then held[|held| - 1].ids else []
  }

  lemma {:induction false} RecordsOn(t: Table, o: Owner, ids: seq<Entity>, more: seq<Entity>)
    ensures RecordAll(RecordAll(t, o, ids), o, more) == RecordAll(t, o, ids + more)
    decreases |more|
  {
    if more == [] {
      assert ids + more == ids;
    } else {
      var n := |more| - 1;
      var all := ids + more;
      RecordsOn(t, o, ids, more[..n]);
      assert all[..|all| - 1] == ids + more[..n] && all[|all| - 1] == more[n];
    }
  }

  /** For each invocation, starting a generation records what was held back for it, all of it, from where its cursor stood. */
  lemma {:induction false} ReinstatesAll(t: Table, held: seq<Held>, o: Owner)
    ensures var r, one := Reinstate(t, held), RecordAll(t, o, HeldIds(held, o));
      r.Slots(o) == one.Slots(o) && (o in r.cursors <==> o in one.cursors) && r.Cursor(o) == one.Cursor(o)
  {
    if held != [] {
      var n := |held| - 1;
      var rest, ids := Reinstate(t, held[..n]), HeldIds(held[..n], o);
      ReinstatesAll(t, held[..n], o);
      if held[n].owner == o {
        RecordsOn(t, o, ids, held[n].ids);
        RecordsAlike(rest, RecordAll(t, o, ids), o, held[n].ids);
      } else {
        RecordsOnlyOne(rest, held[n].owner, held[n].ids, o);
        assert ids + [] == ids;
      }
    }
  }

  /** Recording for one invocation looks at nothing else. */
  lemma {:induction false} RecordsAlike(s: Table, t: Table, o: Owner, ids: seq<Entity>)
    requires s.Slots(o) == t.Slots(o) && (o in s.cursors <==> o in t.cursors) && s.Cursor(o) == t.Cursor(o)
    ensures var r, q := RecordAll(s, o, ids), RecordAll(t, o, ids);
      r.Slots(o) == q.Slots(o) && (o in r.cursors <==> o in q.cursors) && r.Cursor(o) == q.Cursor(o)
  {
    if ids != [] { RecordsAlike(s, t, o, ids[..|ids| - 1]); }
  }

  lemma {:induction false} HeldIdsAre(held: seq<Held>, o: Owner)
    ensures forall e :: e in HeldIds(held, o) <==> exists k :: 0 <= k < |held| && held[k].owner == o && e in held[k].ids
    ensures (forall k :: 0 <= k < |held| ==> held[k].owner != o) ==> HeldIds(held, o) == []
  {
    if held != [] {
      var n := |held| - 1;
      HeldIdsAre(held[..n], o);
      forall e | exists k :: 0 <= k < |held| && held[k].owner == o && e in held[k].ids ensures e in HeldIds(held, o) {
        var k :| 0 <= k < |held| && held[k].owner == o && e in held[k].ids;
        if k < n { assert held[..n][k] == held[k]; }
      }
      forall e | e in HeldIds(held, o) ensures exists k :: 0 <= k < |held| && held[k].owner == o && e in held[k].ids {
        if e in HeldIds(held[..n], o) {
          var k :| 0 <= k < n && held[..n][k].owner == o && e in held[..n][k].ids;
          assert held[k].owner == o && e in held[k].ids;
        }
      }
    }
  }

  /** Held back once, the ids are the output's own. */
  lemma {:induction false} HeldOnceIds(held: seq<Held>, k: nat)
    requires k < |held| && forall j :: 0 <= j < |held| && j != k ==> held[j].owner != held[k].owner
    ensures HeldIds(held, held[k].owner) == held[k].ids
  {
    var n, o := |held| - 1, held[k].owner;
    if k == n {
      HeldIdsAre(held[..n], o);
    } else {
      HeldOnceIds(held[..n], k);
    }
  }

  // ---- whose an id is ----

  /** Every id an invocation may still use: its slot list, what its runs were given and have taken, and what is held back. */
  ghost predicate Uses(l: Ledger, o: Owner, e: Entity) {
    || e in l.table.Slots(o)
    || (exists id :: id in l.flights && l.flights[id].owner == o && (e in l.flights[id].slots || e in l.flights[id].reserved))
    || (exists k :: 0 <= k < |l.held| && l.held[k].owner == o && e in l.held[k].ids)
  }

  /** Only settle invocations have cursors between commits, and none while it is held back. */
  ghost predicate CursorsOk(late: set<nat>, l: Ledger) {
    && (forall o :: o in l.table.cursors ==> o.system in late)
    && (forall k :: 0 <= k < |l.held| ==> l.held[k].owner.system in late && l.held[k].owner !in l.table.cursors)
  }

  ghost predicate Ok(late: set<nat>, l: Ledger) {
    && CursorsOk(late, l)
    && (forall o, e: Entity :: Uses(l, o, e) ==> e < l.next)
    && (forall o, p, e: Entity :: Uses(l, o, e) && Uses(l, p, e) ==> o == p)
  }

  lemma StartUses(l: Ledger, o: Owner, e: Entity)
    requires e in Reinstate(l.table, l.held).Slots(o)
    ensures Uses(l, o, e)
  {
    ReinstatesAll(l.table, l.held, o);
    RecordsOnlyThese(l.table, o, HeldIds(l.held, o));
    HeldIdsAre(l.held, o);
  }

  lemma UsesAfter(late: set<nat>, l: Ledger, a: Action, o: Owner, e: Entity)
    requires Possible(late, l, a) && Uses(Next(late, l, a), o, e)
    ensures Uses(l, o, e) || (a.Reserve? && o == l.flights[a.id].owner && e == l.next && Next(late, l, a).next == l.next + 1)
  {
    var m := Next(late, l, a);
    match a
    case Begin(id, p) =>
      if f :| f in m.flights && m.flights[f].owner == o && (e in m.flights[f].slots || e in m.flights[f].reserved) {
        if f != id { assert f in l.flights && l.flights[f] == m.flights[f]; }
      }
    case Reserve(id) =>
      var b := l.flights[id];
      if f :| f in m.flights && m.flights[f].owner == o && (e in m.flights[f].slots || e in m.flights[f].reserved) {
        if f != id { assert f in l.flights && l.flights[f] == m.flights[f]; }
        if |b.reserved| < |b.slots| { assert b.slots[|b.reserved|] in b.slots; }
      }
    case Commit(id) => FlightsShrink(l, m, o, e); CommitUses(l, id, o, e);
    case HoldBack(id) => FlightsShrink(l, m, o, e); HoldBackUses(late, l, id, o, e);
    case Discard(id) => FlightsShrink(l, m, o, e);
    case Start => if e in m.table.Slots(o) { StartUses(l, o, e); }
    case _ =>
  }

  lemma FlightsShrink(l: Ledger, m: Ledger, o: Owner, e: Entity)
    requires forall id :: id in m.flights ==> id in l.flights && m.flights[id] == l.flights[id]
    ensures (exists id :: id in m.flights && m.flights[id].owner == o && (e in m.flights[id].slots || e in m.flights[id].reserved)) ==> Uses(l, o, e)
  {}

  lemma CommitUses(l: Ledger, id: nat, o: Owner, e: Entity)
    requires id in l.flights
    ensures var f := l.flights[id]; e in Finish(RecordAll(l.table, f.owner, f.reserved), f.owner).Slots(o) ==> Uses(l, o, e)
  {
    var f := l.flights[id];
    RecordsOnlyThese(l.table, f.owner, f.reserved);
    if o != f.owner { RecordsOnlyOne(l.table, f.owner, f.reserved, o); }
  }

  lemma HoldBackUses(late: set<nat>, l: Ledger, id: nat, o: Owner, e: Entity)
    requires id in l.flights && Possible(late, l, HoldBack(id))
    ensures var m := Next(late, l, HoldBack(id));
      e in m.table.Slots(o) || (exists k :: 0 <= k < |m.held| && m.held[k].owner == o && e in m.held[k].ids) ==> Uses(l, o, e)
  {
    var m, f := Next(late, l, HoldBack(id)), l.flights[id];
    if k :| 0 <= k < |m.held| && m.held[k].owner == o && e in m.held[k].ids {
      if k < |l.held| { assert m.held[k] == l.held[k]; } else { assert m.held[k] == Held(f.owner, f.reserved); }
    }
  }

  lemma CursorsStayOk(late: set<nat>, l: Ledger, a: Action)
    requires Possible(late, l, a) && CursorsOk(late, l)
    ensures CursorsOk(late, Next(late, l, a))
  {
    match a
    case Commit(id) => CommitsExactly(l.table, l.flights[id].owner, l.flights[id].reserved);
    case Start =>
      var m := Next(late, l, a);
      forall o | o in m.table.cursors ensures o.system in late {
        ReinstatesAll(l.table, l.held, o);
        HeldIdsAre(l.held, o);
      }
    case _ =>
  }

  lemma ActionKeepsOk(late: set<nat>, l: Ledger, a: Action)
    requires Possible(late, l, a) && Ok(late, l)
    ensures Ok(late, Next(late, l, a)) && l.next <= Next(late, l, a).next
  {
    var m := Next(late, l, a);
    CursorsStayOk(late, l, a);
    forall o, e: Entity | Uses(m, o, e) ensures e < m.next { UsesAfter(late, l, a, o, e); }
    forall o, p, e: Entity | Uses(m, o, e) && Uses(m, p, e) ensures o == p {
      UsesAfter(late, l, a, o, e);
      UsesAfter(late, l, a, p, e);
    }
  }

  // ---- every run ----

  ghost predicate Run(late: set<nat>, ls: seq<Ledger>, actions: seq<Action>) {
    && |ls| == |actions| + 1
    && ls[0].table == Table(map[], map[]) && ls[0].flights == map[] && ls[0].held == []
    && forall k :: 0 <= k < |actions| ==> Possible(late, ls[k], actions[k]) && ls[k + 1] == Next(late, ls[k], actions[k])
  }

  lemma {:induction false} RunKeepsOk(late: set<nat>, ls: seq<Ledger>, actions: seq<Action>, k: nat)
    requires Run(late, ls, actions) && k <= |actions|
    ensures Ok(late, ls[k])
  {
    if k > 0 {
      RunKeepsOk(late, ls, actions, k - 1);
      ActionKeepsOk(late, ls[k - 1], actions[k - 1]);
    }
  }

  lemma {:induction false} AllocatorGrows(late: set<nat>, ls: seq<Ledger>, actions: seq<Action>, j: nat, k: nat)
    requires Run(late, ls, actions) && j <= k <= |actions|
    ensures ls[j].next <= ls[k].next
    decreases k - j
  {
    if j < k { AllocatorGrows(late, ls, actions, j, k - 1); RunKeepsOk(late, ls, actions, k - 1); ActionKeepsOk(late, ls[k - 1], actions[k - 1]); }
  }

  /** However often an invocation is in flight or held back, no id is ever shared by two invocations. */
  lemma SlotListsStayDisjoint(late: set<nat>, ls: seq<Ledger>, actions: seq<Action>, k: nat, o: Owner, p: Owner)
    requires Run(late, ls, actions) && k <= |actions| && o != p
    ensures forall e :: e in ls[k].table.Slots(o) ==> e !in ls[k].table.Slots(p)
    ensures forall e :: Uses(ls[k], o, e) ==> !Uses(ls[k], p, e)
  {
    RunKeepsOk(late, ls, actions, k);
    forall e | e in ls[k].table.Slots(o) ensures e !in ls[k].table.Slots(p) {
      assert Uses(ls[k], o, e);
      if e in ls[k].table.Slots(p) { assert Uses(ls[k], p, e); }
    }
  }

  // ---- where an id stands ----

  ghost predicate At(ids: seq<Entity>, i: nat, e: Entity) {
    i < |ids| && ids[i] == e
  }

  /** The id stands at index `i` of something of the invocation's. */
  ghost predicate UsedAt(l: Ledger, o: Owner, i: nat, e: Entity) {
    || At(l.table.Slots(o), i, e)
    || (exists id :: id in l.flights && l.flights[id].owner == o && (At(l.flights[id].slots, i, e) || At(l.flights[id].reserved, i, e)))
    || (exists k :: 0 <= k < |l.held| && l.held[k].owner == o && At(l.held[k].ids, i, e))
  }

  /** Each id of an invocation stands at one index wherever it stands, and nothing is held back twice. */
  ghost predicate Placed(l: Ledger) {
    && (forall o, i: nat, j: nat, e: Entity :: UsedAt(l, o, i, e) && UsedAt(l, o, j, e) ==> i == j)
    && (forall j, k :: 0 <= j < k < |l.held| ==> l.held[j].owner != l.held[k].owner)
  }

  /** Between two starts, no invocation is held back twice. */
  predicate Once(l: Ledger, a: Action) {
    a.HoldBack? && a.id in l.flights && l.flights[a.id].reserved != [] ==>
      forall k :: 0 <= k < |l.held| ==> l.held[k].owner != l.flights[a.id].owner
  }

  lemma UsedAtUses(l: Ledger, o: Owner, i: nat, e: Entity)
    requires UsedAt(l, o, i, e)
    ensures Uses(l, o, e)
  {
    if id :| id in l.flights && l.flights[id].owner == o && (At(l.flights[id].slots, i, e) || At(l.flights[id].reserved, i, e)) {
    } else if k :| 0 <= k < |l.held| && l.held[k].owner == o && At(l.held[k].ids, i, e) {
    }
  }

  lemma StartUsesAt(late: set<nat>, l: Ledger, o: Owner, i: nat, e: Entity)
    requires CursorsOk(late, l) && Placed(l) && At(Reinstate(l.table, l.held).Slots(o), i, e)
    ensures UsedAt(l, o, i, e)
  {
    ReinstatesAll(l.table, l.held, o);
    HeldIdsAre(l.held, o);
    if k :| 0 <= k < |l.held| && l.held[k].owner == o {
      HeldOnceIds(l.held, k);
      RecordsInOrder(l.table, o, l.held[k].ids);
      if i < |l.held[k].ids| { assert At(l.held[k].ids, i, e); } else { assert At(l.table.Slots(o), i, e); }
    }
  }

  lemma UsedAtAfter(late: set<nat>, l: Ledger, a: Action, o: Owner, i: nat, e: Entity)
    requires Possible(late, l, a) && CursorsOk(late, l) && Placed(l) && Once(l, a) && UsedAt(Next(late, l, a), o, i, e)
    ensures UsedAt(l, o, i, e) || (a.Reserve? && o == l.flights[a.id].owner && i == |l.flights[a.id].reserved| && e == l.next)
  {
    var m := Next(late, l, a);
    match a
    case Begin(id, p) =>
      if f :| f in m.flights && m.flights[f].owner == o && (At(m.flights[f].slots, i, e) || At(m.flights[f].reserved, i, e)) {
        if f != id { assert f in l.flights && l.flights[f] == m.flights[f]; }
      }
    case Reserve(id) => ReserveUsesAt(late, l, id, o, i, e);
    case Commit(id) =>
      FlightsShrinkAt(l, m, o, i, e);
      CommitsExactly(l.table, l.flights[id].owner, l.flights[id].reserved);
      if o == l.flights[id].owner && At(m.table.Slots(o), i, e) { assert At(l.flights[id].reserved, i, e); }
    case HoldBack(id) => FlightsShrinkAt(l, m, o, i, e); HoldBackUsesAt(late, l, id, o, i, e);
    case Discard(id) => FlightsShrinkAt(l, m, o, i, e);
    case Start => if At(m.table.Slots(o), i, e) { StartUsesAt(late, l, o, i, e); }
    case _ =>
  }

  lemma FlightsShrinkAt(l: Ledger, m: Ledger, o: Owner, i: nat, e: Entity)
    requires forall id :: id in m.flights ==> id in l.flights && m.flights[id] == l.flights[id]
    ensures (exists id :: id in m.flights && m.flights[id].owner == o && (At(m.flights[id].slots, i, e) || At(m.flights[id].reserved, i, e)))
            ==> UsedAt(l, o, i, e)
  {}

  lemma ReserveUsesAt(late: set<nat>, l: Ledger, id: nat, o: Owner, i: nat, e: Entity)
    requires id in l.flights && UsedAt(Next(late, l, Reserve(id)), o, i, e)
    ensures UsedAt(l, o, i, e) || (o == l.flights[id].owner && i == |l.flights[id].reserved| && e == l.next)
  {
    var m, b := Next(late, l, Reserve(id)), l.flights[id];
    if f :| f in m.flights && m.flights[f].owner == o && (At(m.flights[f].slots, i, e) || At(m.flights[f].reserved, i, e)) {
      if f != id {
        assert f in l.flights && l.flights[f] == m.flights[f];
      } else if At(m.flights[id].reserved, i, e) && !At(b.reserved, i, e) {
        assert i == |b.reserved| && e == Reservation(b, l.next);
        if i < |b.slots| { assert At(b.slots, i, e); }
      } else {
        assert At(b.slots, i, e) || At(b.reserved, i, e);
      }
    }
  }

  lemma HoldBackUsesAt(late: set<nat>, l: Ledger, id: nat, o: Owner, i: nat, e: Entity)
    requires id in l.flights && Possible(late, l, HoldBack(id))
    ensures var m := Next(late, l, HoldBack(id));
      At(m.table.Slots(o), i, e) || (exists k :: 0 <= k < |m.held| && m.held[k].owner == o && At(m.held[k].ids, i, e)) ==> UsedAt(l, o, i, e)
  {
    var m, f := Next(late, l, HoldBack(id)), l.flights[id];
    if At(m.table.Slots(o), i, e) { assert At(l.table.Slots(o), i, e); }
    if k :| 0 <= k < |m.held| && m.held[k].owner == o && At(m.held[k].ids, i, e) {
      if k < |l.held| { assert m.held[k] == l.held[k]; } else { assert m.held[k] == Held(f.owner, f.reserved) && At(f.reserved, i, e); }
    }
  }

  lemma ActionKeepsPlaced(late: set<nat>, l: Ledger, a: Action)
    requires Possible(late, l, a) && Ok(late, l) && Placed(l) && Once(l, a)
    ensures Placed(Next(late, l, a))
  {
    var m := Next(late, l, a);
    forall o, i: nat, j: nat, e: Entity | UsedAt(m, o, i, e) && UsedAt(m, o, j, e) ensures i == j {
      UsedAtAfter(late, l, a, o, i, e);
      UsedAtAfter(late, l, a, o, j, e);
      if UsedAt(l, o, i, e) { UsedAtUses(l, o, i, e); }
      if UsedAt(l, o, j, e) { UsedAtUses(l, o, j, e); }
    }
  }

  lemma {:induction false} RunKeepsPlaced(late: set<nat>, ls: seq<Ledger>, actions: seq<Action>, k: nat)
    requires Run(late, ls, actions) && k <= |actions| && forall m :: 0 <= m < k ==> Once(ls[m], actions[m])
    ensures Placed(ls[k])
  {
    if k > 0 {
      RunKeepsPlaced(late, ls, actions, k - 1);
      RunKeepsOk(late, ls, actions, k - 1);
      ActionKeepsPlaced(late, ls[k - 1], actions[k - 1]);
    }
  }

  ghost predicate Distinct(ids: seq<Entity>) {
    forall i, j :: 0 <= i < j < |ids| ==> ids[i] != ids[j]
  }

  /** While nothing is held back twice between two starts, no list ever names an entity twice. */
  lemma SlotsStayDistinct(late: set<nat>, ls: seq<Ledger>, actions: seq<Action>, k: nat, o: Owner)
    requires Run(late, ls, actions) && k <= |actions| && forall m :: 0 <= m < k ==> Once(ls[m], actions[m])
    ensures Distinct(ls[k].table.Slots(o))
  {
    RunKeepsPlaced(late, ls, actions, k);
    var slots := ls[k].table.Slots(o);
    forall i, j | 0 <= i < j < |slots| ensures slots[i] != slots[j] {
      assert UsedAt(ls[k], o, i, slots[i]) && UsedAt(ls[k], o, j, slots[j]);
    }
  }

  /** An id held back twice is listed twice by the next start. */
  lemma HeldTwiceIsListedTwice(late: set<nat>, l: Ledger, j: nat, k: nat, e: Entity)
    requires Ok(late, l) && j < k < |l.held| && l.held[j].owner == l.held[k].owner && e in l.held[j].ids && e in l.held[k].ids
    ensures !Distinct(Next(late, l, Start).table.Slots(l.held[j].owner))
  {
    var o := l.held[j].owner;
    var ids := HeldIds(l.held, o);
    ReinstatesAll(l.table, l.held, o);
    RecordsInOrder(l.table, o, ids);
    var i, n := HeldTwice(l.held, j, k, e);
    var slots := Next(late, l, Start).table.Slots(o);
    assert slots[i] == slots[n];
  }

  lemma {:induction false} HeldTwice(held: seq<Held>, j: nat, k: nat, e: Entity) returns (i: nat, n: nat)
    requires j < k < |held| && held[j].owner == held[k].owner && e in held[j].ids && e in held[k].ids
    ensures var ids := HeldIds(held, held[j].owner); i < n < |ids| && ids[i] == e == ids[n]
  {
    var last, o := |held| - 1, held[j].owner;
    var before := HeldIds(held[..last], o);
    if k == last {
      HeldIdsAre(held[..last], o);
      assert held[..last][j] == held[j];
      assert e in before;
      i :| 0 <= i < |before| && before[i] == e;
      n :| 0 <= n < |held[k].ids| && held[k].ids[n] == e;
      n := |before| + n;
    } else {
      i, n := HeldTwice(held[..last], j, k, e);
    }
  }

  // ---- reruns outside the settle phase ----

  /** Steps of other runs leave a run's buffer alone; its own reservations extend it. */
  lemma {:induction false} BufferSurvives(late: set<nat>, ls: seq<Ledger>, actions: seq<Action>, j: nat, k: nat, id: nat, o: Owner)
    requires Run(late, ls, actions) && j < k <= |actions| && actions[j] == Begin(id, o)
    requires forall m :: j < m < k ==> actions[m] != Commit(id) && actions[m] != HoldBack(id) && actions[m] != Discard(id)
    ensures id in ls[k].flights && ls[k].flights[id].owner == o && ls[k].flights[id].slots == ls[j].table.Slots(o)
    ensures var f := ls[k].flights[id];
      forall i :: 0 <= i < |f.reserved| ==> if i < |f.slots| then f.reserved[i] == f.slots[i] else ls[j].next <= f.reserved[i]
    decreases k
  {
    if j + 1 < k {
      BufferSurvives(late, ls, actions, j, k - 1, id, o);
      AllocatorGrows(late, ls, actions, j, k - 1);
      assert ls[k] == Next(late, ls[k - 1], actions[k - 1]);
    } else {
      assert ls[k] == Next(late, ls[j], actions[j]);
    }
  }

  /** No invocation used the id in any state up to `j`, and the allocator had not reached it. */
  ghost predicate Unissued(ls: seq<Ledger>, j: nat, e: Entity)
    requires j < |ls|
  {
    ls[j].next <= e && forall p, m: nat :: m <= j ==> !Uses(ls[m], p, e)
  }

  lemma NewIsUnissued(late: set<nat>, ls: seq<Ledger>, actions: seq<Action>, j: nat, e: Entity)
    requires Run(late, ls, actions) && j <= |actions| && ls[j].next <= e
    ensures Unissued(ls, j, e)
  {
    forall p, m: nat | m <= j ensures !Uses(ls[m], p, e) {
      RunKeepsOk(late, ls, actions, m);
      AllocatorGrows(late, ls, actions, m, j);
    }
  }

  /**
   Spawn identity is stable: when the run begun at `j` commits at `k`, its slot list becomes its spawned ids in
   order. The i-th spawn has the id of the previous run's i-th spawn, and a spawn beyond those an id that no state up
   to the run's beginning had issued.
   */
  lemma RerunReusesIds(late: set<nat>, ls: seq<Ledger>, actions: seq<Action>, j: nat, k: nat, id: nat, o: Owner, i: nat)
    requires Run(late, ls, actions) && j < k < |actions| && actions[j] == Begin(id, o) && actions[k] == Commit(id)
    requires forall m :: j < m < k ==> actions[m] != Commit(id) && actions[m] != HoldBack(id) && actions[m] != Discard(id)
    ensures id in ls[k].flights && ls[k + 1].table.Slots(o) == ls[k].flights[id].reserved
    ensures i < |ls[k + 1].table.Slots(o)| ==>
              if i < |ls[j].table.Slots(o)| then ls[k + 1].table.Slots(o)[i] == ls[j].table.Slots(o)[i]
              else Unissued(ls, j, ls[k + 1].table.Slots(o)[i])
  {
    BufferSurvives(late, ls, actions, j, k, id, o);
    RunKeepsOk(late, ls, actions, k);
    CommitsExactly(ls[k].table, o, ls[k].flights[id].reserved);
    assert ls[k + 1] == Next(late, ls[k], actions[k]);
    if |ls[j].table.Slots(o)| <= i < |ls[k + 1].table.Slots(o)| { NewIsUnissued(late, ls, actions, j, ls[k + 1].table.Slots(o)[i]); }
  }

  // ---- reruns of the settle phase ----

  /** The action ends a commit of the invocation. */
  predicate Ends(l: Ledger, a: Action, o: Owner) {
    (a.Commit? || a.HoldBack?) && a.id in l.flights && l.flights[a.id].owner == o
  }

  /** How many ids of the invocation the starts since its last commit have reinstated. */
  function Reinstated(ls: seq<Ledger>, actions: seq<Action>, k: nat, o: Owner): nat
    requires k <= |actions| < |ls|
  {
    if k == 0 then 0
    else if Ends(ls[k - 1], actions[k - 1], o) then 0
    else Reinstated(ls, actions, k - 1, o) + if actions[k - 1].Start? then |HeldIds(ls[k - 1].held, o)| else 0
  }

  /** That is what the cursor counts. */
  lemma {:induction false} CursorCounts(late: set<nat>, ls: seq<Ledger>, actions: seq<Action>, k: nat, o: Owner)
    requires Run(late, ls, actions) && k <= |actions|
    ensures ls[k].table.Cursor(o) == Reinstated(ls, actions, k, o)
  {
    if k > 0 {
      CursorCounts(late, ls, actions, k - 1, o);
      RunKeepsOk(late, ls, actions, k - 1);
      var l, a := ls[k - 1], actions[k - 1];
      assert ls[k] == Next(late, l, a);
      match a
      case Commit(id) => CommitsExactly(l.table, l.flights[id].owner, l.flights[id].reserved);
      case Start =>
        ReinstatesAll(l.table, l.held, o);
        RecordsOnlyThese(l.table, o, HeldIds(l.held, o));
      case _ =>
    }
  }

  /**
   The settle phase: a commit held back keeps the first slots, as many as were reinstated since the invocation's last
   commit. So the i-th spawn keeps its id exactly where `i` is below that number.
   */
  lemma HeldBackKeepsReinstated(late: set<nat>, ls: seq<Ledger>, actions: seq<Action>, k: nat, o: Owner, i: nat)
    requires Run(late, ls, actions) && k < |actions| && actions[k].HoldBack? && ls[k].flights[actions[k].id].owner == o
    ensures var n, before, after := Reinstated(ls, actions, k, o), ls[k].table.Slots(o), ls[k + 1].table.Slots(o);
      && after == Upto(before, n)
      && (i < |before| ==> ((i < |after| && after[i] == before[i]) <==> i < n))
  {
    CursorCounts(late, ls, actions, k, o);
    assert ls[k + 1] == Next(late, ls[k], actions[k]);
  }

  /** Nothing commits, forgets or reinstates for the invocation between `j` and `k`. */
  ghost predicate Undisturbed(ls: seq<Ledger>, actions: seq<Action>, j: nat, k: nat, o: Owner)
    requires k <= |actions| < |ls|
  {
    forall m :: j <= m < k ==> !Ends(ls[m], actions[m], o) && actions[m] != Forget(o) && (actions[m].Start? ==> HeldIds(ls[m].held, o) == [])
  }

  lemma {:induction false} SlotsStand(late: set<nat>, ls: seq<Ledger>, actions: seq<Action>, j: nat, k: nat, o: Owner)
    requires Run(late, ls, actions) && j <= k <= |actions| && Undisturbed(ls, actions, j, k, o)
    ensures ls[k].table.Slots(o) == ls[j].table.Slots(o) && ls[k].table.Cursor(o) == ls[j].table.Cursor(o)
    decreases k
  {
    if j < k {
      SlotsStand(late, ls, actions, j, k - 1, o);
      var l, a := ls[k - 1], actions[k - 1];
      assert ls[k] == Next(late, l, a);
      match a
      case Commit(id) =>
        RunKeepsOk(late, ls, actions, k - 1);
        CommitsExactly(l.table, l.flights[id].owner, l.flights[id].reserved);
      case Start =>
        ReinstatesAll(l.table, l.held, o);
        assert RecordAll(l.table, o, []) == l.table;
      case _ =>
    }
  }

  /**
   The usual cycle: what was held back is reinstated by a start at `s`, and a run begun after that, with nothing in
   between, is given those ids first; when it is held back in turn, they stay listed.
   */
  lemma SettledRerunReusesIds(late: set<nat>, ls: seq<Ledger>, actions: seq<Action>, s: nat, j: nat, k: nat, id: nat, o: Owner)
    requires Run(late, ls, actions) && s < j < k < |actions| && actions[s] == Start && actions[j] == Begin(id, o) && actions[k] == HoldBack(id)
    requires HeldIds(ls[s].held, o) != [] && Undisturbed(ls, actions, s + 1, k, o)
    requires forall m :: j < m < k ==> actions[m] != Commit(id) && actions[m] != HoldBack(id) && actions[m] != Discard(id)
    ensures var ids := HeldIds(ls[s].held, o);
      && id in ls[k].flights && ls[k + 1].table.Slots(o) == ids
      && forall i :: 0 <= i < |ids| && i < |ls[k].flights[id].reserved| ==> ls[k].flights[id].reserved[i] == ids[i]
  {
    var ids := HeldIds(ls[s].held, o);
    RunKeepsOk(late, ls, actions, s);
    HeldHasNoCursor(late, ls[s], o);
    ReinstatesAll(ls[s].table, ls[s].held, o);
    RecordsInOrder(ls[s].table, o, ids);
    assert ls[s + 1] == Next(late, ls[s], actions[s]);
    assert Undisturbed(ls, actions, s + 1, j, o);
    SlotsStand(late, ls, actions, s + 1, j, o);
    SlotsStand(late, ls, actions, s + 1, k, o);
    BufferSurvives(late, ls, actions, j, k, id, o);
    assert ls[k + 1] == Next(late, ls[k], actions[k]);
  }

  lemma HeldHasNoCursor(late: set<nat>, l: Ledger, o: Owner)
    requires CursorsOk(late, l) && HeldIds(l.held, o) != []
    ensures o !in l.table.cursors
  {
    HeldIdsAre(l.held, o);
  }

  /** A run begun after a commit held back with nothing reinstated spawns under new ids only. */
  lemma UnreinstatedRerunIsNew(late: set<nat>, ls: seq<Ledger>, actions: seq<Action>, h: nat, j: nat, k: nat, id: nat, o: Owner, i: nat)
    requires Run(late, ls, actions) && h < j < k <= |actions| && actions[h].HoldBack? && ls[h].flights[actions[h].id].owner == o
    requires Reinstated(ls, actions, h, o) == 0 && Undisturbed(ls, actions, h + 1, j, o) && actions[j] == Begin(id, o)
    requires forall m :: j < m < k ==> actions[m] != Commit(id) && actions[m] != HoldBack(id) && actions[m] != Discard(id)
    ensures id in ls[k].flights && (i < |ls[k].flights[id].reserved| ==> Unissued(ls, j, ls[k].flights[id].reserved[i]))
  {
    HeldBackKeepsReinstated(late, ls, actions, h, o, 0);
    SlotsStand(late, ls, actions, h + 1, j, o);
    BufferSurvives(late, ls, actions, j, k, id, o);
    if i < |ls[k].flights[id].reserved| { NewIsUnissued(late, ls, actions, j, ls[k].flights[id].reserved[i]); }
  }

  // ---- two settles that overlap ----

  function Cycle(o: Owner): seq<Action> {
    [Begin(0, o), Reserve(0), HoldBack(0), Start, Begin(1, o), Begin(2, o), Reserve(1), Reserve(2), HoldBack(1), HoldBack(2)]
  }

  function Bare(o: Owner, e: Entity, cursors: map<Owner, nat>): Table {
    Table(map[o := [e]], cursors)
  }

  /** One settle, a start, and two settles that overlap, of an invocation that spawns one entity each time. */
  function Cycled(o: Owner, e: Entity): seq<Ledger> {
    var none, held := Table(map[], map[]), Held(o, [e]);
    var given, taken := Flight(o, [e], []), Flight(o, [e], [e]);
    [ Ledger(e, none, map[], []),
      Ledger(e, none, map[0 := Flight(o, [], [])], []),
      Ledger(e + 1, none, map[0 := Flight(o, [], [e])], []),
      Ledger(e + 1, none, map[], [held]),
      Ledger(e + 1, Bare(o, e, map[o := 1]), map[], []),
      Ledger(e + 1, Bare(o, e, map[o := 1]), map[1 := given], []),
      Ledger(e + 1, Bare(o, e, map[o := 1]), map[1 := given, 2 := given], []),
      Ledger(e + 1, Bare(o, e, map[o := 1]), map[1 := taken, 2 := given], []),
      Ledger(e + 1, Bare(o, e, map[o := 1]), map[1 := taken, 2 := taken], []),
      Ledger(e + 1, Bare(o, e, map[]), map[2 := taken], [held]),
      Ledger(e + 1, none, map[], [held, held])
    ]
  }

  lemma Reserves(o: Owner, e: Entity, k: nat)
    requires k < 2
    ensures var ls, a := Cycled(o, e), Cycle(o)[k]; Possible({o.system}, ls[k], a) && ls[k + 1] == Next({o.system}, ls[k], a)
  {
    var one := Flight(o, [], []);
    assert one.reserved + [Reservation(one, e)] == [e];
  }

  lemma FirstRecorded(o: Owner, e: Entity)
    ensures Record(Table(map[], map[]), o, e) == Bare(o, e, map[o := 1])
    ensures Finish(Table(map[], map[]), o) == Table(map[], map[])
  {
    var none := Table(map[], map[]);
    assert none.Slots(o) + [e] == [e];
    assert none.spawns - {o} == map[] && none.cursors - {o} == map[];
  }

  lemma Settles(o: Owner, e: Entity, k: nat)
    requires 2 <= k < 4
    ensures var ls, a := Cycled(o, e), Cycle(o)[k]; Possible({o.system}, ls[k], a) && ls[k + 1] == Next({o.system}, ls[k], a)
  {
    FirstRecorded(o, e);
    FirstIsReinstated(Table(map[], map[]), Held(o, [e]));
    assert map[0 := Flight(o, [], [e])] - {0} == map[];
  }

  lemma SettlesAgain(o: Owner, e: Entity, k: nat)
    requires 4 <= k < 8
    ensures var ls, a := Cycled(o, e), Cycle(o)[k]; Possible({o.system}, ls[k], a) && ls[k + 1] == Next({o.system}, ls[k], a)
  {
    var given := Flight(o, [e], []);
    assert given.reserved + [Reservation(given, e + 1)] == [e];
  }

  lemma HoldsTwice(o: Owner, e: Entity, k: nat)
    requires 8 <= k < 10
    ensures var ls, a := Cycled(o, e), Cycle(o)[k]; Possible({o.system}, ls[k], a) && ls[k + 1] == Next({o.system}, ls[k], a)
  {
    assert Upto([e], 1) == [e] && Upto([e], 0) == [];
  }

  lemma FirstIsReinstated(t: Table, held: Held)
    requires |held.ids| == 1
    ensures Reinstate(t, [held]) == Record(t, held.owner, held.ids[0])
  {
    assert [held][..0] == [] && held.ids[..0] == [];
    assert RecordAll(t, held.owner, []) == t;
  }

  /**
   Of the two settles after the start, the first keeps the reinstated slot and the second drops it; and since both held
   the same id back, the next start lists it twice.
   */
  lemma OverlapListsTwice(o: Owner, e: Entity)
    ensures var late, ls, actions := {o.system}, Cycled(o, e), Cycle(o);
      && Run(late, ls, actions) && |actions| == 10 && actions[8].HoldBack? && actions[9].HoldBack?
      && ls[8].table.Slots(o) == [e] == ls[9].table.Slots(o) && ls[10].table.Slots(o) == []
      && !Distinct(Next(late, ls[10], Start).table.Slots(o))
  {
    var late, ls, actions := {o.system}, Cycled(o, e), Cycle(o);
    forall k | 0 <= k < |actions| ensures Possible(late, ls[k], actions[k]) && ls[k + 1] == Next(late, ls[k], actions[k]) {
      if k < 2 { Reserves(o, e, k); } else if k < 4 { Settles(o, e, k); } else if k < 8 { SettlesAgain(o, e, k); } else { HoldsTwice(o, e, k); }
    }
    RunKeepsOk(late, ls, actions, 10);
    HeldTwiceIsListedTwice(late, ls[10], 0, 1, e);
  }

  // ---- the objects ----

  /** The world's side: the shared allocator, the slot lists, and the cursors of the commit in progress. */
  class SpawnTable {
    var nextEntity: Entity
    var derivedSpawns: map<Owner, seq<Entity>>
    var spawnCursors: map<Owner, nat>

    constructor ()
      ensures nextEntity == 0 && State() == Table(map[], map[])
    {
      nextEntity, derivedSpawns, spawnCursors := 0, map[], map[];
    }

    ghost function State(): Table
      reads this
    {
      Table(derivedSpawns, spawnCursors)
    }

    function SpawnSlots(o: Owner): seq<Entity>
      reads this
    {
      if o in derivedSpawns then derivedSpawns[o] else []
    }

    method Allocate() returns (e: Entity)
      modifies this`nextEntity
      ensures e == old(nextEntity) && nextEntity == e + 1
    {
      e := nextEntity;
      nextEntity := nextEntity + 1;
    }

    /** Overwrites the slot at the cursor, or appends one. */
    method RecordDerivedSpawn(o: Owner, e: Entity)
      modifies this`derivedSpawns, this`spawnCursors
      ensures State() == Record(old(State()), o, e)
    {
      var slot := if o in spawnCursors then spawnCursors[o] else 0;
      spawnCursors := spawnCursors[o := slot + 1];
      var spawns := SpawnSlots(o);
      if slot < |spawns| {
        derivedSpawns := derivedSpawns[o := spawns[slot := e]];
      } else {
        derivedSpawns := derivedSpawns[o := spawns + [e]];
      }
    }

    /** Drops the slots the commit did not reach; an emptied list goes altogether. */
    method FinishDerivedSpawns(o: Owner)
      modifies this`derivedSpawns, this`spawnCursors
      ensures State() == Finish(old(State()), o)
    {
      var cursor := if o in spawnCursors then spawnCursors[o] else 0;
      spawnCursors := spawnCursors - {o};
      if o in derivedSpawns {
        var spawns := Upto(derivedSpawns[o], cursor);
        derivedSpawns := if spawns == [] then derivedSpawns - {o} else derivedSpawns[o := spawns];
      }
    }

    method RecordSpawns(o: Owner, ids: seq<Entity>)
      modifies this`derivedSpawns, this`spawnCursors
      ensures State() == RecordAll(old(State()), o, ids)
    {
      var n := 0;
      while n < |ids|
        invariant 0 <= n <= |ids| && State() == RecordAll(old(State()), o, ids[..n])
      {
        assert ids[..n + 1][..n] == ids[..n];
        RecordDerivedSpawn(o, ids[n]);
        n := n + 1;
      }
      assert ids[..n] == ids;
    }

    /** The spawn side of one commit outside the settle phase: exactly the spawned ids are left, in order. */
    method CommitSpawns(o: Owner, ids: seq<Entity>)
      requires o !in spawnCursors
      modifies this`derivedSpawns, this`spawnCursors
      ensures derivedSpawns == Listed(old(derivedSpawns), o, ids) && spawnCursors == old(spawnCursors)
    {
      CommitsExactly(State(), o, ids);
      RecordSpawns(o, ids);
      FinishDerivedSpawns(o);
    }

    /**
     The same commit in the settle phase: spawns are held back, so nothing is recorded, and finishing keeps the slots a
     start has reinstated since the last commit.
     */
    method CommitHeldBack(o: Owner)
      modifies this`derivedSpawns, this`spawnCursors
      ensures var n := if o in old(spawnCursors) then old(spawnCursors)[o] else 0;
        derivedSpawns == Listed(old(derivedSpawns), o, Upto(old(SpawnSlots(o)), n)) && spawnCursors == old(spawnCursors) - {o}
    {
      FinishDerivedSpawns(o);
    }

    /** The start of a generation: what was held back is recorded, and no commit is finished. */
    method ReinstateHeld(held: seq<Held>)
      modifies this`derivedSpawns, this`spawnCursors
      ensures State() == Reinstate(old(State()), held)
    {
      var n := 0;
      while n < |held|
        invariant 0 <= n <= |held| && State() == Reinstate(old(State()), held[..n])
      {
        assert held[..n + 1][..n] == held[..n];
        RecordSpawns(held[n].owner, held[n].ids);
        n := n + 1;
      }
      assert held[..n] == held;
    }
  }

  /** The buffer a run writes its commands into. */
  class CommandBuffer {
    const allocator: SpawnTable
    const spawnSlots: seq<Entity>
    var spawnCursor: nat
    ghost var reserved: seq<Entity>

    ghost predicate Valid()
      reads this
    {
      spawnCursor == |reserved|
    }

    constructor (allocator: SpawnTable, o: Owner)
      ensures Valid() && reserved == [] && this.allocator == allocator && spawnSlots == allocator.SpawnSlots(o)
    {
      this.allocator, spawnSlots, spawnCursor, reserved := allocator, allocator.SpawnSlots(o), 0, [];
    }

    /** Reserves the id of one spawn at buffer time. */
    method Insert() returns (e: Entity)
      requires Valid()
      modifies this, allocator`nextEntity
      ensures Valid() && reserved == old(reserved) + [e]
      ensures if |old(reserved)| < |spawnSlots| then e == spawnSlots[|old(reserved)|] && allocator.nextEntity == old(allocator.nextEntity)
              else e == old(allocator.nextEntity) && allocator.nextEntity == e + 1
    {
      if spawnCursor < |spawnSlots| {
        e := spawnSlots[spawnCursor];
      } else {
        e := allocator.Allocate();
      }
      spawnCursor := spawnCursor + 1;
      reserved := reserved + [e];
    }
  }
}
