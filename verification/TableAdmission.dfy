/**
 The reservation table under the phase machine: while its live claims mirror the runs in flight, the counters decide
 admission as the machine does, and each table operation is the machine's change to the runs in flight.
 */
module TableAdmission {
  import opened Ids
  import opened World
  import opened Planners
  import opened Coverage
  import opened Admission
  import opened ReservationTable
  import A = Accesses
  import MZ = Memoization
  import PH = Phases

  ghost predicate Claimed(live: map<RunId, Claim>, o: Owner) {
    exists id :: id in live && live[id].owner == o
  }

  /** One claim for each run in flight, on exactly what its row touches. */
  ghost predicate Mirrors(live: map<RunId, Claim>, shapes: seq<Shape>, flights: Flights) {
    && (forall id :: id in live ==> live[id].owner in flights && live[id].accesses == AccessOf(shapes, live[id].owner))
    && (forall o :: o in flights ==> Claimed(live, o))
    && (forall id, other :: id in live && other in live && live[id].owner == live[other].owner ==> id == other)
  }

  /** The table refuses exactly what the machine refuses. */
  lemma BlockedIsRefused(live: map<RunId, Claim>, shapes: seq<Shape>, flights: Flights, o: Owner)
    requires Mirrors(live, shapes, flights)
    ensures Blocked(live, AccessOf(shapes, o)) <==> Refused(shapes, flights, o)
    ensures Claimed(live, o) <==> o in flights
  {
    if Refused(shapes, flights, o) {
      var f :| f in flights && A.Clash(AccessOf(shapes, o), AccessOf(shapes, f));
      assert Claimed(live, f);
      var id :| id in live && live[id].owner == f;
      assert A.Clash(AccessOf(shapes, o), live[id].accesses);
    }
    if Blocked(live, AccessOf(shapes, o)) {
      var id :| id in live && A.Clash(AccessOf(shapes, o), live[id].accesses);
      assert A.Clash(AccessOf(shapes, o), AccessOf(shapes, live[id].owner));
    }
  }

  /** So the counters block a row exactly when it and some run in flight get in each other's way. */
  lemma BlockedIsDisturbed(live: map<RunId, Claim>, shapes: seq<Shape>, flights: Flights, o: Owner)
    requires Mirrors(live, shapes, flights) && Shaped(shapes, flights.Keys) && Shaped(shapes, {o})
    ensures Blocked(live, AccessOf(shapes, o)) <==> MZ.Blocked(shapes, flights, o)
  {
    BlockedIsRefused(live, shapes, flights, o);
    MZ.RefusedIsBlocked(shapes, flights, o);
  }

  lemma AdmittedMirrors(live: map<RunId, Claim>, shapes: seq<Shape>, flights: Flights, id: RunId, o: Owner, snap: WorldState)
    requires Mirrors(live, shapes, flights) && id !in live && o !in flights
    ensures Mirrors(live[id := Claim(o, AccessOf(shapes, o))], shapes, flights[o := snap])
  {
    var more := live[id := Claim(o, AccessOf(shapes, o))];
    forall n | n in live ensures live[n].owner != o && more[n] == live[n] { assert live[n].owner in flights; }
    forall f | f == o || f in flights ensures Claimed(more, f) {
      if f == o { assert more[id].owner == f; } else { StaysClaimed(live, more, f); }
    }
  }

  lemma StaysClaimed(live: map<RunId, Claim>, more: map<RunId, Claim>, f: Owner)
    requires Claimed(live, f) && forall n :: n in live && live[n].owner == f ==> n in more && more[n] == live[n]
    ensures Claimed(more, f)
  {
    var n :| n in live && live[n].owner == f;
    assert more[n].owner == f;
  }

  /** A run that returns and gives its claim up. */
  lemma ReleasedMirrors(live: map<RunId, Claim>, shapes: seq<Shape>, flights: Flights, id: RunId)
    requires Mirrors(live, shapes, flights) && id in live
    ensures Mirrors(live - {id}, shapes, flights - {live[id].owner})
  {
    forall f | f in flights - {live[id].owner} ensures Claimed(live - {id}, f) {
      StaysClaimed(live, live - {id}, f);
    }
  }

  /** A preemption: the table cancels its readers as the machine drops them. */
  lemma PreemptedMirrors(live: map<RunId, Claim>, shapes: seq<Shape>, flights: Flights)
    requires Mirrors(live, shapes, flights)
    ensures Mirrors(map id | id in live && A.Writes(live[id].accesses) :: live[id], shapes, PH.WritersOnly(shapes, flights))
  {
    var writers := map id | id in live && A.Writes(live[id].accesses) :: live[id];
    forall f | f in PH.WritersOnly(shapes, flights) ensures Claimed(writers, f) { StaysClaimed(live, writers, f); }
  }

  /** One planned row, admitted by the table, does what the machine's admission does. */
  method AdmitRow(table: Reservations, sc: Schema, shapes: seq<Shape>, id: nat, snap: WorldState, memo: Memo, row: seq<Entity>, a: Admitting)
    returns (b: Admitting)
    requires table.Valid() && Mirrors(table.live, shapes, a.flights)
    requires id < |shapes| && |row| == |shapes[id].queries| && Shaped(shapes, a.flights.Keys)
    requires table.free != [] || |table.slots| <= MAX_U32 || Owner(id, row) in a.flights || Refused(shapes, a.flights, Owner(id, row))
    modifies table
    ensures b == Admit(sc, shapes, id, snap, memo, row, a)
    ensures MZ.Remembered(sc, snap, shapes[id], memo, Owner(id, row)) ==> b == a && table.live == old(table.live)
    ensures table.Valid() && Mirrors(table.live, shapes, b.flights) && Steps(old(table.Seen()), table.Seen())
  {
    var o := Owner(id, row);
    if MemoCurrent(sc, snap, shapes[id], memo, o) {
      return a;
    }
    BlockedIsRefused(table.live, shapes, a.flights, o);
    table.OwnersAreLive(o);
    var r := table.Admit(o, AccessOf(shapes, o));
    match r
    case Duplicate => b := a;
    case Conflict(_) => b := a.(p := ForceReplan(shapes[id], a.p, row), conflicts := true);
    case Admitted(run) =>
      b := a.(flights := a.flights[o := snap]);
      AdmittedMirrors(old(table.live), shapes, a.flights, run, o, snap);
  }
}
