/**
 One system's planning state: the watermark it last planned against, its cursor into the write log, and the rows
 forced back into planning. `Planner` is the state as a value; `BoxedSystem` is the object that updates it.
 */
module Planners {
  import opened Ids
  import opened Ascending
  import opened World
  import opened Queries
  import opened Joins
  import opened Hints

  datatype Phase = Startup | Evaluate | Complete | Settle

  /**
   The static side: plain row queries, the stores of `TrackedView`s, and the stores of ambient `View`s, which a run
   reads but which contribute neither rows nor dependencies nor interest.
   */
  datatype Shape = Shape(queries: seq<Query>, views: seq<TypeId>, ambient: seq<TypeId>, phase: Phase) {

    function Interest(): seq<TypeId> {
      InterestOf(queries) + views
    }

    /** Only driver tuples plan from a hint; a whole-store dependency makes the system opaque to hints. */
    predicate DeltaEligible() {
      queries != [] && views == []
    }

    ghost predicate Valid() {
      WellBound(queries) && forall j :: 0 <= j < |queries| ==> queries[j].binding.Free?
    }
  }

  /** `mark` and `epoch` are `None` where the source stores the sentinel `u64::MAX`. */
  datatype Planner = Planner(mark: Option<nat>, epoch: Option<nat>, pos: nat, forced: seq<Entity>)

  const FRESH := Planner(None, None, 0, [])

  /** Highest watermark of the stores of interest. */
  function HighMark(w: WorldState, ts: seq<TypeId>): nat {
    if ts == [] then 0 else Max(Mark(w, ts[0]), HighMark(w, ts[1..]))
  }

  /** The gate: rows are forced, the mark is unset, or some store of interest moved past it. */
  predicate Open(sh: Shape, p: Planner, w: WorldState) {
    p.forced != [] || p.mark.None? || HighMark(w, sh.Interest()) > p.mark.value
  }

  function Marked(sh: Shape, p: Planner, w: WorldState): Planner {
    p.(mark := Some(HighMark(w, sh.Interest())))
  }

  function ResetFull(p: Planner): Planner {
    p.(mark := None, epoch := None)
  }

  function ForceReplan(sh: Shape, p: Planner, keys: seq<Entity>): Planner {
    if sh.DeltaEligible() && keys != [] then p.(forced := p.forced + keys) else ResetFull(p)
  }

  /** Entities written in stores of interest since position `pos` of a log. */
  function Tail(sh: Shape, log: seq<(TypeId, Entity)>, pos: nat): seq<Entity>
    decreases |log| - pos
  {
    if pos >= |log| then []
    else (if log[pos].0 in sh.Interest() then [log[pos].1] else []) + Tail(sh, log, pos + 1)
  }

  /** Sorted, each entity once. */
  function Deduped(es: seq<Entity>): (r: seq<Entity>)
    ensures forall e: Entity :: e in r <==> e in es
  {
    Sorted(set e | e in es)
  }

  /** Whether the cursor belongs to the log it would read. */
  predicate Current(sh: Shape, p: Planner, w: WorldState) {
    sh.DeltaEligible() && p.epoch == Some(w.epoch)
  }

  /** What the next plan re-enumerates: `None` is everything. */
  function NextHint(sh: Shape, p: Planner, w: WorldState): Option<set<Entity>> {
    if Current(sh, p, w) then Some((set e | e in p.forced) + (set e | e in Tail(sh, w.log, p.pos))) else None
  }

  function Consumed(sh: Shape, p: Planner, w: WorldState): Planner {
    if sh.DeltaEligible() then p.(forced := [], pos := |w.log|, epoch := Some(w.epoch)) else p.(forced := [])
  }

  /** Log reclamation: unread rows of interest move to the forced rows, but only if the gate is open anyway. */
  function CompactLog(sh: Shape, p: Planner, w: WorldState): Planner {
    if !sh.DeltaEligible() || sh.phase.Startup? || p.epoch != Some(w.epoch) then p
    else p.(forced := if Open(sh, p, w) then Deduped(p.forced + Tail(sh, w.log, p.pos)) else p.forced,
            pos := 0, epoch := Some(w.epoch + 1))
  }

  lemma {:induction false} HighMarkBounds(w: WorldState, ts: seq<TypeId>, t: TypeId)
    requires t in ts
    ensures Mark(w, t) <= HighMark(w, ts)
  {
    if ts[0] != t { HighMarkBounds(w, ts[1..], t); }
  }

  lemma {:induction false} HighMarkWithin(w: WorldState, ts: seq<TypeId>)
    requires RevisionsBounded(w)
    ensures HighMark(w, ts) <= w.revision
  {
    if ts != [] {
      HighMarkWithin(w, ts[1..]);
      assert Mark(w, ts[0]) <= w.revision;
    }
  }

  lemma {:induction false} HighMarkGrows(w: WorldState, w': WorldState, ts: seq<TypeId>)
    requires forall t :: t in ts ==> Mark(w, t) <= Mark(w', t)
    ensures HighMark(w, ts) <= HighMark(w', ts)
  {
    if ts != [] { HighMarkGrows(w, w', ts[1..]); }
  }

  lemma {:induction false} TailHas(sh: Shape, log: seq<(TypeId, Entity)>, pos: nat, i: nat)
    requires pos <= i < |log| && log[i].0 in sh.Interest()
    ensures log[i].1 in Tail(sh, log, pos)
    decreases i - pos
  {
    if pos < i { TailHas(sh, log, pos + 1, i); }
  }

  lemma {:induction false} TailGrows(sh: Shape, log: seq<(TypeId, Entity)>, log': seq<(TypeId, Entity)>, pos: nat)
    requires log <= log'
    ensures forall e :: e in Tail(sh, log, pos) ==> e in Tail(sh, log', pos)
    decreases |log| - pos
  {
    if pos < |log| { TailGrows(sh, log, log', pos + 1); }
  }

  lemma {:induction false} TailSplits(sh: Shape, log: seq<(TypeId, Entity)>, pos: nat, cut: nat, e: Entity)
    requires pos <= cut <= |log| && e in Tail(sh, log, pos)
    ensures e in Tail(sh, log[..cut], pos) || e in Tail(sh, log, cut)
    decreases cut - pos
  {
    if pos < cut {
      assert log[..cut][pos] == log[pos];
      if e in Tail(sh, log, pos + 1) { TailSplits(sh, log, pos + 1, cut, e); }
    }
  }

  /** The registered system: the same fields the source keeps behind atomics, updated in place. */
  class BoxedSystem {
    const shape: Shape
    var plannedMark: Option<nat>
    var planEpoch: Option<nat>
    var logPos: nat
    var forcedDirty: seq<Entity>

    function State(): Planner
      reads this
    {
      Planner(plannedMark, planEpoch, logPos, forcedDirty)
    }

    constructor (shape: Shape)
      ensures this.shape == shape && State() == FRESH
    {
      this.shape := shape;
      plannedMark, planEpoch, logPos, forcedDirty := None, None, 0, [];
    }

    /** Highest watermark of interest, by one pass over the stores. */
    method Level(w: WorldState) returns (mark: nat)
      ensures mark == HighMark(w, shape.Interest())
    {
      var interest := shape.Interest();
      mark := 0;
      var n := |interest|;
      while n > 0
        invariant 0 <= n <= |interest|
        invariant mark == HighMark(w, interest[n..])
      {
        n := n - 1;
        assert interest[n..][0] == interest[n] && interest[n..][1..] == interest[n + 1..];
        mark := Max(Mark(w, interest[n]), mark);
      }
    }

    method PeekNeedsPlanning(w: WorldState) returns (open: bool)
      ensures open == Open(shape, State(), w)
    {
      if forcedDirty != [] || plannedMark.None? {
        return true;
      }
      var level := Level(w);
      open := level > plannedMark.value;
    }

    method NeedsPlanning(w: WorldState) returns (open: bool)
      modifies this
      ensures open == Open(shape, old(State()), w)
      ensures State() == if open then Marked(shape, old(State()), w) else old(State())
    {
      open := PeekNeedsPlanning(w);
      if open {
        var level := Level(w);
        plannedMark := Some(level);
      }
    }

    method Force(keys: seq<Entity>)
      modifies this
      ensures State() == ForceReplan(shape, old(State()), keys)
    {
      if shape.DeltaEligible() && keys != [] {
        forcedDirty := forcedDirty + keys;
        return;
      }
      Reset();
    }

    method Reset()
      modifies this
      ensures State() == ResetFull(old(State()))
    {
      plannedMark := None;
      planEpoch := None;
    }

    /** The hint for one plan, consuming the forced rows and the log up to its end. */
    method TakeHint(w: WorldState) returns (hint: Option<set<Entity>>)
      modifies this
      ensures hint == NextHint(shape, old(State()), w)
      ensures State() == Consumed(shape, old(State()), w)
    {
      var forced := forcedDirty;
      forcedDirty := [];
      hint := None;
      if shape.DeltaEligible() {
        if planEpoch == Some(w.epoch) {
          var tail := ReadTail(w.log, logPos);
          hint := Some((set e | e in forced) + (set e | e in tail));
        }
        logPos := |w.log|;
        planEpoch := Some(w.epoch);
      }
    }

    method ReadTail(log: seq<(TypeId, Entity)>, pos: nat) returns (tail: seq<Entity>)
      ensures tail == Tail(shape, log, pos)
    {
      tail := [];
      var n := |log|;
      while n > pos
        invariant n <= |log| && (n >= pos || n == |log|)
        invariant tail == Tail(shape, log, n)
      {
        n := n - 1;
        if log[n].0 in shape.Interest() {
          tail := [log[n].1] + tail;
        }
      }
    }

    method Compact(w: WorldState)
      modifies this
      ensures State() == CompactLog(shape, old(State()), w)
    {
      if !shape.DeltaEligible() || shape.phase.Startup? || planEpoch != Some(w.epoch) {
        return;
      }
      var open := PeekNeedsPlanning(w);
      if open {
        var tail := ReadTail(w.log, logPos);
        forcedDirty := Deduped(forcedDirty + tail);
      }
      logPos := 0;
      planEpoch := Some(w.epoch + 1);
    }
  }
}
