/**
 The write log, reclaimed while cursors still read from it: over any sequence of changes, compactions, forced rows,
 resets and plans, what the next plan of a system names is everything that has moved since its last one.
 */
module Compactions {
  import opened Ids
  import opened World
  import opened Queries
  import opened Joins
  import opened Hints
  import opened Planners
  import opened Coverage
  import WR = WorldRuns

  // ---- one system and the world it plans from ----

  /**
   `wave` is the world last captured for planning, log included; `base` the one the system last planned from. A plan takes
   place some time after its capture, while the world moves on.
   */
  datatype Reader = Reader(world: WorldState, p: Planner, base: WorldState, wave: WorldState)

  datatype Turn = Change(op: WR.Op) | Compact | Force(keys: seq<Entity>) | Reset | Capture | Plan

  ghost predicate Possible(sc: Schema, g: Reader, turn: Turn) {
    turn.Change? ==> !turn.op.CompactLog? && WR.Allowed(sc, g.world, turn.op)
  }

  function Next(sc: Schema, sh: Shape, g: Reader, turn: Turn): Reader {
    match turn
    case Change(op) => g.(world := WR.Apply(sc, g.world, op))
    case Compact => g.(world := Compacted(g.world), p := CompactLog(sh, g.p, g.world))
    case Force(keys) => g.(p := ForceReplan(sh, g.p, keys))
    case Reset => g.(p := ResetFull(g.p))
    case Capture => g.(wave := g.world)
    case Plan =>
      if Open(sh, g.p, g.wave) then g.(p := Consumed(sh, Marked(sh, g.p, g.wave), g.wave), base := g.wave) else g
  }

  ghost predicate Run(sc: Schema, sh: Shape, gs: seq<Reader>, turns: seq<Turn>) {
    && |gs| == |turns| + 1 && Inv(sc, gs[0].world, {}) && gs[0] == Reader(gs[0].world, FRESH, gs[0].world, gs[0].world)
    && forall k :: 0 <= k < |turns| ==> Possible(sc, gs[k], turns[k]) && gs[k + 1] == Next(sc, sh, gs[k], turns[k])
  }

  // ---- the invariant ----

  /** Whatever moved from `v` to `w`, of what the system is interested in, has opened its gate and is named by its next plan. */
  ghost predicate Held(sh: Shape, p: Planner, v: WorldState, w: WorldState) {
    forall t, e: Entity :: t in sh.Interest() && Rev(v, t, e) != Rev(w, t, e) ==>
      Open(sh, p, w) && (NextHint(sh, p, w).None? || e in NextHint(sh, p, w).value)
  }

  /** `w` is a later state than `v`, whatever has been compacted in between; with the same log it is a step of it. */
  ghost predicate Past(sc: Schema, v: WorldState, w: WorldState) {
    && WR.Later(sc, v, w)
    && v.epoch <= w.epoch && (v.epoch == w.epoch ==> Evolves(sc, v, w))
    && (forall t :: Mark(v, t) <= Mark(w, t))
    && (forall t, e: Entity :: Rev(v, t, e) != Rev(w, t, e) ==> Mark(w, t) > v.revision)
  }

  ghost predicate Ok(sc: Schema, sh: Shape, g: Reader) {
    && Inv(sc, g.world, {}) && Inv(sc, g.base, {}) && Inv(sc, g.wave, {})
    && Past(sc, g.base, g.wave) && Past(sc, g.wave, g.world) && Past(sc, g.base, g.world)
    && Consistent(sh, g.p, g.world)
    && Held(sh, g.p, g.base, g.wave) && Held(sh, g.p, g.base, g.world)
  }

  lemma PastReflexive(sc: Schema, w: WorldState)
    ensures Past(sc, w, w)
  {
    EvolvesReflexive(sc, w);
    WR.EvolvesIsLater(sc, w, w);
  }

  lemma PastChange(sc: Schema, v: WorldState, w: WorldState, w': WorldState)
    requires RevisionsBounded(v) && RevisionsBounded(w) && Past(sc, v, w) && Evolves(sc, w, w')
    ensures Past(sc, v, w')
  {
    WR.EvolvesIsLater(sc, w, w');
    WR.LaterTransitive(sc, v, w, w');
    if v.epoch == w.epoch { EvolvesTransitive(sc, v, w, w'); }
    forall t ensures Mark(w, t) <= Mark(w', t) { assert Mark(w, t) <= w.revision; }
    forall t, e: Entity | Rev(v, t, e) != Rev(w', t, e) ensures Mark(w', t) > v.revision {
      if Rev(v, t, e) == Rev(w, t, e) { assert Rev(w, t, e) != Rev(w', t, e); }
    }
  }

  lemma PastCompaction(sc: Schema, v: WorldState, w: WorldState)
    requires RevisionsBounded(v) && Inv(sc, w, {}) && Past(sc, v, w)
    ensures Past(sc, v, Compacted(w))
  {
    WR.OpKeepsInv(sc, w, WR.CompactLog);
    WR.LaterTransitive(sc, v, w, Compacted(w));
    forall t, e: Entity | Rev(v, t, e) != Rev(Compacted(w), t, e) ensures Mark(Compacted(w), t) > v.revision {
      assert Rev(w, t, e) == Rev(Compacted(w), t, e);
    }
  }

  // ---- each turn ----

  /** A system that has just planned from `v`. */
  lemma PlannedHolds(sc: Schema, sh: Shape, p: Planner, v: WorldState, w: WorldState)
    requires RevisionsBounded(v) && Past(sc, v, w) && Consistent(sh, p, w)
    ensures var q := Consumed(sh, Marked(sh, p, v), v); Held(sh, q, v, w) && Held(sh, q, v, v) && Consistent(sh, q, w)
  {
    var q := Consumed(sh, Marked(sh, p, v), v);
    HighMarkWithin(v, sh.Interest());
    HighMarkGrows(v, w, sh.Interest());
    forall t, e: Entity | t in sh.Interest() && Rev(v, t, e) != Rev(w, t, e)
      ensures Open(sh, q, w) && (NextHint(sh, q, w).None? || e in NextHint(sh, q, w).value)
    {
      HighMarkBounds(w, sh.Interest(), t);
      if Current(sh, q, w) { LoggedReachesHint(sh, q, v, w, t, e); }
    }
  }

  lemma ChangeHolds(sc: Schema, sh: Shape, p: Planner, v: WorldState, w: WorldState, w': WorldState)
    requires RevisionsBounded(w) && Consistent(sh, p, w) && Held(sh, p, v, w) && Evolves(sc, w, w')
    ensures Held(sh, p, v, w') && Consistent(sh, p, w')
  {
    forall t ensures Mark(w, t) <= Mark(w', t) { assert Mark(w, t) <= w.revision; }
    HighMarkWithin(w, sh.Interest());
    HighMarkGrows(w, w', sh.Interest());
    TailGrows(sh, w.log, w'.log, p.pos);
    forall t, e: Entity | t in sh.Interest() && Rev(v, t, e) != Rev(w', t, e)
      ensures Open(sh, p, w') && (NextHint(sh, p, w').None? || e in NextHint(sh, p, w').value)
    {
      if Rev(w, t, e) != Rev(w', t, e) {
        HighMarkBounds(w', sh.Interest(), t);
        if Current(sh, p, w') { LoggedReachesHint(sh, p, w, w', t, e); }
      }
    }
  }

  /** Seen from the world compacted, and from an earlier one still waiting to be planned from. */
  lemma CompactionHolds(sc: Schema, sh: Shape, p: Planner, v: WorldState, wave: WorldState, w: WorldState)
    requires Consistent(sh, p, w) && Held(sh, p, v, w) && Held(sh, p, v, wave) && wave.epoch <= w.epoch
    ensures var p' := CompactLog(sh, p, w);
      Held(sh, p', v, Compacted(w)) && Held(sh, p', v, wave) && Consistent(sh, p', Compacted(w))
  {
    CompactionConsistent(sh, p, w);
    CompactionKeepsHint(sh, p, w);
    SameMarks(w, Compacted(w));
    if p.forced != [] { CompactedStaysForced(sh, p, w); }
  }

  lemma ForceHolds(sh: Shape, p: Planner, v: WorldState, w: WorldState, keys: seq<Entity>)
    requires Held(sh, p, v, w)
    ensures Held(sh, ForceReplan(sh, p, keys), v, w)
  {}

  lemma TurnKeepsOk(sc: Schema, sh: Shape, g: Reader, turn: Turn)
    requires Ok(sc, sh, g) && Possible(sc, g, turn)
    ensures Ok(sc, sh, Next(sc, sh, g, turn))
  {
    match turn
    case Change(op) =>
      var w := WR.Apply(sc, g.world, op);
      WR.OpKeepsInv(sc, g.world, op);
      ChangeHolds(sc, sh, g.p, g.base, g.world, w);
      PastChange(sc, g.base, g.world, w);
      PastChange(sc, g.wave, g.world, w);
    case Compact =>
      WR.OpKeepsInv(sc, g.world, WR.CompactLog);
      CompactionHolds(sc, sh, g.p, g.base, g.wave, g.world);
      PastCompaction(sc, g.base, g.world);
      PastCompaction(sc, g.wave, g.world);
    case Force(keys) =>
      ForceHolds(sh, g.p, g.base, g.world, keys);
      ForceHolds(sh, g.p, g.base, g.wave, keys);
    case Reset =>
    case Capture => PastReflexive(sc, g.world);
    case Plan =>
      if Open(sh, g.p, g.wave) {
        PlannedHolds(sc, sh, g.p, g.wave, g.world);
        PastReflexive(sc, g.wave);
      }
  }

  lemma {:induction false} RunKeepsOk(sc: Schema, sh: Shape, gs: seq<Reader>, turns: seq<Turn>, k: nat)
    requires Run(sc, sh, gs, turns) && k <= |turns|
    ensures Ok(sc, sh, gs[k])
  {
    if k == 0 {
      PastReflexive(sc, gs[0].world);
    } else {
      RunKeepsOk(sc, sh, gs, turns, k - 1);
      TurnKeepsOk(sc, sh, gs[k - 1], turns[k - 1]);
    }
  }

  // ---- what it means ----

  /**
   After any number of compactions, the rows forced by them and the new tail name every entity whose presence or revision
   of interest has moved since the last plan, or the next plan is a full one; and the gate is open for it. So a system
   whose gate is shut has nothing to plan.
   */
  lemma MovesAreNamed(sc: Schema, sh: Shape, gs: seq<Reader>, turns: seq<Turn>, k: nat, t: TypeId, e: Entity)
    requires Run(sc, sh, gs, turns) && k <= |turns| && t in sh.Interest() && Rev(gs[k].base, t, e) != Rev(gs[k].world, t, e)
    ensures Open(sh, gs[k].p, gs[k].world)
    ensures sh.DeltaEligible() && gs[k].p.epoch == Some(gs[k].world.epoch) ==>
              e in gs[k].p.forced || e in Tail(sh, gs[k].world.log, gs[k].p.pos)
  {
    RunKeepsOk(sc, sh, gs, turns, k);
  }

  /**
   The entries a compaction drops, which it does under a shut gate alone, are writes that have changed nothing since the
   last plan: presence and revision stand, and so do the fingerprints of tracked components.
   */
  lemma DroppedTailMovedNothing(sc: Schema, sh: Shape, gs: seq<Reader>, turns: seq<Turn>, k: nat, e: Entity)
    requires Run(sc, sh, gs, turns) && k < |turns| && turns[k] == Compact
    requires Current(sh, gs[k].p, gs[k].world) && !sh.phase.Startup? && e in NextHint(sh, gs[k].p, gs[k].world).value
    requires e !in NextHint(sh, gs[k + 1].p, gs[k + 1].world).value
    ensures !Open(sh, gs[k].p, gs[k].world)
    ensures forall t :: t in sh.Interest() ==>
              && Has(gs[k].base, t, e) == Has(gs[k].world, t, e) && Rev(gs[k].base, t, e) == Rev(gs[k].world, t, e)
              && (sc.Tracked(t) ==> StampAt(gs[k].base, t, e) == StampAt(gs[k].world, t, e))
  {
    RunKeepsOk(sc, sh, gs, turns, k);
    var g := gs[k];
    CompactionKeepsHint(sh, g.p, g.world);
    forall t | t in sh.Interest()
      ensures Rev(g.base, t, e) == Rev(g.world, t, e) && (sc.Tracked(t) ==> StampAt(g.base, t, e) == StampAt(g.world, t, e))
    {
      assert Rev(g.base, t, e) == Rev(g.world, t, e);
    }
  }

  lemma CursorStaysInvalid(sc: Schema, sh: Shape, g: Reader, turn: Turn)
    requires Ok(sc, sh, g) && Possible(sc, g, turn) && !turn.Plan? && !Current(sh, g.p, g.world)
    ensures var h := Next(sc, sh, g, turn); !Current(sh, h.p, h.world)
  {
    match turn
    case Change(op) => WR.OpKeepsInv(sc, g.world, op);
    case _ =>
  }

  /** A cursor that is no longer valid stays so, whatever is compacted or forced, until the system plans: in full. */
  lemma {:induction false} InvalidCursorPlansAll(sc: Schema, sh: Shape, gs: seq<Reader>, turns: seq<Turn>, j: nat, k: nat)
    requires Run(sc, sh, gs, turns) && j <= k <= |turns| && NextHint(sh, gs[j].p, gs[j].world).None?
    requires forall m :: j <= m < k ==> !turns[m].Plan?
    ensures NextHint(sh, gs[k].p, gs[k].world).None?
    decreases k - j
  {
    if j < k {
      InvalidCursorPlansAll(sc, sh, gs, turns, j, k - 1);
      RunKeepsOk(sc, sh, gs, turns, k - 1);
      CursorStaysInvalid(sc, sh, gs[k - 1], turns[k - 1]);
    }
  }

  // ---- joins ----

  /** No member list of interest outside the hint has changed: with an equal fingerprint, neither revision nor gate tells. */
  ghost predicate MembersHeld(v: WorldState, w: WorldState, ps: seq<Query>, hint: set<Entity>) {
    forall t, e: Entity :: t in InterestOf(ps) && e !in hint ==> Members(v, t, e) == Members(w, t, e)
  }

  /** What the next plan names covers everything that changed, iff no untracked key and no member list changed unseen. */
  lemma CompactedHintCovers(sc: Schema, sh: Shape, p: Planner, v: WorldState, w: WorldState)
    requires Held(sh, p, v, w) && WR.Later(sc, v, w) && NextHint(sh, p, w).Some?
    ensures var hint := NextHint(sh, p, w).value;
      Covers(v, w, sh.queries, hint) <==> KeysHeld(sc, v, w, sh.queries, hint) && MembersHeld(v, w, sh.queries, hint)
  {
    var ps, hint := sh.queries, NextHint(sh, p, w).value;
    forall t, e: Entity | t in InterestOf(ps) && e !in hint ensures Rev(v, t, e) == Rev(w, t, e) { assert t in sh.Interest(); }
    forall k, e: Entity | KeysOf(ps, k) && sc.Tracked(k) && e !in hint ensures StampAt(v, k, e) == StampAt(w, k, e) {
      var j :| 0 <= j < |ps| && ps[j].binding == EqOn(k);
      InterestCovers(ps, j);
      assert k in Keyed(ps[j]) && k in Required(ps[j]);
      assert Rev(v, k, e) == Rev(w, k, e);
    }
    if KeysHeld(sc, v, w, ps, hint) && MembersHeld(v, w, ps, hint) {
      forall t, e: Entity | t in InterestOf(ps) && e !in hint ensures SameFor(v, w, t, e) {
        assert Rev(v, t, e) == Rev(w, t, e) && Members(v, t, e) == Members(w, t, e);
      }
      forall k, e: Entity | KeysOf(ps, k) && e !in hint ensures StampAt(v, k, e) == StampAt(w, k, e) {
        if !sc.Tracked(k) { assert StampAt(v, k, e) == StampAt(w, k, e); }
      }
    }
    if Covers(v, w, ps, hint) {
      forall t, e: Entity | t in InterestOf(ps) && e !in hint ensures Members(v, t, e) == Members(w, t, e) { assert SameFor(v, w, t, e); }
    }
  }

  /**
   So over every run, whatever has been compacted since its last plan, a system, joined or not, plans completely from its
   forced rows and the unread tail: a row of the pruned product that it leaves out was one at its last plan, with the same
   dependencies.
   */
  lemma CompactedPlanningIsComplete(sc: Schema, sh: Shape, gs: seq<Reader>, turns: seq<Turn>, k: nat, row: seq<Entity>)
    requires Run(sc, sh, gs, turns) && k < |turns| && turns[k] == Plan && NextHint(sh, gs[k].p, gs[k].wave).Some?
    requires WellBound(sh.queries) && FreeProviders(sh.queries) && JoinsInverses(sc, sh.queries)
    requires var hint := NextHint(sh, gs[k].p, gs[k].wave).value;
      && KeysHeld(sc, gs[k].base, gs[k].wave, sh.queries, hint) && MembersHeld(gs[k].base, gs[k].wave, sh.queries, hint)
      && row in Specified(gs[k].wave, sh.queries) && row !in StatesHinted(sc, gs[k].wave, sh.queries, hint)
    ensures |row| == |sh.queries| && row in Specified(gs[k].base, sh.queries)
    ensures RowDeps(sc, gs[k].base, sh.queries, row) == RowDeps(sc, gs[k].wave, sh.queries, row)
  {
    RunKeepsOk(sc, sh, gs, turns, k);
    var hint := NextHint(sh, gs[k].p, gs[k].wave).value;
    CompactedHintCovers(sc, sh, gs[k].p, gs[k].base, gs[k].wave);
    CoveredPlanningIsComplete(sc, gs[k].base, gs[k].wave, sh.queries, hint, row);
  }
}
