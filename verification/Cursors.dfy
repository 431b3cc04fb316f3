/** A system's gate and hint, said out: which stores can open the one, and what the other names. */
module Cursors {
  import opened Ids
  import opened Ascending
  import opened World
  import opened Queries
  import opened Joins
  import opened Planners
  import opened Coverage

  /** Whatever can make a row of the query come, go or change: its parts, its facet, its filter either way, and its join. */
  predicate Concerns(q: Query, t: TypeId) {
    || t in q.anchor || t in q.refs || t in q.mutates || t in q.optional || t in q.with || t in q.without
    || q.binding == EqOn(t) || q.binding == InOf(t)
  }

  lemma {:induction false} InterestOfAre(ps: seq<Query>, t: TypeId)
    ensures t in InterestOf(ps) <==> exists j :: 0 <= j < |ps| && Concerns(ps[j], t)
  {
    if ps != [] {
      InterestOfAre(ps[1..], t);
      assert t in Interest(ps[0]) <==> Concerns(ps[0], t);
      if j :| 0 <= j < |ps| && Concerns(ps[j], t) {
        if j > 0 { assert Concerns(ps[1..][j - 1], t); }
      }
      if j :| 0 <= j < |ps[1..]| && Concerns(ps[1..][j], t) { assert Concerns(ps[j + 1], t); }
    }
  }

  /** The stores a system's gate looks at: those its queries are concerned with, and those it tracks whole. */
  lemma InterestIs(sh: Shape, t: TypeId)
    ensures t in sh.Interest() <==> t in sh.views || exists j :: 0 <= j < |sh.queries| && Concerns(sh.queries[j], t)
  {
    InterestOfAre(sh.queries, t);
  }

  lemma {:induction false} HighMarkReached(w: WorldState, ts: seq<TypeId>, m: nat)
    ensures HighMark(w, ts) > m <==> exists t :: t in ts && Mark(w, t) > m
  {
    if ts != [] {
      HighMarkReached(w, ts[1..], m);
      if t :| t in ts && Mark(w, t) > m { assert t == ts[0] || t in ts[1..]; }
      if Mark(w, ts[0]) > m { assert ts[0] in ts; }
      if t :| t in ts[1..] && Mark(w, t) > m { assert t in ts; }
    }
  }

  /** The gate is open exactly when rows are forced, nothing has been planned, or a store of interest has passed the mark. */
  lemma OpenIff(sh: Shape, p: Planner, w: WorldState)
    ensures Open(sh, p, w) <==> p.forced != [] || p.mark.None? || exists t :: t in sh.Interest() && Mark(w, t) > p.mark.value
  {
    if p.mark.Some? { HighMarkReached(w, sh.Interest(), p.mark.value); }
  }

  lemma {:induction false} TailIs(sh: Shape, log: seq<(TypeId, Entity)>, pos: nat, e: Entity)
    ensures e in Tail(sh, log, pos) <==> exists i :: pos <= i < |log| && log[i].0 in sh.Interest() && log[i].1 == e
    decreases |log| - pos
  {
    if pos < |log| { TailIs(sh, log, pos + 1, e); }
  }

  /**
   The hint: there is one exactly for a system that has queries, views no store, and has a cursor into this very log; and it
   names exactly the entities forced and those written in a store of interest since.
   */
  lemma HintNamesExactly(sh: Shape, p: Planner, w: WorldState)
    ensures NextHint(sh, p, w).Some? <==> sh.queries != [] && sh.views == [] && p.epoch == Some(w.epoch)
    ensures NextHint(sh, p, w).Some? ==> forall e ::
              e in NextHint(sh, p, w).value <==>
                e in p.forced || exists i :: p.pos <= i < |w.log| && w.log[i].0 in sh.Interest() && w.log[i].1 == e
  {
    if NextHint(sh, p, w).Some? {
      forall e ensures e in NextHint(sh, p, w).value <==>
                         e in p.forced || exists i :: p.pos <= i < |w.log| && w.log[i].0 in sh.Interest() && w.log[i].1 == e
      {
        TailIs(sh, w.log, p.pos, e);
      }
    }
  }

  /** Forcing a row of a system with a hint adds the row's keys to it; any other system plans in full the next time. */
  lemma ForceNames(sh: Shape, p: Planner, w: WorldState, keys: seq<Entity>)
    ensures var q := ForceReplan(sh, p, keys);
      && Open(sh, q, w)
      && (if sh.queries != [] && sh.views == [] && keys != [] && NextHint(sh, p, w).Some?
          then NextHint(sh, q, w) == Some(NextHint(sh, p, w).value + set e | e in keys)
          else NextHint(sh, q, w).None?)
  {
    var q := ForceReplan(sh, p, keys);
    if sh.DeltaEligible() && keys != [] {
      assert q.forced != [];
      if Current(sh, p, w) { assert NextHint(sh, q, w).value == NextHint(sh, p, w).value + set e | e in keys; }
    }
  }

  /** Right after a plan there is nothing to plan: the gate is shut, and a hint, where there is one, is empty. */
  lemma PlannedIsQuiet(sh: Shape, p: Planner, w: WorldState)
    ensures var q := Consumed(sh, Marked(sh, p, w), w);
      && !Open(sh, q, w)
      && (if sh.queries != [] && sh.views == [] then NextHint(sh, q, w) == Some({}) else NextHint(sh, q, w).None?)
  {
    var q := Consumed(sh, Marked(sh, p, w), w);
    if sh.DeltaEligible() {
      assert Tail(sh, w.log, q.pos) == [] && Current(sh, q, w);
      assert NextHint(sh, q, w).value == {};
    }
  }
}
