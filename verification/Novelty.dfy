/** The converse of the quiet rerun: one output that is new at its turn moves the world, whatever else its buffer does. */
module NovelOutputs {
  import opened Ids
  import opened World
  import opened Output
  import AS = AnchorSweeps

  lemma {:induction false} LegalSplits(sc: Schema, w: WorldState, a: seq<Command>, b: seq<Command>, o: Owner)
    requires LegalSteps(sc, w, a + b, o)
    ensures LegalSteps(sc, w, a, o) && LegalSteps(sc, Steps(sc, w, a, o), b, o)
    decreases |a|
  {
    if a == [] {
      assert a + b == b;
    } else {
      assert (a + b)[1..] == a[1..] + b;
      LegalSplits(sc, Step(sc, w, a[0], o), a[1..], b, o);
    }
  }

  /** Untracked, or with a stamp that is missing or not the stored one. */
  predicate Novel(sc: Schema, w: WorldState, c: Command) {
    c.Put? && (!sc.Tracked(c.t) || !StampKept(w, c.t, c.e, c.v))
  }

  lemma NovelStepsMove(sc: Schema, w: WorldState, a: seq<Command>, c: Command, b: seq<Command>, o: Owner, loose: Loose)
    requires Replacing(sc, w, o, {}, loose) && LegalSteps(sc, w, a + ([c] + b), o) && Novel(sc, Steps(sc, w, a, o), c)
    ensures Steps(sc, w, a + ([c] + b), o).revision > w.revision
  {
    LegalSplits(sc, w, a, [c] + b, o);
    StepsAppend(sc, w, a, [c] + b, o);
    var at := Steps(sc, w, a, o);
    var left := StepsReplace(sc, w, a, o, {}, loose);
    assert ([c] + b)[0] == c && ([c] + b)[1..] == b;
    NovelWriteMoves(sc, at, c, o, left);
    var emitted := Emitted(sc, w, a, o, {});
    StepReplaces(sc, at, c, o, emitted, left);
    var rest := StepsReplace(sc, Step(sc, at, c, o), b, o, Present(Step(sc, at, c, o), emitted + {(c.t, c.e)}), left - {(o, c.t, c.e)});
  }

  /** A whole output with a novel write in it, at its turn in the order of effect, raises the world revision. */
  lemma NovelOutputMoves(sc: Schema, w: WorldState, cs: seq<Command>, o: Owner, previous: seq<(TypeId, Entity)>, k: nat)
    requires Inv(sc, w, {}) && Lists(previous, Outputs(w, o)) && LegalSteps(sc, Take(w, o), Reordered(sc, cs), o)
    requires k < |Reordered(sc, cs)| && Novel(sc, Steps(sc, Take(w, o), Reordered(sc, cs)[..k], o), Reordered(sc, cs)[k])
    ensures Replace(sc, w, cs, o, previous).revision > w.revision
  {
    var all, taken := Reordered(sc, cs), Take(w, o);
    assert all == all[..k] + ([all[k]] + all[k + 1..]);
    TakeLoosens(sc, w, o);
    NovelStepsMove(sc, taken, all[..k], all[k], all[k + 1..], o, set p | p in Outputs(w, o) :: (o, p.0, p.1));
    DeferralReorders(sc, taken, cs, o);
    var loose := AS.FlushedIsInv(sc, w, cs, o, previous);
    AS.SweepReads(sc, AS.Flushed(sc, w, cs, o), o, previous, loose);
  }

  lemma {:induction false} AnchorIsDeferred(sc: Schema, cs: seq<Command>, i: nat)
    requires i < |cs| && Anchors(sc, cs[i])
    ensures cs[i] in Deferred(sc, cs)
  {
    if i > 0 { AnchorIsDeferred(sc, cs[1..], i - 1); }
  }

  /** In particular an invocation that emits any `DerivedFrom` is never quiet, however equal its anchors. */
  lemma AnchorsAlwaysMove(sc: Schema, w: WorldState, cs: seq<Command>, o: Owner, previous: seq<(TypeId, Entity)>, i: nat)
    requires Inv(sc, w, {}) && Lists(previous, Outputs(w, o)) && LegalSteps(sc, Take(w, o), Reordered(sc, cs), o)
    requires i < |cs| && Anchors(sc, cs[i])
    ensures Replace(sc, w, cs, o, previous).revision > w.revision
  {
    AnchorIsDeferred(sc, cs, i);
    var j :| 0 <= j < |Deferred(sc, cs)| && Deferred(sc, cs)[j] == cs[i];
    var k := |Immediate(sc, cs)| + j;
    assert Reordered(sc, cs)[k] == cs[i];
    NovelOutputMoves(sc, w, cs, o, previous, k);
  }
}
