/**
 The completing stretch of a settle: heal ambient viewers, run settled hooks, run the settle phase, heal again if it
 removed anything, then publish. An ambient `View` contributes no dependencies, so only this pass keeps a settle from
 publishing output computed from facts that moved afterwards.
 */
module Healing {
  import opened Ids
  import opened World
  import opened Planners

  /** What the healing pass reads of a memo entry: the revision it was planned at and the settle epoch it committed in. */
  datatype Stamped = Stamped(planned: nat, epoch: nat)

  datatype Stage = Evaluating | FirstHeal | Hooks | SettlePhase | SecondHeal | Closing | Published

  /** One settle with a single driver and no writer but its own commits. */
  datatype Settle = Settle(stage: Stage, world: WorldState, memo: map<Owner, Stamped>, epoch: nat, settled: nat)

  /** Some viewed store moved after the entry was planned. */
  predicate Outrun(w: WorldState, sh: Shape, planned: nat) {
    exists i :: 0 <= i < |sh.ambient| && Mark(w, sh.ambient[i]) > planned
  }

  /** A current-epoch entry of a viewer outside the settle phase whose views have moved on. */
  predicate Victim(shapes: seq<Shape>, w: WorldState, memo: map<Owner, Stamped>, epoch: nat, o: Owner) {
    && o in memo && memo[o].epoch == epoch
    && o.system < |shapes| && !shapes[o.system].phase.Settle?
    && Outrun(w, shapes[o.system], memo[o].planned)
  }

  function Victims(shapes: seq<Shape>, s: Settle): set<Owner> {
    set o | o in s.memo && Victim(shapes, s.world, s.memo, s.epoch, o)
  }

  /** Nothing the settle is about to publish was computed from views that moved afterwards. */
  ghost predicate Healed(shapes: seq<Shape>, w: WorldState, memo: map<Owner, Stamped>, epoch: nat) {
    forall o :: !Victim(shapes, w, memo, epoch, o)
  }

  predicate Unmoved(w: WorldState, w': WorldState) {
    w'.revision == w.revision && w'.mutations == w.mutations
  }

  /** Commits that bring no entry of a viewer outside the settle phase; they may retire some. */
  ghost predicate NoNewViewers(shapes: seq<Shape>, memo: map<Owner, Stamped>, memo': map<Owner, Stamped>) {
    forall o :: o in memo' && o.system < |shapes| && !shapes[o.system].phase.Settle? ==> o in memo && memo'[o] == memo[o]
  }

  /** Takes the victims out of the memo and sends the settle back to evaluate; with none, it goes on. */
  function Heal(shapes: seq<Shape>, s: Settle, onward: Stage): Settle {
    if Victims(shapes, s) == {} then s.(stage := onward) else s.(stage := Evaluating, memo := s.memo - Victims(shapes, s))
  }

  /** One stretch between two looks at the shared state. */
  ghost predicate Advances(sc: Schema, shapes: seq<Shape>, s: Settle, t: Settle) {
    match s.stage
    case Evaluating =>
      (t.stage.Evaluating? || t.stage.FirstHeal?) && t.epoch == s.epoch && t.settled == s.settled && Grows(sc, s, t)
    case FirstHeal => t == Heal(shapes, s, Hooks)
    case Hooks =>
      && Grows(sc, s, t) && NoNewViewers(shapes, s.memo, t.memo) && t.epoch == s.epoch && t.settled == s.settled
      && t.stage == if Unmoved(s.world, t.world) then SettlePhase else Evaluating
    case SettlePhase =>
      && Grows(sc, s, t) && NoNewViewers(shapes, s.memo, t.memo) && t.epoch == s.epoch && t.settled == s.settled
      && t.stage == if t.world.revision != s.world.revision then SecondHeal else Closing
    case SecondHeal => t == Heal(shapes, s, Closing) || (Victims(shapes, s) == {} && t == s.(stage := Evaluating))
    case Closing =>
      || t == s.(stage := Evaluating)
      || t == s.(stage := Published, settled := s.world.revision, epoch := if s.settled == s.world.revision then s.epoch else s.epoch + 1)
    case Published => false
  }

  ghost predicate Grows(sc: Schema, s: Settle, t: Settle) {
    RevisionsBounded(t.world) && Evolves(sc, s.world, t.world)
  }

  /** A run of commits that leaves the revision alone leaves every watermark alone. */
  lemma MarksStand(sc: Schema, w: WorldState, w': WorldState)
    requires RevisionsBounded(w') && Evolves(sc, w, w') && w'.revision == w.revision
    ensures forall t :: Mark(w', t) == Mark(w, t)
  {
    forall t ensures Mark(w', t) == Mark(w, t) {
      assert Mark(w', t) <= w'.revision;
      assert Mark(w, t) == Mark(w', t) || Mark(w', t) > w.revision;
    }
  }

  lemma HealedStands(shapes: seq<Shape>, w: WorldState, memo: map<Owner, Stamped>, w': WorldState, memo': map<Owner, Stamped>, epoch: nat)
    requires Healed(shapes, w, memo, epoch) && NoNewViewers(shapes, memo, memo')
    requires forall t :: Mark(w', t) == Mark(w, t)
    ensures Healed(shapes, w', memo', epoch)
  {
    forall o ensures !Victim(shapes, w', memo', epoch, o) {
      if o in memo' && o.system < |shapes| && !shapes[o.system].phase.Settle? {
        assert !Victim(shapes, w, memo, epoch, o);
      }
    }
  }

  /** A viewed store that moved makes every entry planned up to then a victim: the second pass is not redundant. */
  lemma MovedViewMakesVictims(sc: Schema, shapes: seq<Shape>, w: WorldState, w': WorldState, memo: map<Owner, Stamped>, epoch: nat, o: Owner)
    requires Evolves(sc, w, w') && o in memo && memo[o].epoch == epoch && memo[o].planned <= w.revision
    requires o.system < |shapes| && !shapes[o.system].phase.Settle? && !Victim(shapes, w, memo, epoch, o)
    ensures Victim(shapes, w', memo, epoch, o) <==>
              exists i :: 0 <= i < |shapes[o.system].ambient| && Mark(w, shapes[o.system].ambient[i]) != Mark(w', shapes[o.system].ambient[i])
  {
    var views := shapes[o.system].ambient;
    if i :| 0 <= i < |views| && Mark(w, views[i]) != Mark(w', views[i]) {
      assert Mark(w', views[i]) > w.revision;
    }
    if i :| 0 <= i < |views| && Mark(w', views[i]) > memo[o].planned {
      assert !(Mark(w, views[i]) > memo[o].planned);
    }
  }

  /** What each stage has established by the time it is reached. */
  ghost predicate Ok(shapes: seq<Shape>, s: Settle) {
    && RevisionsBounded(s.world)
    && (s.stage.Hooks? || s.stage.SettlePhase? || s.stage.Closing? ==> Healed(shapes, s.world, s.memo, s.epoch))
  }

  lemma AdvanceKeepsOk(sc: Schema, shapes: seq<Shape>, s: Settle, t: Settle)
    requires Ok(shapes, s) && Advances(sc, shapes, s, t)
    ensures Ok(shapes, t)
    ensures t.stage.Published? ==> Healed(shapes, t.world, t.memo, s.epoch)
  {
    if s.stage.FirstHeal? || s.stage.SecondHeal? {
      if Victims(shapes, s) == {} {
        forall o ensures !Victim(shapes, s.world, s.memo, s.epoch, o) {
          assert o !in Victims(shapes, s);
        }
      }
    } else if (s.stage.Hooks? || s.stage.SettlePhase?) && t.world.revision == s.world.revision {
      MarksStand(sc, s.world, t.world);
      HealedStands(shapes, s.world, s.memo, t.world, t.memo, s.epoch);
    }
  }

  /**
   A healing pass leaves nothing that views have outrun: it takes out exactly the entries of this epoch, of viewers outside
   the settle phase, some ambient view of which has moved past the revision they were planned at; and it sends the settle
   back to evaluate exactly when there was one.
   */
  lemma HealTakesExactly(shapes: seq<Shape>, s: Settle, onward: Stage)
    requires !onward.Evaluating?
    ensures var t := Heal(shapes, s, onward);
      && Healed(shapes, t.world, t.memo, t.epoch) && t.world == s.world && t.epoch == s.epoch
      && (forall o :: o in s.memo ==>
            (o !in t.memo <==>
               && s.memo[o].epoch == s.epoch && o.system < |shapes| && !shapes[o.system].phase.Settle?
               && exists v :: v in shapes[o.system].ambient && Mark(s.world, v) > s.memo[o].planned))
      && (forall o :: o in t.memo ==> o in s.memo && t.memo[o] == s.memo[o])
      && (t.stage.Evaluating? <==> exists o :: o in s.memo && o !in t.memo)
      && (!t.stage.Evaluating? ==> t.stage == onward)
  {
    var t := Heal(shapes, s, onward);
    forall o ensures !Victim(shapes, t.world, t.memo, t.epoch, o) {
      if o in t.memo { assert o !in Victims(shapes, s); }
    }
    forall o | o in s.memo ensures o !in t.memo <==> o in Victims(shapes, s) {}
    if Victims(shapes, s) != {} {
      var o :| o in Victims(shapes, s);
      assert o in s.memo && o !in t.memo;
    }
    forall o | o in s.memo && o.system < |shapes|
      ensures Outrun(s.world, shapes[o.system], s.memo[o].planned) <==> exists v :: v in shapes[o.system].ambient && Mark(s.world, v) > s.memo[o].planned
    {
      var views := shapes[o.system].ambient;
      if v :| v in views && Mark(s.world, v) > s.memo[o].planned {
        var i :| 0 <= i < |views| && views[i] == v;
      }
      if i :| 0 <= i < |views| && Mark(s.world, views[i]) > s.memo[o].planned { assert views[i] in views; }
    }
  }

  /**
   A settle that publishes a new revision ends its epoch: whatever moves later, none of the entries published is ever a
   victim of the epoch that begins. One that publishes nothing new goes on in the same epoch.
   */
  lemma PublishingEndsEpoch(sc: Schema, shapes: seq<Shape>, s: Settle, t: Settle, later: WorldState, o: Owner)
    requires Advances(sc, shapes, s, t) && s.stage.Closing? && t.stage.Published?
    requires o in s.memo ==> s.memo[o].epoch <= s.epoch
    ensures t.settled == s.world.revision && t.memo == s.memo
    ensures s.settled != s.world.revision ==> !Victim(shapes, later, t.memo, t.epoch, o)
    ensures s.settled == s.world.revision ==> t.epoch == s.epoch
  {}

  ghost predicate Run(sc: Schema, shapes: seq<Shape>, states: seq<Settle>) {
    && |states| > 0 && states[0].stage.Evaluating? && RevisionsBounded(states[0].world)
    && forall k :: 0 <= k < |states| - 1 ==> Advances(sc, shapes, states[k], states[k + 1])
  }

  lemma {:induction false} RunKeepsOk(sc: Schema, shapes: seq<Shape>, states: seq<Settle>, k: nat)
    requires Run(sc, shapes, states) && k < |states|
    ensures Ok(shapes, states[k])
  {
    if k > 0 {
      RunKeepsOk(sc, shapes, states, k - 1);
      AdvanceKeepsOk(sc, shapes, states[k - 1], states[k]);
    }
  }

  /** Whatever a settle goes through, what it publishes is healed, settle-phase removals included. */
  lemma PublishedIsHealed(sc: Schema, shapes: seq<Shape>, states: seq<Settle>, k: nat)
    requires Run(sc, shapes, states) && 0 < k < |states| && states[k].stage.Published?
    ensures Healed(shapes, states[k].world, states[k].memo, states[k - 1].epoch)
  {
    RunKeepsOk(sc, shapes, states, k - 1);
    AdvanceKeepsOk(sc, shapes, states[k - 1], states[k]);
  }
}
