/** Runs of the engine from registration on, and the invariant over every run. */
module EngineRuns {
  import opened Ids
  import opened World
  import opened Queries
  import opened Joins
  import opened Planners
  import opened Coverage
  import opened Admission
  import opened Phases
  import opened RemovedLists
  import opened PhaseProofs
  import opened CommitProofs
  import opened OutsideSteps
  import opened LoopSteps
  import opened Walking
  import O = Output

  // ---- every run ----

  /** What a settle, its hooks, or anyone outside the generation does. */
  predicate Outside(ev: Event) {
    ev.Move? || ev.Heal? || ev.Take? || ev.Launch? || ev.SettleReturn? || ev.HookReturn? || ev.PutBack? || ev.Cancel?
  }

  lemma StepKeepsOk(sc: Schema, shapes: seq<Shape>, g: Engine, ev: Event)
    requires Ok(sc, shapes, g) && Enabled(sc, shapes, g, ev)
    ensures Ok(sc, shapes, Step(sc, shapes, g, ev))
  {
    if Outside(ev) {
      OutsideStepKeepsOk(sc, shapes, g, ev);
    } else if ev.Return? {
      ReturnKeepsOk(sc, shapes, g, ev.o, ev.cs, ev.previous);
    } else if ev.BeginWave? || ev.PlanSystem? || ev.EndWave? {
      WaveStepKeepsOk(sc, shapes, g, ev);
    } else if ev.Enter? || ev.Quiet? || ev.Skip? || ev.EndBatch? || ev.Complete? {
      LoopStepKeepsOk(sc, shapes, g, ev);
    } else if ev.Preempt? || ev.Restart? || ev.Abandon? {
      DropKeepsOk(sc, shapes, g, ev);
    } else {
      OwnStepKeepsOk(sc, shapes, g, ev);
    }
  }

  lemma OutsideStepKeepsOk(sc: Schema, shapes: seq<Shape>, g: Engine, ev: Event)
    requires Ok(sc, shapes, g) && Enabled(sc, shapes, g, ev) && Outside(ev)
    ensures Ok(sc, shapes, Step(sc, shapes, g, ev))
  {
    match ev
    case Move(w) => MoveKeepsOk(sc, shapes, g, w);
    case Heal(owners) => HealKeepsOk(sc, shapes, g, owners);
    case Take(id, hooks) => TakeKeepsOk(sc, shapes, g, id, hooks);
    case Launch(id) => LaunchKeepsOk(sc, shapes, g, id);
    case SettleReturn(id, o, cs, previous) => SettleReturnKeepsOk(sc, shapes, g, id, o, cs, previous);
    case HookReturn(id, o, cs, previous) => HookReturnKeepsOk(sc, shapes, g, id, o, cs, previous);
    case PutBack(id) => PutBackKeepsOk(sc, shapes, g, id);
    case Cancel(id) => CancelKeepsOk(sc, shapes, g, id);
  }

  lemma OwnStepKeepsOk(sc: Schema, shapes: seq<Shape>, g: Engine, ev: Event)
    requires Ok(sc, shapes, g) && Enabled(sc, shapes, g, ev) && (ev.Start? || ev.Compact? || ev.Publish? || ev.Lose?)
    ensures Ok(sc, shapes, Step(sc, shapes, g, ev))
  {
    match ev
    case Start(w) => StartKeepsOk(sc, shapes, g, w);
    case Compact => CompactKeepsOk(sc, shapes, g);
    case Publish => PublishKeepsOk(sc, shapes, g);
    case Lose => LoseKeepsOk(sc, shapes, g);
  }

  lemma ReturnKeepsOk(sc: Schema, shapes: seq<Shape>, g: Engine, o: Owner, cs: seq<O.Command>, previous: seq<(TypeId, Entity)>)
    requires Ok(sc, shapes, g) && g.wave.None? && o in g.flights && MayReturn(sc, g.world, g.phase, o, cs, previous)
    ensures Ok(sc, shapes, Finish(sc, shapes, g, o, cs, previous))
  {
    if Fresh(sc, shapes, g.world, g.flights, o) { AcceptKeepsOk(sc, shapes, g, o, cs, previous); } else { DiscardKeepsOk(sc, shapes, g, o); }
  }

  lemma WaveStepKeepsOk(sc: Schema, shapes: seq<Shape>, g: Engine, ev: Event)
    requires Ok(sc, shapes, g) && Enabled(sc, shapes, g, ev) && (ev.BeginWave? || ev.PlanSystem? || ev.EndWave?)
    ensures Ok(sc, shapes, Step(sc, shapes, g, ev))
  {
    match ev
    case BeginWave => BeginWaveKeepsOk(sc, shapes, g);
    case PlanSystem => PlanSystemIsSafe(sc, shapes, g); PlanSystemIsGated(sc, shapes, g);
    case EndWave => EndWaveKeepsOk(sc, shapes, g);
  }

  /** A bowl whose systems have just been registered over a sound world. */
  ghost predicate Initial(sc: Schema, shapes: seq<Shape>, g: Engine) {
    && sc.Valid() && (forall i :: 0 <= i < |shapes| ==> shapes[i].Valid())
    && Inv(sc, g.world, {})
    && g.world.removedEntities == [] && g.world.removedOwners == [] && g.world.removedComponentOwners == []
    && g == Engine(g.world, seq(|shapes|, _ => FRESH), map[], map[], false, map[], map[], None, None, None,
                   false, false, false, false, false, false, {})
  }

  lemma InitialIsOk(sc: Schema, shapes: seq<Shape>, g: Engine)
    requires Initial(sc, shapes, g)
    ensures Ok(sc, shapes, g)
  {
    ViewsAreWorld(sc, shapes, g);
  }

  /** One step of a run; `Fits` only says that the step function applies, which `Ok` guarantees. */
  ghost predicate Takes(sc: Schema, shapes: seq<Shape>, g: Engine, ev: Event, h: Engine) {
    Fits(shapes, g, ev) && Enabled(sc, shapes, g, ev) && h == Step(sc, shapes, g, ev)
  }

  lemma EnabledTaken(sc: Schema, shapes: seq<Shape>, g: Engine, ev: Event)
    requires Fits(shapes, g, ev) && Enabled(sc, shapes, g, ev)
    ensures Takes(sc, shapes, g, ev, Step(sc, shapes, g, ev))
  {}

  lemma TakesKeepsOk(sc: Schema, shapes: seq<Shape>, g: Engine, ev: Event, h: Engine)
    requires Ok(sc, shapes, g) && Takes(sc, shapes, g, ev, h)
    ensures Ok(sc, shapes, h)
  {
    StepKeepsOk(sc, shapes, g, ev);
  }

  /** A run: from an initial bowl, each state reached from the one before it by an enabled step. */
  ghost predicate Run(sc: Schema, shapes: seq<Shape>, states: seq<Engine>, events: seq<Event>) {
    && |states| == |events| + 1
    && Initial(sc, shapes, states[0])
    && forall k :: 0 <= k < |events| ==> Takes(sc, shapes, states[k], events[k], states[k + 1])
  }

  lemma StepOfRun(sc: Schema, shapes: seq<Shape>, states: seq<Engine>, events: seq<Event>, k: nat)
    requires Run(sc, shapes, states, events) && k < |events|
    ensures Takes(sc, shapes, states[k], events[k], states[k + 1])
  {}

  ghost function Machine(sc: Schema, shapes: seq<Shape>): (Engine, Event, Engine) -> bool {
    (g: Engine, ev: Event, h: Engine) => Takes(sc, shapes, g, ev, h)
  }

  ghost function KeptOk(sc: Schema, shapes: seq<Shape>): Engine -> bool {
    (g: Engine) => Ok(sc, shapes, g)
  }

  lemma RunKeepsOk(sc: Schema, shapes: seq<Shape>, states: seq<Engine>, events: seq<Event>, k: nat)
    requires Run(sc, shapes, states, events) && k <= |events|
    ensures Ok(sc, shapes, states[k])
  {
    InitialIsOk(sc, shapes, states[0]);
    StepsKeepIt(sc, shapes);
    RunWalks(sc, shapes, states, events);
    WalkKeeps(Machine(sc, shapes), KeptOk(sc, shapes), Walk(states, events), states[0], states[|events|], k);
  }

  lemma StepsKeepIt(sc: Schema, shapes: seq<Shape>)
    ensures forall g, ev, h :: KeptOk(sc, shapes)(g) && Machine(sc, shapes)(g, ev, h) ==> KeptOk(sc, shapes)(h)
  {
    forall g, ev, h | KeptOk(sc, shapes)(g) && Machine(sc, shapes)(g, ev, h) ensures KeptOk(sc, shapes)(h) {
      TakesKeepsOk(sc, shapes, g, ev, h);
    }
  }

  lemma RunWalks(sc: Schema, shapes: seq<Shape>, states: seq<Engine>, events: seq<Event>)
    requires Run(sc, shapes, states, events)
    ensures Walks(Machine(sc, shapes), Walk(states, events), states[0], states[|events|])
  {}
}
