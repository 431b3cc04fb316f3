/** Who holds a memo table, how an entry is lost, and what interferes with a phase, over every run. */
module TableHolders {
  import opened Ids
  import opened World
  import opened Queries
  import opened Joins
  import opened Planners
  import opened Coverage
  import opened Admission
  import opened Phases
  import opened RemovedLists
  import opened PhaseProofs
  import opened CommitProofs
  import opened OutsideSteps
  import opened LoopSteps
  import opened EngineRuns
  import O = Output

  // ---- how an entry is lost ----

  /** The step drops a table with an entry of `o`, or overwrites one by a table without it. */
  predicate Loses(g: Engine, ev: Event, o: Owner) {
    match ev
    case Lose => o in g.memo
    case Cancel(id) => id in g.tasks && o in g.tasks[id].memo
    case Publish => o in Overwritten(g.store, g.memo)
    case PutBack(id) => id in g.tasks && o in Overwritten(g.store, g.tasks[id].memo)
    case _ => false
  }

  /** Steps that end an invocation's time as an orphan: its run returned, or every planner was reset. */
  predicate Readmits(ev: Event, o: Owner) {
    ev.Restart? || ev.Abandon? || (ev.Return? && ev.o == o)
  }

  /** What one step does to the orphans: it makes one only by losing its entry, and keeps none that it readmits. */
  ghost predicate OrphansMove(g: Engine, ev: Event, h: Engine) {
    forall o :: o in h.orphans ==> !Readmits(ev, o) && (o in g.orphans || Loses(g, ev, o))
  }

  // ---- what a step does to the history, and to the tables' holders ----

  /** `boundary_reached`, as the phase machine sees it: no generation runs a phase, or its preemption window is open. */
  predicate AtBoundary(g: Engine) {
    g.phase.None? || (g.draining && g.flights == map[])
  }

  /**
   A step from outside that waits for a boundary, or cannot disturb a phase: a move of no counter (an entity allocation,
   a running writer's poke), or a healing that finds the table taken.
   */
  predicate Waits(g: Engine, ev: Event) {
    && (ev.Move? ==> AtBoundary(g) || !CountersMoved(g.world, ev.w))
    && (ev.SettleReturn? || ev.HookReturn? ==> AtBoundary(g))
    && (ev.Heal? ==> AtBoundary(g) || g.store == map[])
  }

  /** Interference, if there has been any, came at a boundary. */
  predicate Undisturbed(g: Engine) {
    g.interfered ==> g.phase.None? || g.draining
  }

  /** A generation starts, or a settle takes the table, only while nobody else holds one. */
  predicate Alone(g: Engine, ev: Event) {
    ev.Start? || ev.Take? ==> !g.running && g.tasks == map[]
  }

  /** Then at most one table is out at a time, and the bowl's is empty until it is back. */
  ghost predicate OneHolder(g: Engine) {
    && (g.running ==> g.tasks == map[])
    && (forall id, other :: id in g.tasks && other in g.tasks ==> id == other)
    && (g.running || g.tasks != map[] ==> g.store == map[])
  }

  /** Who holds a table after a step, and whether the bowl's can be anything but empty. */
  ghost predicate HandsMove(g: Engine, ev: Event, h: Engine) {
    && h.running == (ev.Start? || (g.running && !ev.Publish? && !ev.Abandon? && !ev.Lose?))
    && h.tasks.Keys == (if ev.Take? then g.tasks.Keys + {ev.id} else if ev.PutBack? || ev.Cancel? then g.tasks.Keys - {ev.id} else g.tasks.Keys)
    && (h.store != map[] ==> ev.Publish? || ev.Abandon? || ev.PutBack? || (!ev.Start? && !ev.Take? && g.store != map[]))
  }

  ghost predicate Bookkeeps(g: Engine, ev: Event, h: Engine) {
    OrphansMove(g, ev, h) && HandsMove(g, ev, h) && (Undisturbed(g) && Waits(g, ev) ==> Undisturbed(h))
  }

  /** Tables are delivered by who holds one, and put back or dropped while held. */
  predicate HandsFit(g: Engine, ev: Event) {
    (ev.Publish? || ev.Abandon? ==> g.running) && (ev.PutBack? || ev.Cancel? ==> ev.id in g.tasks)
  }

  lemma HandsKeepOneHolder(g: Engine, ev: Event, h: Engine)
    requires OneHolder(g) && Alone(g, ev) && HandsMove(g, ev, h)
    requires HandsFit(g, ev)
    ensures OneHolder(h)
  {
    assert g.tasks == map[] <==> g.tasks.Keys == {};
    assert h.tasks == map[] <==> h.tasks.Keys == {};
  }

  lemma StepBookkeeps(sc: Schema, shapes: seq<Shape>, g: Engine, ev: Event)
    requires Fits(shapes, g, ev)
    ensures Bookkeeps(g, ev, Step(sc, shapes, g, ev))
  {
    match ev
    case PlanSystem => PlanSystemBookkeeps(sc, shapes, g);
    case Return(o, cs, previous) => ReturnBookkeeps(sc, shapes, g, o, cs, previous);
    case Heal(owners) => HealBookkeeps(sc, shapes, g, owners);
    case SettleReturn(id, o, cs, previous) => SettleBookkeeps(sc, shapes, g, id, o, cs, previous);
    case HookReturn(id, o, cs, previous) => HookBookkeeps(sc, shapes, g, id, o, cs, previous);
    case _ => LightStepBookkeeps(sc, shapes, g, ev);
  }

  ghost predicate Bookkept(states: seq<Engine>, events: seq<Event>) {
    && |states| == |events| + 1
    && forall k :: 0 <= k < |events| ==> Bookkeeps(states[k], events[k], states[k + 1]) && HandsFit(states[k], events[k])
  }

  lemma RunBookkeeps(sc: Schema, shapes: seq<Shape>, states: seq<Engine>, events: seq<Event>)
    requires Run(sc, shapes, states, events)
    ensures Bookkept(states, events)
  {
    forall k | 0 <= k < |events| ensures Bookkeeps(states[k], events[k], states[k + 1]) && HandsFit(states[k], events[k]) {
      RunStepBookkeeps(sc, shapes, states, events, k);
    }
  }

  lemma RunStepBookkeeps(sc: Schema, shapes: seq<Shape>, states: seq<Engine>, events: seq<Event>, k: nat)
    requires Run(sc, shapes, states, events) && k < |events|
    ensures Bookkeeps(states[k], events[k], states[k + 1]) && HandsFit(states[k], events[k])
  {
    StepOfRun(sc, shapes, states, events, k);
    TakesBookkeeps(sc, shapes, states[k], events[k], states[k + 1]);
  }

  lemma TakesBookkeeps(sc: Schema, shapes: seq<Shape>, g: Engine, ev: Event, h: Engine)
    requires Takes(sc, shapes, g, ev, h)
    ensures Bookkeeps(g, ev, h) && HandsFit(g, ev)
  {
    StepBookkeeps(sc, shapes, g, ev);
  }

  lemma LightStepBookkeeps(sc: Schema, shapes: seq<Shape>, g: Engine, ev: Event)
    requires Fits(shapes, g, ev) && !ev.PlanSystem? && !ev.Return? && !ev.Heal? && !ev.SettleReturn? && !ev.HookReturn?
    ensures Bookkeeps(g, ev, Step(sc, shapes, g, ev))
  {
    if Outside(ev) { OutsideStepBookkeeps(sc, shapes, g, ev); } else { LoopStepBookkeeps(sc, shapes, g, ev); }
  }

  lemma OutsideStepBookkeeps(sc: Schema, shapes: seq<Shape>, g: Engine, ev: Event)
    requires Fits(shapes, g, ev) && (ev.Move? || ev.Take? || ev.Launch? || ev.PutBack? || ev.Cancel?)
    ensures Bookkeeps(g, ev, Step(sc, shapes, g, ev))
  {}

  lemma LoopStepBookkeeps(sc: Schema, shapes: seq<Shape>, g: Engine, ev: Event)
    requires Fits(shapes, g, ev) && !Outside(ev) && !ev.PlanSystem? && !ev.Return?
    ensures Bookkeeps(g, ev, Step(sc, shapes, g, ev))
  {}

  lemma PlanSystemBookkeeps(sc: Schema, shapes: seq<Shape>, g: Engine)
    requires Fits(shapes, g, PlanSystem)
    ensures Bookkeeps(g, PlanSystem, PlanNext(sc, shapes, g))
  {
    PassedFrame(g, Outcome(sc, shapes, g));
  }

  lemma ReturnBookkeeps(sc: Schema, shapes: seq<Shape>, g: Engine, o: Owner, cs: seq<O.Command>, previous: seq<(TypeId, Entity)>)
    requires Fits(shapes, g, Return(o, cs, previous))
    ensures Bookkeeps(g, Return(o, cs, previous), Finish(sc, shapes, g, o, cs, previous))
  {
    FinishFrame(sc, shapes, g, o, cs, previous);
    FinishedBookkeeps(g, Return(o, cs, previous), Finish(sc, shapes, g, o, cs, previous));
  }

  lemma FinishedBookkeeps(g: Engine, ev: Event, h: Engine)
    requires ev.Return? && h.running == g.running && h.tasks == g.tasks && h.store == g.store && h.phase == g.phase
    requires h.draining == g.draining && h.interfered == g.interfered && h.orphans == g.orphans - {ev.o}
    ensures Bookkeeps(g, ev, h)
  {}

  lemma HealBookkeeps(sc: Schema, shapes: seq<Shape>, g: Engine, owners: seq<Owner>)
    requires Fits(shapes, g, Heal(owners))
    ensures Bookkeeps(g, Heal(owners), Healed(shapes, g, owners))
  {
    HealFrame(shapes, g, owners);
  }

  lemma SettleBookkeeps(sc: Schema, shapes: seq<Shape>, g: Engine, id: nat, o: Owner, cs: seq<O.Command>, previous: seq<(TypeId, Entity)>)
    requires Fits(shapes, g, SettleReturn(id, o, cs, previous))
    ensures Bookkeeps(g, SettleReturn(id, o, cs, previous), SettleFinish(sc, shapes, g, id, o, cs, previous))
  {
    SettleFrame(sc, shapes, g, id, o, cs, previous);
    TaskBookkeeps(g, SettleReturn(id, o, cs, previous), SettleFinish(sc, shapes, g, id, o, cs, previous));
  }

  lemma TaskBookkeeps(g: Engine, ev: Event, h: Engine)
    requires (ev.SettleReturn? || ev.HookReturn?) && ev.id in g.tasks && ev.id in h.tasks
    requires h == g.(world := h.world, planners := h.planners, tasks := g.tasks[ev.id := h.tasks[ev.id]], interfered := h.interfered)
    ensures Bookkeeps(g, ev, h)
  {}

  lemma HookBookkeeps(sc: Schema, shapes: seq<Shape>, g: Engine, id: nat, o: Owner, cs: seq<O.Command>, previous: seq<(TypeId, Entity)>)
    requires Fits(shapes, g, HookReturn(id, o, cs, previous))
    ensures Bookkeeps(g, HookReturn(id, o, cs, previous), HookFinish(sc, shapes, g, id, o, cs, previous))
  {
    var w := O.Replace(sc, g.world, cs, o, previous);
    TaskCommitFrame(shapes, g, id, w, g.tasks[id].memo, g.tasks[id].flights);
    TaskBookkeeps(g, HookReturn(id, o, cs, previous), TaskCommits(shapes, g, id, w, g.tasks[id].memo, g.tasks[id].flights));
  }

  /** An orphan's entry was dropped or overwritten earlier, and nothing has readmitted it since. */
  lemma OrphanWasLost(sc: Schema, shapes: seq<Shape>, states: seq<Engine>, events: seq<Event>, k: nat, o: Owner) returns (m: nat)
    requires Run(sc, shapes, states, events) && k <= |events| && o in states[k].orphans
    ensures m < k && Loses(states[m], events[m], o) && forall n :: m < n < k ==> !Readmits(events[n], o)
  {
    RunBookkeeps(sc, shapes, states, events);
    m := OrphanTraced(states, events, k, o);
  }

  lemma {:induction false} OrphanTraced(states: seq<Engine>, events: seq<Event>, k: nat, o: Owner) returns (m: nat)
    requires Bookkept(states, events) && states[0].orphans == {} && k <= |events| && o in states[k].orphans
    ensures m < k && Loses(states[m], events[m], o) && forall n :: m < n < k ==> !Readmits(events[n], o)
  {
    m := k - 1;
    assert Bookkeeps(states[m], events[m], states[m + 1]);
    if o in states[m].orphans { m := OrphanTraced(states, events, k - 1, o); }
  }

  // ---- over a run ----

  lemma AloneRuns(sc: Schema, shapes: seq<Shape>, states: seq<Engine>, events: seq<Event>, k: nat)
    requires Run(sc, shapes, states, events) && k <= |events| && forall m :: 0 <= m < k ==> Alone(states[m], events[m])
    ensures OneHolder(states[k])
  {
    RunBookkeeps(sc, shapes, states, events);
    HoldersTraced(states, events, k);
  }

  lemma {:induction false} HoldersTraced(states: seq<Engine>, events: seq<Event>, k: nat)
    requires Bookkept(states, events) && k <= |events| && OneHolder(states[0]) && forall m :: 0 <= m < k ==> Alone(states[m], events[m])
    ensures OneHolder(states[k])
  {
    if k > 0 {
      HoldersTraced(states, events, k - 1);
      assert Bookkeeps(states[k - 1], events[k - 1], states[k - 1 + 1]);
      HandsKeepOneHolder(states[k - 1], events[k - 1], states[k]);
    }
  }

  /** A table goes back into the shared state. */
  predicate Delivers(ev: Event) {
    ev.Publish? || ev.Abandon? || ev.PutBack?
  }

  predicate NoneDelivered(events: seq<Event>, m: nat, k: nat)
    requires k <= |events|
  {
    forall n :: m < n < k ==> !Delivers(events[n])
  }

  /** Taking a table leaves the shared one empty, and it stays so until somebody delivers one. */
  lemma {:induction false} EmptyUntilDelivered(states: seq<Engine>, events: seq<Event>, m: nat, k: nat)
    requires Bookkept(states, events) && m < k <= |events| && (events[m].Take? || events[m].Start?) && NoneDelivered(events, m, k)
    ensures states[k].store == map[]
    decreases k
  {
    assert Bookkeeps(states[k - 1], events[k - 1], states[k - 1 + 1]);
    if k - 1 > m { EmptyUntilDelivered(states, events, m, k - 1); }
  }

  /** The taking that a delivery answers. */
  predicate Answers(delivery: Event, taking: Event) {
    (delivery.Publish? && taking.Start?) || (delivery.PutBack? && taking.Take? && taking.id == delivery.id)
  }

  /** An entry that a delivery overwrites was delivered by somebody else since the table was taken. */
  lemma OverwritingNeedsDelivery(sc: Schema, shapes: seq<Shape>, states: seq<Engine>, events: seq<Event>, m: nat, k: nat, o: Owner)
    returns (n: nat)
    requires Run(sc, shapes, states, events) && m < k < |events| && Answers(events[k], events[m]) && Loses(states[k], events[k], o)
    ensures m < n < k && Delivers(events[n])
  {
    RunBookkeeps(sc, shapes, states, events);
    if NoneDelivered(events, m, k) {
      EmptyUntilDelivered(states, events, m, k);
      assert false;
    }
    n :| m < n < k && Delivers(events[n]);
  }

  lemma WaitingNeverInterferes(sc: Schema, shapes: seq<Shape>, states: seq<Engine>, events: seq<Event>, k: nat)
    requires Run(sc, shapes, states, events) && k <= |events|
    requires forall m :: 0 <= m < k ==> Waits(states[m], events[m])
    ensures Undisturbed(states[k])
  {
    RunBookkeeps(sc, shapes, states, events);
    UndisturbedTraced(states, events, k);
  }

  lemma {:induction false} UndisturbedTraced(states: seq<Engine>, events: seq<Event>, k: nat)
    requires Bookkept(states, events) && k <= |events| && Undisturbed(states[0])
    requires forall m :: 0 <= m < k ==> Waits(states[m], events[m])
    ensures Undisturbed(states[k])
  {
    if k > 0 {
      UndisturbedTraced(states, events, k - 1);
      assert Bookkeeps(states[k - 1], events[k - 1], states[k - 1 + 1]);
    }
  }
}
