/**
 The phase loop itself, over the objects it updates: preempt when asked, plan while gates are open, commit what has
 finished, and come back until nothing is left to wait for. It walks the phase machine, and when it reports the phase
 completed, the phase has converged.
 */
module PhaseLoops {
  import opened Ids
  import opened World
  import opened Queries
  import opened Joins
  import opened Planners
  import opened Coverage
  import opened Admission
  import opened Phases
  import opened PhaseProofs
  import opened CommitProofs
  import opened OutsideSteps
  import opened LoopSteps
  import opened EngineRuns
  import opened TableHolders
  import opened NothingMissed
  import opened Running
  import opened Walking
  import O = Output
  import P = InPlace
  import WS = WorldStore

  // ---- walks of the machine ----

  lemma StepWalks(sc: Schema, shapes: seq<Shape>, walk: Walk<Engine, Event>, from: Engine, g: Engine, ev: Event, h: Engine)
    requires Walks(Machine(sc, shapes), walk, from, g) && Takes(sc, shapes, g, ev, h)
    ensures Walks(Machine(sc, shapes), Further(walk, ev, h), from, h)
  {
    WalksFurther(Machine(sc, shapes), walk, from, g, ev, h);
  }

  /** A wave is a stretch of planning steps between its beginning and its end. */
  lemma TrailWalks(sc: Schema, shapes: seq<Shape>, trail: seq<Engine>)
    requires WaveTrail(sc, shapes, trail) && Ok(sc, shapes, trail[0])
    requires trail[0].wave.Some? && trail[0].wave.value.next == 0
    ensures Walks(Machine(sc, shapes), Repeated(trail, PlanSystem), trail[0], trail[|shapes|])
  {
    forall k | 0 <= k < |trail| - 1 ensures Machine(sc, shapes)(trail[k], PlanSystem, trail[k + 1]) {
      TurnTaken(sc, shapes, trail, k);
    }
    RepeatedWalks(Machine(sc, shapes), trail, PlanSystem);
  }

  lemma TurnTaken(sc: Schema, shapes: seq<Shape>, trail: seq<Engine>, k: nat)
    requires WaveTrail(sc, shapes, trail) && k < |shapes| && Ok(sc, shapes, trail[0])
    requires trail[0].wave.Some? && trail[0].wave.value.next == 0
    ensures Machine(sc, shapes)(trail[k], PlanSystem, trail[k + 1])
  {
    TrailKeepsOk(sc, shapes, trail, k);
    assert Succeeds(sc, shapes, trail[k], trail[k + 1]);
    TurnIsStep(sc, shapes, trail[k], trail[k + 1]);
  }

  // ---- the loop ----

  /**
   A lock section of somebody else: a settle takes the table, launches its runs, commits one, puts the table back, or
   heals; or a caller that does not wait for a boundary mutates a component.
   */
  datatype Section =
    | TakeTable(id: nat, hooks: bool)
    | LaunchRuns(id: nat)
    | SettleRun(id: nat, o: Owner, cs: seq<O.Command>)
    | HookRun(id: nat, o: Owner, cs: seq<O.Command>)
    | PutTableBack(id: nat)
    | HealRows(owners: seq<Owner>)
    | Mutate(t: TypeId, e: Entity, v: Value)

  /** Between the commits of a batch, each under a lock of its own, others get their turn. */
  datatype Item = Done(o: Owner, cs: seq<O.Command>) | Between(section: Section)

  /**
   What reaches the loop where it awaits: runs that have finished, a mutator that asks for a boundary and may think
   better of it, or nothing at all while somebody else has the lock.
   */
  datatype Wake = Finished(batch: seq<Item>) | Asked(still: bool) | Meanwhile(section: Section)

  /** `Waiting` is where the wakes given have run out: the driver is still at an await point. */
  datatype PhaseEnd = Completed | Preempted | Waiting

  ghost predicate Writes(sc: Schema, cs: seq<O.Command>) {
    forall k :: 0 <= k < |cs| ==> WS.Writable(sc, cs[k])
  }

  ghost predicate SectionWritable(sc: Schema, section: Section) {
    section.SettleRun? || section.HookRun? ==> Writes(sc, section.cs)
  }

  ghost predicate ItemWritable(sc: Schema, item: Item) {
    if item.Done? then Writes(sc, item.cs) else SectionWritable(sc, item.section)
  }

  ghost predicate BatchWritable(sc: Schema, batch: seq<Item>) {
    forall j :: 0 <= j < |batch| ==> ItemWritable(sc, batch[j])
  }

  ghost predicate AllWritable(sc: Schema, wakes: seq<Wake>) {
    forall i :: 0 <= i < |wakes| ==>
      && (wakes[i].Finished? ==> BatchWritable(sc, wakes[i].batch))
      && (wakes[i].Meanwhile? ==> SectionWritable(sc, wakes[i].section))
  }

  /** The part of the engine that only the loop itself changes. */
  ghost predicate SameLoop(g: Engine, h: Engine) {
    && h.phase == g.phase && h.wave == g.wave && h.needsPlan == g.needsPlan && h.conflicts == g.conflicts
    && h.draining == g.draining && h.running == g.running && (g.interfered ==> h.interfered)
  }

  /** The loop at its head: in the phase, outside a wave, with no finished run unaccounted for. */
  ghost predicate AtHead(g: Engine, ph: Phase) {
    g.running && g.phase == Some(ph) && g.wave.None? && !g.draining && !g.batch && !g.dirty
  }

  /** If it still means to plan, no gate was open when it last looked: one that is now was opened by somebody else. */
  ghost predicate LookedIn(shapes: seq<Shape>, g: Engine) {
    g.needsPlan ==> !g.conflicts && (!g.interfered ==> !AnyOpen(shapes, g))
  }

  lemma WalkedOk(sc: Schema, shapes: seq<Shape>, walk: Walk<Engine, Event>, from: Engine, g: Engine)
    requires Ok(sc, shapes, from) && Walks(Machine(sc, shapes), walk, from, g)
    ensures Ok(sc, shapes, g)
  {
    var machine, sound := Machine(sc, shapes), KeptOk(sc, shapes);
    StepsKeepIt(sc, shapes);
    WalkKeeps(machine, sound, walk, from, g, |walk.events|);
    assert sound(g);
  }

  // ---- other people's lock sections ----

  lemma StillLookedIn(shapes: seq<Shape>, g: Engine, h: Engine)
    requires LeavesAlone(g, h) && LookedIn(shapes, g) && |g.planners| == |shapes|
    ensures LookedIn(shapes, h)
  {
    if h.needsPlan && !h.interfered {
      forall i | 0 <= i < |shapes| ensures Gate(shapes, h, i, h.world) == Gate(shapes, g, i, g.world) {
        GateUnmoved(shapes[i], g.planners[i], g.world, h.world);
      }
    }
  }

  lemma TakenAlone(sc: Schema, shapes: seq<Shape>, g: Engine, id: nat, hooks: bool)
    requires Ok(sc, shapes, g) && id !in g.tasks && (hooks || HasSettleSystem(shapes))
    ensures Machine(sc, shapes)(g, Take(id, hooks), Taken(g, id, hooks)) && LeavesAlone(g, Taken(g, id, hooks))
  {
    SameIsSame(g.world);
    OkFits(sc, shapes, g);
    EnabledTaken(sc, shapes, g, Take(id, hooks));
  }

  lemma LaunchedAlone(sc: Schema, shapes: seq<Shape>, g: Engine, id: nat)
    requires Ok(sc, shapes, g) && id in g.tasks && !g.tasks[id].hooks && !g.tasks[id].launched
    ensures Machine(sc, shapes)(g, Launch(id), Launched(sc, shapes, g, id)) && LeavesAlone(g, Launched(sc, shapes, g, id))
  {
    SameIsSame(g.world);
    OkFits(sc, shapes, g);
    EnabledTaken(sc, shapes, g, Launch(id));
    LaunchFrame(sc, shapes, g, id);
  }

  lemma LaunchFrame(sc: Schema, shapes: seq<Shape>, g: Engine, id: nat)
    requires id in g.tasks && forall i :: 0 <= i < |shapes| ==> shapes[i].Valid()
    ensures var h := Launched(sc, shapes, g, id); h == g.(tasks := h.tasks, cache := h.cache)
  {}

  lemma RestoredAlone(sc: Schema, shapes: seq<Shape>, g: Engine, id: nat)
    requires Ok(sc, shapes, g) && id in g.tasks && (g.tasks[id].hooks || g.tasks[id].launched) && g.tasks[id].flights == map[]
    ensures Machine(sc, shapes)(g, PutBack(id), Restored(g, id)) && LeavesAlone(g, Restored(g, id))
  {
    SameIsSame(g.world);
    OkFits(sc, shapes, g);
    EnabledTaken(sc, shapes, g, PutBack(id));
  }

  lemma HealedAlone(sc: Schema, shapes: seq<Shape>, g: Engine, owners: seq<Owner>)
    requires Ok(sc, shapes, g)
    ensures Machine(sc, shapes)(g, Heal(owners), Healed(shapes, g, owners)) && LeavesAlone(g, Healed(shapes, g, owners))
  {
    SameIsSame(g.world);
    OkFits(sc, shapes, g);
    EnabledTaken(sc, shapes, g, Heal(owners));
    RetireFrame(shapes, g.planners, g.store, owners);
  }

  lemma OkFits(sc: Schema, shapes: seq<Shape>, g: Engine)
    requires Ok(sc, shapes, g)
    ensures |g.planners| == |shapes| && Shaped(shapes, g.flights.Keys) && AllValid(shapes)
  {}

  lemma SettledAlone(sc: Schema, shapes: seq<Shape>, g: Engine, id: nat, o: Owner, done: seq<O.Command>, order: seq<(TypeId, Entity)>)
    requires Ok(sc, shapes, g) && id in g.tasks && o in g.tasks[id].flights && MayReturn(sc, g.world, Some(Settle), o, done, order)
    ensures var h := SettleFinish(sc, shapes, g, id, o, done, order);
      Machine(sc, shapes)(g, SettleReturn(id, o, done, order), h) && LeavesAlone(g, h)
  {
    OkFits(sc, shapes, g);
    SettledTaken(sc, shapes, g, id, o, done, order);
    if Fresh(sc, shapes, g.world, g.tasks[id].flights, o) {
      FreshSettleAlone(sc, shapes, g, id, o, done, order);
    } else {
      StaleSettleAlone(sc, shapes, g, id, o, done, order);
    }
  }

  lemma FreshSettleAlone(sc: Schema, shapes: seq<Shape>, g: Engine, id: nat, o: Owner, done: seq<O.Command>, order: seq<(TypeId, Entity)>)
    requires Grounded(sc, shapes, g) && id in g.tasks && o in g.tasks[id].flights && MayReturn(sc, g.world, Some(Settle), o, done, order)
    requires Fresh(sc, shapes, g.world, g.tasks[id].flights, o)
    ensures LeavesAlone(g, SettleFinish(sc, shapes, g, id, o, done, order))
  {
    var task := g.tasks[id];
    var w := Published(sc, shapes, g.world, Some(Settle), o, done, order);
    var entry := Refreshed(w, DepsAt(sc, shapes, task.flights[o], o), WrittenBy(shapes, o));
    PublishedEvolves(sc, shapes, g.world, Some(Settle), o, done, order);
    TaskCommitAlone(sc, shapes, g, id, w, task.memo[o := entry], task.flights - {o});
  }

  lemma StaleSettleAlone(sc: Schema, shapes: seq<Shape>, g: Engine, id: nat, o: Owner, done: seq<O.Command>, order: seq<(TypeId, Entity)>)
    requires Grounded(sc, shapes, g) && id in g.tasks && o in g.tasks[id].flights && !Fresh(sc, shapes, g.world, g.tasks[id].flights, o)
    ensures LeavesAlone(g, SettleFinish(sc, shapes, g, id, o, done, order))
  {
    P.ReconcileAllKeepsInv(sc, g.world, WrittenBy(shapes, o), {});
  }

  lemma SettledTaken(sc: Schema, shapes: seq<Shape>, g: Engine, id: nat, o: Owner, done: seq<O.Command>, order: seq<(TypeId, Entity)>)
    requires Fits(shapes, g, SettleReturn(id, o, done, order)) && MayReturn(sc, g.world, Some(Settle), o, done, order)
    ensures Takes(sc, shapes, g, SettleReturn(id, o, done, order), SettleFinish(sc, shapes, g, id, o, done, order))
  {
    assert Enabled(sc, shapes, g, SettleReturn(id, o, done, order));
    SettleStep(sc, shapes, g, id, o, done, order);
  }

  lemma SettleStep(sc: Schema, shapes: seq<Shape>, g: Engine, id: nat, o: Owner, done: seq<O.Command>, order: seq<(TypeId, Entity)>)
    requires Fits(shapes, g, SettleReturn(id, o, done, order))
    ensures Step(sc, shapes, g, SettleReturn(id, o, done, order)) == SettleFinish(sc, shapes, g, id, o, done, order)
  {}

  lemma HookedAlone(sc: Schema, shapes: seq<Shape>, g: Engine, id: nat, o: Owner, done: seq<O.Command>, order: seq<(TypeId, Entity)>)
    requires Ok(sc, shapes, g) && id in g.tasks && g.tasks[id].hooks && o.keys == [] && MayReturn(sc, g.world, None, o, done, order)
    ensures var h := HookFinish(sc, shapes, g, id, o, done, order);
      Machine(sc, shapes)(g, HookReturn(id, o, done, order), h) && LeavesAlone(g, h)
  {
    OkFits(sc, shapes, g);
    HookedTaken(sc, shapes, g, id, o, done, order);
    assert Kept(None, done) == done;
    ReplacedEvolves(sc, g.world, None, o, done, order);
    TaskCommitAlone(sc, shapes, g, id, O.Replace(sc, g.world, done, o, order), g.tasks[id].memo, g.tasks[id].flights);
  }

  lemma HookedTaken(sc: Schema, shapes: seq<Shape>, g: Engine, id: nat, o: Owner, done: seq<O.Command>, order: seq<(TypeId, Entity)>)
    requires Fits(shapes, g, HookReturn(id, o, done, order)) && g.tasks[id].hooks && o.keys == []
    requires MayReturn(sc, g.world, None, o, done, order)
    ensures Takes(sc, shapes, g, HookReturn(id, o, done, order), HookFinish(sc, shapes, g, id, o, done, order))
  {
    assert Enabled(sc, shapes, g, HookReturn(id, o, done, order));
    HookStep(sc, shapes, g, id, o, done, order);
  }

  lemma HookStep(sc: Schema, shapes: seq<Shape>, g: Engine, id: nat, o: Owner, done: seq<O.Command>, order: seq<(TypeId, Entity)>)
    requires Fits(shapes, g, HookReturn(id, o, done, order))
    ensures Step(sc, shapes, g, HookReturn(id, o, done, order)) == HookFinish(sc, shapes, g, id, o, done, order)
  {}

  lemma MutatedAlone(sc: Schema, shapes: seq<Shape>, g: Engine, t: TypeId, e: Entity, v: Value)
    requires Ok(sc, shapes, g) && (Has(g.world, t, e) ==> P.KeepsLinks(Lookup(g.world, t, e).value.value, v))
    ensures var w := P.Update(sc, g.world, t, e, v); Machine(sc, shapes)(g, Move(w), Drifted(g, w)) && LeavesAlone(g, Drifted(g, w))
  {
    OkFits(sc, shapes, g);
    P.UpdateKeepsInv(sc, g.world, t, e, v, {});
    EnabledTaken(sc, shapes, g, Move(P.Update(sc, g.world, t, e, v)));
  }

  lemma HookMayReturn(sc: Schema, w: WorldState, o: Owner, done: seq<O.Command>, order: seq<(TypeId, Entity)>)
    requires O.Lists(order, O.Outputs(w, o)) && O.LegalSteps(sc, O.Take(w, o), O.Reordered(sc, done), o)
    ensures MayReturn(sc, w, None, o, done, order)
  {
    assert Kept(None, done) == done;
  }

  /** One section, if it applies where it falls. */
  method Visit(r: PhaseRunner, section: Section, ghost from: Engine, ghost walk: Walk<Engine, Event>)
    returns (ghost longer: Walk<Engine, Event>)
    requires r.Wired() && Ok(r.world.schema, r.shapes, from) && Walks(Machine(r.world.schema, r.shapes), walk, from, r.View())
    requires SectionWritable(r.world.schema, section)
    modifies r, r.world, r.systems
    ensures r.Wired() && Walks(Machine(r.world.schema, r.shapes), longer, from, r.View())
    ensures LeavesAlone(old(r.View()), r.View())
  {
    ghost var g := r.View();
    WalkedOk(r.world.schema, r.shapes, walk, from, g);
    longer := walk;
    ghost var ev: Option<Event> := None;
    if section.SettleRun? {
      ev := VisitRun(r, section);
    } else if section.HookRun? {
      ev := VisitHook(r, section);
    } else if section.Mutate? {
      ev := VisitMutation(r, section);
    } else {
      ev := VisitTable(r, section);
    }
    if ev.Some? {
      WalksFurther(Machine(r.world.schema, r.shapes), walk, from, g, ev.value, r.View());
      longer := Further(walk, ev.value, r.View());
    } else {
      SameIsSame(g.world);
    }
  }

  /** A section that moves a table, and the step of the machine it is. */
  method VisitTable(r: PhaseRunner, section: Section) returns (ghost ev: Option<Event>)
    requires r.Wired() && Ok(r.world.schema, r.shapes, r.View()) && !section.SettleRun? && !section.HookRun? && !section.Mutate?
    modifies r`store, r`tasks, r`cache, r`orphans, r`interfered, r.systems
    ensures r.Wired()
    ensures if ev.Some? then Machine(r.world.schema, r.shapes)(old(r.View()), ev.value, r.View()) && LeavesAlone(old(r.View()), r.View())
            else r.View() == old(r.View())
  {
    ghost var g := r.View();
    ev := None;
    match section {
      case TakeTable(id, hooks) =>
        if id !in r.tasks && (hooks || HasSettleSystem(r.shapes)) {
          TakenAlone(r.world.schema, r.shapes, g, id, hooks);
          r.TakeTable(id, hooks);
          ev := Some(Take(id, hooks));
        }
      case LaunchRuns(id) =>
        if id in r.tasks && !r.tasks[id].hooks && !r.tasks[id].launched {
          LaunchedAlone(r.world.schema, r.shapes, g, id);
          r.LaunchRuns(id);
          ev := Some(Launch(id));
        }
      case PutTableBack(id) =>
        if id in r.tasks && (r.tasks[id].hooks || r.tasks[id].launched) && r.tasks[id].flights == map[] {
          RestoredAlone(r.world.schema, r.shapes, g, id);
          r.PutTableBack(id);
          ev := Some(PutBack(id));
        }
      case HealRows(owners) =>
        HealedAlone(r.world.schema, r.shapes, g, owners);
        r.HealRows(owners);
        ev := Some(Heal(owners));
    }
  }

  /** A section that commits a settle's run. */
  method VisitRun(r: PhaseRunner, section: Section) returns (ghost ev: Option<Event>)
    requires r.Wired() && Ok(r.world.schema, r.shapes, r.View()) && section.SettleRun? && SectionWritable(r.world.schema, section)
    modifies r`tasks, r`interfered, r.world, r.systems
    ensures r.Wired()
    ensures if ev.Some? then Machine(r.world.schema, r.shapes)(old(r.View()), ev.value, r.View()) && LeavesAlone(old(r.View()), r.View())
            else r.View() == old(r.View())
  {
    ghost var g := r.View();
    var id, o := section.id, section.o;
    ev := None;
    if id in r.tasks && o in r.tasks[id].flights {
      ghost var done, order := r.CommitSettled(id, o, section.cs);
      SettledAlone(r.world.schema, r.shapes, g, id, o, done, order);
      ev := Some(SettleReturn(id, o, done, order));
    }
  }

  method VisitHook(r: PhaseRunner, section: Section) returns (ghost ev: Option<Event>)
    requires r.Wired() && Ok(r.world.schema, r.shapes, r.View()) && section.HookRun? && SectionWritable(r.world.schema, section)
    modifies r`tasks, r`interfered, r.world, r.systems
    ensures r.Wired()
    ensures if ev.Some? then Machine(r.world.schema, r.shapes)(old(r.View()), ev.value, r.View()) && LeavesAlone(old(r.View()), r.View())
            else r.View() == old(r.View())
  {
    ghost var g := r.View();
    var id, o := section.id, section.o;
    ev := None;
    if id in r.tasks && r.tasks[id].hooks && o.keys == [] {
      ghost var done, order := r.CommitHook(id, o, section.cs);
      HookMayReturn(r.world.schema, g.world, o, done, order);
      HookedAlone(r.world.schema, r.shapes, g, id, o, done, order);
      ev := Some(HookReturn(id, o, done, order));
    }
  }

  /** Writing in place keeps a value's edge and member list; one that would not is no mutation of the source's. */
  method VisitMutation(r: PhaseRunner, section: Section) returns (ghost ev: Option<Event>)
    requires r.Wired() && Ok(r.world.schema, r.shapes, r.View()) && section.Mutate?
    modifies r`interfered, r.world
    ensures r.Wired()
    ensures if ev.Some? then Machine(r.world.schema, r.shapes)(old(r.View()), ev.value, r.View()) && LeavesAlone(old(r.View()), r.View())
            else r.View() == old(r.View())
  {
    ghost var g := r.View();
    var entry := Lookup(r.world.State(), section.t, section.e);
    ev := None;
    if entry.Some? && P.KeepsLinks(entry.value.value, section.v) {
      MutatedAlone(r.world.schema, r.shapes, g, section.t, section.e, section.v);
      r.Mutate(section.t, section.e, section.v);
      ev := Some(Move(P.Update(r.world.schema, g.world, section.t, section.e, section.v)));
    }
  }

  // ---- committing what has finished ----

  lemma CommitWalks(sc: Schema, shapes: seq<Shape>, walk: Walk<Engine, Event>, from: Engine, g: Engine, o: Owner,
                    done: seq<O.Command>, order: seq<(TypeId, Entity)>)
    requires Ok(sc, shapes, g) && Walks(Machine(sc, shapes), walk, from, g) && g.wave.None? && o in g.flights
    requires O.Lists(order, O.Outputs(g.world, o)) && O.LegalSteps(sc, O.Take(g.world, o), O.Reordered(sc, Kept(g.phase, done)), o)
    ensures var h := Finish(sc, shapes, g, o, done, order);
      Walks(Machine(sc, shapes), Further(walk, Return(o, done, order), h), from, h)
  {
    CommitIsStep(sc, shapes, g, o, done, order);
    StepWalks(sc, shapes, walk, from, g, Return(o, done, order), Finish(sc, shapes, g, o, done, order));
  }

  lemma FinishedLoop(sc: Schema, shapes: seq<Shape>, g: Engine, o: Owner, done: seq<O.Command>, order: seq<(TypeId, Entity)>)
    requires o in g.flights && |g.planners| == |shapes|
    ensures var h := Finish(sc, shapes, g, o, done, order); SameLoop(g, h) && h.batch
  {
    FinishFrame(sc, shapes, g, o, done, order);
  }

  /** Runs accounted for so far stay so. */
  ghost predicate Counting(g: Engine, h: Engine) {
    SameLoop(g, h) && (!h.batch ==> !g.batch && h.dirty == g.dirty)
  }

  /** Everything that has finished, in the order it is found; a completion belongs to an active invocation. */
  method CommitBatch(r: PhaseRunner, batch: seq<Item>, ghost from: Engine, ghost walk: Walk<Engine, Event>)
    returns (ghost longer: Walk<Engine, Event>)
    requires r.Wired() && r.wave.None? && Ok(r.world.schema, r.shapes, from)
    requires Walks(Machine(r.world.schema, r.shapes), walk, from, r.View()) && BatchWritable(r.world.schema, batch)
    modifies r, r.world, r.systems
    ensures r.Wired() && Walks(Machine(r.world.schema, r.shapes), longer, from, r.View()) && Counting(old(r.View()), r.View())
  {
    ghost var start := r.View();
    longer := walk;
    var n := 0;
    while n < |batch|
      invariant 0 <= n <= |batch| && r.Wired() && Counting(start, r.View())
      invariant Walks(Machine(r.world.schema, r.shapes), longer, from, r.View())
    {
      ghost var before := r.View();
      longer := CommitItem(r, batch[n], from, longer);
      CountingOn(start, before, r.View());
      n := n + 1;
    }
  }

  lemma CountingOn(a: Engine, b: Engine, c: Engine)
    requires Counting(a, b) && Counting(b, c)
    ensures Counting(a, c)
  {}

  method CommitItem(r: PhaseRunner, item: Item, ghost from: Engine, ghost walk: Walk<Engine, Event>)
    returns (ghost longer: Walk<Engine, Event>)
    requires r.Wired() && r.wave.None? && Ok(r.world.schema, r.shapes, from)
    requires Walks(Machine(r.world.schema, r.shapes), walk, from, r.View()) && ItemWritable(r.world.schema, item)
    modifies r, r.world, r.systems
    ensures r.Wired() && Walks(Machine(r.world.schema, r.shapes), longer, from, r.View()) && Counting(old(r.View()), r.View())
  {
    longer := walk;
    match item {
      case Done(o, cs) =>
        if o in r.flights {
          longer := CommitOne(r, o, cs, from, longer);
        }
      case Between(section) =>
        ghost var g := r.View();
        longer := Visit(r, section, from, longer);
        AloneCounts(g, r.View());
    }
  }

  lemma AloneCounts(g: Engine, h: Engine)
    requires LeavesAlone(g, h)
    ensures Counting(g, h)
  {}

  method CommitOne(r: PhaseRunner, o: Owner, cs: seq<O.Command>, ghost from: Engine, ghost walk: Walk<Engine, Event>)
    returns (ghost longer: Walk<Engine, Event>)
    requires r.Wired() && r.wave.None? && o in r.flights && Ok(r.world.schema, r.shapes, from)
    requires Walks(Machine(r.world.schema, r.shapes), walk, from, r.View())
    requires Writes(r.world.schema, cs)
    modifies r, r.world, r.systems
    ensures r.Wired() && Walks(Machine(r.world.schema, r.shapes), longer, from, r.View())
    ensures SameLoop(old(r.View()), r.View()) && r.batch
  {
    ghost var g := r.View();
    WalkedOk(r.world.schema, r.shapes, walk, from, g);
    ghost var done, order := r.CommitRun(o, cs);
    CommitWalks(r.world.schema, r.shapes, walk, from, g, o, done, order);
    FinishedLoop(r.world.schema, r.shapes, g, o, done, order);
    longer := Further(walk, Return(o, done, order), r.View());
  }

  // ---- planning ----

  /** What the turns of a wave leave alone. */
  ghost predicate SameButTurns(g: Engine, h: Engine) {
    && h.phase == g.phase && h.draining == g.draining && h.interfered == g.interfered && h.batch == g.batch && h.dirty == g.dirty
    && h.running == g.running
  }

  lemma {:induction false} TrailLoop(sc: Schema, shapes: seq<Shape>, trail: seq<Engine>, k: nat)
    requires WaveTrail(sc, shapes, trail) && k <= |shapes|
    ensures SameButTurns(trail[0], trail[k])
  {
    if k > 0 {
      TrailLoop(sc, shapes, trail, k - 1);
      TurnLoop(sc, shapes, trail, k - 1);
    }
  }

  lemma TurnLoop(sc: Schema, shapes: seq<Shape>, trail: seq<Engine>, k: nat)
    requires WaveTrail(sc, shapes, trail) && k < |shapes|
    ensures SameButTurns(trail[k], trail[k + 1])
  {
    assert Succeeds(sc, shapes, trail[k], trail[k + 1]);
    PassedFrame(trail[k], Outcome(sc, shapes, trail[k]));
  }

  /** A whole wave, from its decision to its end. */
  lemma WaveWalks(sc: Schema, shapes: seq<Shape>, g: Engine, trail: seq<Engine>, ph: Phase) returns (wave: Walk<Engine, Event>)
    requires Ok(sc, shapes, g) && AtHead(g, ph) && Enabled(sc, shapes, g, BeginWave)
    requires WaveTrail(sc, shapes, trail) && trail[0] == Begun(g)
    ensures var h := trail[|shapes|].(wave := None, needsPlan := false);
      Walks(Machine(sc, shapes), wave, g, h) && AtHead(h, ph) && !h.needsPlan
  {
    var last := trail[|shapes|];
    var h := last.(wave := None, needsPlan := false);
    BeganTaken(sc, shapes, g);
    TrailKeepsOk(sc, shapes, trail, |shapes|);
    TrailLoop(sc, shapes, trail, |shapes|);
    EndTaken(sc, shapes, last);
    TrailWalks(sc, shapes, trail);
    wave := Spliced(sc, shapes, g, Repeated(trail, PlanSystem), trail[0], last, h);
  }

  /** The turns of a wave, with its beginning and its end. */
  lemma Spliced(sc: Schema, shapes: seq<Shape>, g: Engine, turns: Walk<Engine, Event>, first: Engine, last: Engine, h: Engine)
    returns (wave: Walk<Engine, Event>)
    requires Machine(sc, shapes)(g, BeginWave, first) && Walks(Machine(sc, shapes), turns, first, last)
    requires Machine(sc, shapes)(last, Event.EndWave, h)
    ensures Walks(Machine(sc, shapes), wave, g, h)
  {
    wave := Walk([g, first], [BeginWave]);
    WalksOn(Machine(sc, shapes), wave, turns, g, first, last);
    wave := Joined(wave, turns);
    WalksFurther(Machine(sc, shapes), wave, g, last, Event.EndWave, h);
    wave := Further(wave, Event.EndWave, h);
  }

  lemma BeganTaken(sc: Schema, shapes: seq<Shape>, g: Engine)
    requires Ok(sc, shapes, g) && Enabled(sc, shapes, g, BeginWave)
    ensures Machine(sc, shapes)(g, BeginWave, Begun(g)) && Ok(sc, shapes, Begun(g))
  {
    OkFits(sc, shapes, g);
    BeginWaveKeepsOk(sc, shapes, g);
    EnabledTaken(sc, shapes, g, BeginWave);
  }

  lemma EndTaken(sc: Schema, shapes: seq<Shape>, g: Engine)
    requires Ok(sc, shapes, g) && g.wave.Some? && g.wave.value.next >= |shapes|
    ensures Machine(sc, shapes)(g, Event.EndWave, g.(wave := None, needsPlan := false))
  {}

  /** A step of the loop's own bookkeeping. */
  lemma LoopStepTaken(sc: Schema, shapes: seq<Shape>, g: Engine, ev: Event)
    requires Ok(sc, shapes, g) && Enabled(sc, shapes, g, ev)
    requires ev.Enter? || ev.Quiet? || ev.Skip? || ev.EndBatch? || ev.Complete? || ev.Preempt?
    ensures Machine(sc, shapes)(g, ev, Step(sc, shapes, g, ev))
  {
    OkFits(sc, shapes, g);
    EnabledTaken(sc, shapes, g, ev);
  }

  /** Whether some system of the phase needs planning; peeking changes nothing. */
  method AnyGateOpen(r: PhaseRunner) returns (open: bool)
    requires r.Wired()
    ensures open == AnyOpen(r.shapes, r.View())
  {
    open := false;
    var n := 0;
    while n < |r.systems| && !open
      invariant 0 <= n <= |r.systems|
      invariant open ==> AnyOpen(r.shapes, r.View())
      invariant !open ==> forall i :: 0 <= i < n ==> !Gate(r.shapes, r.View(), i, r.world.State())
    {
      if r.phase == Some(r.shapes[n].phase) {
        open := r.systems[n].PeekNeedsPlanning(r.world.State());
        assert open == Gate(r.shapes, r.View(), n, r.world.State());
      }
      n := n + 1;
    }
  }

  /** One planning decision: a wave if some gate is open; otherwise the loop goes back to waiting for what still runs. */
  method Plan(r: PhaseRunner, ghost ph: Phase, ghost from: Engine, ghost walk: Walk<Engine, Event>) returns (ghost longer: Walk<Engine, Event>)
    requires r.Wired() && Ok(r.world.schema, r.shapes, from) && Walks(Machine(r.world.schema, r.shapes), walk, from, r.View())
    requires AtHead(r.View(), ph) && !ph.Settle? && r.needsPlan
    modifies r, r.systems
    ensures r.Wired() && Walks(Machine(r.world.schema, r.shapes), longer, from, r.View()) && AtHead(r.View(), ph)
    ensures LookedIn(r.shapes, r.View())
  {
    ghost var g, machine := r.View(), Machine(r.world.schema, r.shapes);
    WalkedOk(r.world.schema, r.shapes, walk, from, g);
    var open := AnyGateOpen(r);
    if open {
      ghost var trail := r.PlanWave();
      ghost var wave := WaveWalks(r.world.schema, r.shapes, g, trail, ph);
      WalksOn(machine, walk, wave, from, g, r.View());
      longer := Joined(walk, wave);
    } else {
      r.deferredConflicts := false;
      LoopStepTaken(r.world.schema, r.shapes, g, Quiet);
      assert r.View() == g.(conflicts := false);
      StillShut(r.shapes, g, r.View());
      WalksFurther(machine, walk, from, g, Quiet, r.View());
      longer := Further(walk, Quiet, r.View());
    }
  }

  lemma StillShut(shapes: seq<Shape>, g: Engine, h: Engine)
    requires h.world == g.world && h.planners == g.planners && h.phase == g.phase
    ensures AnyOpen(shapes, h) == AnyOpen(shapes, g)
  {
    forall i | 0 <= i < |shapes| ensures Gate(shapes, g, i, g.world) == Gate(shapes, h, i, h.world) {}
  }

  // ---- preempting ----

  /** Readers are dropped, writers are waited for, and the boundary is reached when none is left. */
  method Drain(r: PhaseRunner, ghost ph: Phase, wakes: seq<Wake>, ghost from: Engine, ghost walk: Walk<Engine, Event>)
    returns (end: PhaseEnd, ghost longer: Walk<Engine, Event>)
    requires r.Wired() && Ok(r.world.schema, r.shapes, from) && Walks(Machine(r.world.schema, r.shapes), walk, from, r.View())
    requires AtHead(r.View(), ph) && !ph.Settle? && AllWritable(r.world.schema, wakes)
    modifies r, r.world, r.systems
    ensures r.Wired() && Walks(Machine(r.world.schema, r.shapes), longer, from, r.View())
    ensures !end.Completed? && r.draining && (end.Preempted? <==> r.flights == map[])
  {
    ghost var g, machine := r.View(), Machine(r.world.schema, r.shapes);
    WalkedOk(r.world.schema, r.shapes, walk, from, g);
    r.CancelReaders();
    LoopStepTaken(r.world.schema, r.shapes, g, Preempt);
    WalksFurther(machine, walk, from, g, Preempt, r.View());
    longer := Further(walk, Preempt, r.View());
    var n := 0;
    while n < |wakes| && r.flights != map[]
      invariant 0 <= n <= |wakes| && r.Wired() && r.wave.None? && r.draining
      invariant Walks(machine, longer, from, r.View())
    {
      match wakes[n] {
        case Finished(batch) => longer := CommitBatch(r, batch, from, longer);
        case Meanwhile(section) => longer := Visit(r, section, from, longer);
        case Asked(_) =>
      }
      n := n + 1;
    }
    end := if r.flights == map[] then Preempted else Waiting;
  }

  // ---- a whole phase ----

  /** Nothing runs and no gate is open: the phase has converged. Unless somebody interfered, no gate is. */
  lemma RestHasConverged(sc: Schema, shapes: seq<Shape>, g: Engine, ph: Phase)
    requires Ok(sc, shapes, g) && AtHead(g, ph) && g.flights == map[] && LookedIn(shapes, g)
    ensures !g.interfered ==> !AnyOpen(shapes, g)
    ensures OnlyOrphansAreMissed(sc, shapes, g) && (!AnyOpen(shapes, g) ==> Converged(sc, shapes, g))
  {
    OkMissesOnlyOrphans(sc, shapes, g);
    if !AnyOpen(shapes, g) { ShutGatesConverge(sc, shapes, g); }
  }

  method Begin(r: PhaseRunner, ph: Phase) returns (ghost walk: Walk<Engine, Event>)
    requires r.Wired() && Ok(r.world.schema, r.shapes, r.View()) && r.running && r.phase.None? && !ph.Settle?
    modifies r
    ensures r.Wired() && Walks(Machine(r.world.schema, r.shapes), walk, old(r.View()), r.View()) && AtHead(r.View(), ph)
    ensures r.needsPlan
  {
    ghost var g := r.View();
    LoopStepTaken(r.world.schema, r.shapes, g, Enter(ph));
    r.EnterPhase(ph);
    walk := Walk([g, r.View()], [Enter(ph)]);
  }

  lemma BatchTaken(sc: Schema, shapes: seq<Shape>, g: Engine)
    requires Ok(sc, shapes, g) && g.batch && !g.draining && g.phase != Some(Settle)
    ensures Machine(sc, shapes)(g, EndBatch, g.(needsPlan := g.needsPlan || g.dirty || g.conflicts, batch := false, dirty := false))
  {
    LoopStepTaken(sc, shapes, g, EndBatch);
  }

  method CloseBatch(r: PhaseRunner, ghost ph: Phase, ghost from: Engine, ghost walk: Walk<Engine, Event>)
    returns (ghost longer: Walk<Engine, Event>)
    requires r.Wired() && Ok(r.world.schema, r.shapes, from) && Walks(Machine(r.world.schema, r.shapes), walk, from, r.View())
    requires r.batch && r.running && r.phase == Some(ph) && !ph.Settle? && r.wave.None? && !r.draining
    modifies r
    ensures r.Wired() && Walks(Machine(r.world.schema, r.shapes), longer, from, r.View()) && AtHead(r.View(), ph)
  {
    ghost var g := r.View();
    WalkedOk(r.world.schema, r.shapes, walk, from, g);
    BatchTaken(r.world.schema, r.shapes, g);
    r.CloseBatch();
    WalksFurther(Machine(r.world.schema, r.shapes), walk, from, g, EndBatch, r.View());
    longer := Further(walk, EndBatch, r.View());
  }

  method Account(r: PhaseRunner, ghost ph: Phase, batch: seq<Item>, ghost from: Engine, ghost walk: Walk<Engine, Event>)
    returns (ghost longer: Walk<Engine, Event>)
    requires r.Wired() && Ok(r.world.schema, r.shapes, from) && Walks(Machine(r.world.schema, r.shapes), walk, from, r.View())
    requires AtHead(r.View(), ph) && !ph.Settle? && BatchWritable(r.world.schema, batch)
    modifies r, r.world, r.systems
    ensures r.Wired() && Walks(Machine(r.world.schema, r.shapes), longer, from, r.View()) && AtHead(r.View(), ph)
  {
    longer := CommitBatch(r, batch, from, walk);
    if r.batch {
      longer := CloseBatch(r, ph, from, longer);
    }
  }

  /** Woken for a preemption: the loop forgets that it meant to plan, and looks at its head whether it is still wanted. */
  method Doze(r: PhaseRunner, ghost ph: Phase, ghost from: Engine, ghost walk: Walk<Engine, Event>)
    returns (ghost longer: Walk<Engine, Event>)
    requires r.Wired() && Ok(r.world.schema, r.shapes, from) && Walks(Machine(r.world.schema, r.shapes), walk, from, r.View())
    requires AtHead(r.View(), ph) && !ph.Settle? && LookedIn(r.shapes, r.View())
    modifies r
    ensures r.Wired() && Walks(Machine(r.world.schema, r.shapes), longer, from, r.View()) && AtHead(r.View(), ph) && !r.needsPlan
  {
    ghost var g := r.View();
    longer := walk;
    if r.needsPlan {
      WalkedOk(r.world.schema, r.shapes, walk, from, g);
      LoopStepTaken(r.world.schema, r.shapes, g, Skip);
      r.needsPlan := false;
      assert r.View() == g.(needsPlan := false, conflicts := false);
      WalksFurther(Machine(r.world.schema, r.shapes), walk, from, g, Skip, r.View());
      longer := Further(walk, Skip, r.View());
    }
  }

  /** What a phase that has completed leaves: it has converged, but for gates that somebody else opened. */
  ghost predicate AtRest(sc: Schema, shapes: seq<Shape>, g: Engine)
    requires |g.planners| == |shapes| && forall i :: 0 <= i < |shapes| ==> shapes[i].Valid()
  {
    && OnlyOrphansAreMissed(sc, shapes, g) && (!g.interfered ==> !AnyOpen(shapes, g))
    && (!AnyOpen(shapes, g) ==> Converged(sc, shapes, g))
  }

  method Leave(r: PhaseRunner, ghost ph: Phase, ghost from: Engine, ghost walk: Walk<Engine, Event>)
    returns (ghost longer: Walk<Engine, Event>)
    requires r.Wired() && Ok(r.world.schema, r.shapes, from) && Walks(Machine(r.world.schema, r.shapes), walk, from, r.View())
    requires AtHead(r.View(), ph) && !ph.Settle? && r.flights == map[] && LookedIn(r.shapes, r.View())
    modifies r
    ensures r.Wired() && Walks(Machine(r.world.schema, r.shapes), longer, from, r.View()) && r.phase.None?
    ensures AtRest(r.world.schema, r.shapes, r.View().(phase := Some(ph)))
  {
    ghost var g := r.View();
    WalkedOk(r.world.schema, r.shapes, walk, from, g);
    RestHasConverged(r.world.schema, r.shapes, g, ph);
    LoopStepTaken(r.world.schema, r.shapes, g, Event.Complete);
    r.phase := None;
    assert r.View() == g.(phase := None);
    assert r.View().(phase := Some(ph)) == g;
    WalksFurther(Machine(r.world.schema, r.shapes), walk, from, g, Event.Complete, r.View());
    longer := Further(walk, Event.Complete, r.View());
  }

  /**
   `run_phase_streaming`. Whatever finishes in whatever batches, and whatever other settles do in between, the objects
   walk the phase machine. A phase that completes has converged, but for gates that others opened; one that is preempted
   has let its writers finish and runs nothing.
   */
  method RunPhase(r: PhaseRunner, ph: Phase, allowPreempt: bool, asking: bool, wakes: seq<Wake>)
    returns (end: PhaseEnd, ghost walk: Walk<Engine, Event>)
    requires r.Wired() && Ok(r.world.schema, r.shapes, r.View()) && r.running && r.phase.None? && !ph.Settle?
    requires AllWritable(r.world.schema, wakes)
    modifies r, r.world, r.systems
    ensures r.Wired() && Walks(Machine(r.world.schema, r.shapes), walk, old(r.View()), r.View())
    ensures Ok(r.world.schema, r.shapes, r.View())
    ensures end.Completed? ==> r.phase.None? && AtRest(r.world.schema, r.shapes, r.View().(phase := Some(ph)))
    ensures end.Preempted? ==> allowPreempt && r.draining && r.flights == map[]
  {
    ghost var from := r.View();
    walk := Begin(r, ph);
    var asked, n := asking, 0;
    end := Waiting;
    while n <= |wakes|
      invariant r.Wired() && Walks(Machine(r.world.schema, r.shapes), walk, from, r.View()) && AtHead(r.View(), ph)
      decreases |wakes| - n
    {
      if allowPreempt && asked {
        end, walk := Drain(r, ph, wakes[n..], from, walk);
        break;
      }
      if r.needsPlan {
        walk := Plan(r, ph, from, walk);
      }
      n, walk := Await(r, ph, wakes, n, from, walk);
      if r.flights == map[] {
        walk := Leave(r, ph, from, walk);
        end := Completed;
        break;
      }
      if n == |wakes| {
        break;
      }
      match wakes[n] {
        case Asked(still) =>
          if allowPreempt {
            walk := Doze(r, ph, from, walk);
            asked := still;
          }
        case Finished(batch) =>
          walk := Account(r, ph, batch, from, walk);
      }
      n := n + 1;
    }
    WalkedOk(r.world.schema, r.shapes, walk, from, r.View());
  }

  /** While the loop awaits, others have the lock; it stays where it is. */
  method Await(r: PhaseRunner, ghost ph: Phase, wakes: seq<Wake>, at: nat, ghost from: Engine, ghost walk: Walk<Engine, Event>)
    returns (n: nat, ghost longer: Walk<Engine, Event>)
    requires r.Wired() && Ok(r.world.schema, r.shapes, from) && Walks(Machine(r.world.schema, r.shapes), walk, from, r.View())
    requires AtHead(r.View(), ph) && LookedIn(r.shapes, r.View()) && AllWritable(r.world.schema, wakes) && at <= |wakes|
    modifies r, r.world, r.systems
    ensures r.Wired() && Walks(Machine(r.world.schema, r.shapes), longer, from, r.View())
    ensures AtHead(r.View(), ph) && LookedIn(r.shapes, r.View())
    ensures at <= n <= |wakes| && (n < |wakes| ==> !wakes[n].Meanwhile?)
  {
    n, longer := at, walk;
    while n < |wakes| && wakes[n].Meanwhile?
      invariant at <= n <= |wakes| && r.Wired() && Walks(Machine(r.world.schema, r.shapes), longer, from, r.View())
      invariant AtHead(r.View(), ph) && LookedIn(r.shapes, r.View())
    {
      ghost var g := r.View();
      longer := Visit(r, wakes[n].section, from, longer);
      StillLookedIn(r.shapes, g, r.View());
      n := n + 1;
    }
  }

  /**
   What the generation does with a preempted phase: every planner starts over, since runs that were dropped had moved
   the marks, and the phases restart from the first.
   */
  method Restart(r: PhaseRunner, ghost from: Engine, ghost walk: Walk<Engine, Event>) returns (ghost longer: Walk<Engine, Event>)
    requires r.Wired() && Ok(r.world.schema, r.shapes, from) && Walks(Machine(r.world.schema, r.shapes), walk, from, r.View())
    requires r.draining && r.flights == map[]
    modifies r, r.systems
    ensures r.Wired() && Walks(Machine(r.world.schema, r.shapes), longer, from, r.View())
    ensures r.phase.None? && !r.draining && r.Planners() == AllReset(old(r.Planners()))
  {
    ghost var g := r.View();
    WalkedOk(r.world.schema, r.shapes, walk, from, g);
    ResetAll(r);
    Reopen(r);
    RestartWalks(r.world.schema, r.shapes, walk, from, g);
    longer := Further(walk, Event.Restart, Restarted(g));
  }

  function Restarted(g: Engine): Engine {
    g.(planners := AllReset(g.planners), draining := false, phase := None, orphans := {})
  }

  lemma RestartWalks(sc: Schema, shapes: seq<Shape>, walk: Walk<Engine, Event>, from: Engine, g: Engine)
    requires Ok(sc, shapes, g) && Walks(Machine(sc, shapes), walk, from, g) && g.draining && g.flights == map[]
    ensures Walks(Machine(sc, shapes), Further(walk, Event.Restart, Restarted(g)), from, Restarted(g))
  {
    WalksFurther(Machine(sc, shapes), walk, from, g, Event.Restart, Restarted(g));
  }

  method Reopen(r: PhaseRunner)
    requires r.Wired()
    modifies r`draining, r`phase, r`orphans
    ensures r.Wired() && r.View() == old(r.View()).(draining := false, phase := None, orphans := {})
  {
    r.draining, r.phase, r.orphans := false, None, {};
  }

  method ResetAll(r: PhaseRunner)
    requires r.Wired()
    modifies r.systems
    ensures r.Wired() && r.View() == old(r.View()).(planners := AllReset(old(r.Planners())))
  {
    var n := 0;
    while n < |r.systems|
      invariant 0 <= n <= |r.systems|
      invariant forall i :: 0 <= i < n ==> r.systems[i].State() == ResetFull(old(r.systems[i].State()))
      invariant forall i :: n <= i < |r.systems| ==> r.systems[i].State() == old(r.systems[i].State())
    {
      r.systems[n].Reset();
      n := n + 1;
    }
    assert r.Planners() == AllReset(old(r.Planners()));
  }
}
