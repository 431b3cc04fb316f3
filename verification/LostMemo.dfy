/**
 Tables lost: a driver dropped where nothing guards its table, and two settles that overlap. After a phase that has
 converged either misses every row of it; and runs in which a matching row is missed.
 */
module LostMemos {
  import opened Ids
  import opened Ascending
  import opened World
  import opened Queries
  import opened Joins
  import opened Planners
  import opened Coverage
  import opened Admission
  import opened Phases
  import opened PhaseProofs
  import opened OutsideSteps
  import opened LoopSteps
  import opened EngineRuns
  import opened TableHolders
  import opened NothingMissed
  import H = Handles
  import O = Output
  import A = Accesses

  /** A row whose gate is shut, that runs nowhere and stands on record nowhere, is missed. */
  lemma ShutRowIsMissed(sc: Schema, shapes: seq<Shape>, g: Engine, i: nat, row: seq<Entity>)
    requires i < |shapes| == |g.planners| && shapes[i].Valid() && Inv(sc, g.world, {}) && row in Specified(g.world, shapes[i].queries)
    requires !Open(shapes[i], g.planners[i], g.world) && g.flights == map[]
    requires |row| == |shapes[i].queries| ==> !Recalled(sc, g.world, shapes[i], OnRecord(g), Owner(i, row))
    ensures Missed(sc, shapes, g, i, row)
  {
    SpecifiedRowsAreRows(sc, g.world, shapes[i], row);
  }

  /** A completed phase whose gates are shut: no row of it is running or due. */
  lemma CompletedIsShut(sc: Schema, shapes: seq<Shape>, states: seq<Engine>, events: seq<Event>, k: nat, i: nat)
    requires Run(sc, shapes, states, events) && k < |events| && events[k].Complete?
    requires i < |shapes| && states[k].phase == Some(shapes[i].phase) && !AnyOpen(shapes, states[k])
    ensures |states[k].planners| == |shapes| && Inv(sc, states[k].world, {}) && states[k].flights == map[]
    ensures !Open(shapes[i], states[k].planners[i], states[k].world) && states[k + 1] == states[k].(phase := None)
  {
    RunKeepsOk(sc, shapes, states, events, k);
    StepOfRun(sc, shapes, states, events, k);
    CompletedFrame(sc, shapes, states[k], states[k + 1]);
    assert !Gate(shapes, states[k], i, states[k].world);
  }

  lemma CompletedFrame(sc: Schema, shapes: seq<Shape>, g: Engine, h: Engine)
    requires Takes(sc, shapes, g, Event.Complete, h)
    ensures h == g.(phase := None) && g.flights == map[]
  {}

  // ---- a driver dropped with its table ----

  /**
   A phase that completed with its gates shut, and then lost its table: each of its rows is missed that no other table
   has on record.
   */
  lemma LoseAfterCompletionMisses(sc: Schema, shapes: seq<Shape>, states: seq<Engine>, events: seq<Event>, k: nat, i: nat, row: seq<Entity>)
    requires Run(sc, shapes, states, events) && k + 1 < |events| && events[k].Complete? && events[k + 1].Lose?
    requires i < |shapes| && shapes[i].Valid() && states[k].phase == Some(shapes[i].phase) && !AnyOpen(shapes, states[k])
    requires row in Specified(states[k].world, shapes[i].queries)
    requires |row| == |shapes[i].queries| ==> !Recalled(sc, states[k].world, shapes[i], OnRecord(states[k + 2]), Owner(i, row))
    ensures |states[k + 2].planners| == |shapes| && Missed(sc, shapes, states[k + 2], i, row)
  {
    CompletedIsShut(sc, shapes, states, events, k, i);
    StepOfRun(sc, shapes, states, events, k + 1);
    LostFrame(sc, shapes, states[k + 1], states[k + 2]);
    ShutRowIsMissed(sc, shapes, states[k + 2], i, row);
  }

  lemma LostFrame(sc: Schema, shapes: seq<Shape>, g: Engine, h: Engine)
    requires Takes(sc, shapes, g, Lose, h)
    ensures h == Lost(g)
  {}

  // ---- two settles that overlap ----

  /** From the end of a generation: two settles take the table one after the other, and put it back in the same order. */
  ghost predicate Overlap(events: seq<Event>, k: nat, a: nat, b: nat) {
    && k + 7 <= |events| && events[k] == Publish && events[k + 1] == Take(a, false) && events[k + 2] == Take(b, false)
    && events[k + 3] == Launch(a) && events[k + 4] == Launch(b) && events[k + 5] == PutBack(a) && events[k + 6] == PutBack(b)
  }

  /**
   A phase that completed with its gates shut, its generation's end, and two settles that overlap with nothing to run:
   every matching row of the phase is missed, though nobody was dropped.
   */
  lemma OverlapMissesAll(sc: Schema, shapes: seq<Shape>, states: seq<Engine>, events: seq<Event>, k: nat, a: nat, b: nat, i: nat, row: seq<Entity>)
    requires Run(sc, shapes, states, events) && k < |events| && events[k].Complete? && Overlap(events, k + 1, a, b) && states[k].tasks == map[]
    requires i < |shapes| && shapes[i].Valid() && states[k].phase == Some(shapes[i].phase) && !AnyOpen(shapes, states[k])
    requires row in Specified(states[k].world, shapes[i].queries)
    ensures |states[k + 8].planners| == |shapes| && Missed(sc, shapes, states[k + 8], i, row)
  {
    CompletedIsShut(sc, shapes, states, events, k, i);
    OverlapEmpties(sc, shapes, states, events, k + 1, a, b);
    ShutRowIsMissed(sc, shapes, states[k + 8], i, row);
  }

  /** The second settle took the empty table, and its empty table is what is left. */
  lemma OverlapEmpties(sc: Schema, shapes: seq<Shape>, states: seq<Engine>, events: seq<Event>, k: nat, a: nat, b: nat)
    requires Run(sc, shapes, states, events) && Overlap(events, k, a, b) && states[k].tasks == map[]
    ensures OnRecord(states[k + 7]) == {}
    ensures states[k + 7].world == states[k].world && states[k + 7].planners == states[k].planners && states[k + 7].flights == states[k].flights
  {
    forall n | k <= n < k + 7 ensures Handed(states[n], events[n], states[n + 1]) { RunHanded(sc, shapes, states, events, n); }
    TwoTables(states[k], states[k + 1], states[k + 2], states[k + 3], states[k + 4], states[k + 5], states[k + 6], states[k + 7], a, b);
  }

  /** What a hand-over does to the tables. */
  ghost predicate Handed(g: Engine, ev: Event, h: Engine) {
    && h.world == g.world && h.planners == g.planners && h.flights == g.flights
    && (ev.Publish? ==> h.store == g.memo && h.memo == map[] && h.tasks == g.tasks)
    && (ev.Take? ==> h.store == map[] && h.memo == g.memo && h.tasks == g.tasks[ev.id := Task(ev.hooks, g.store, map[], false)] && ev.id !in g.tasks)
    && (ev.Launch? ==> h.store == g.store && h.memo == g.memo && ev.id in g.tasks && ev.id in h.tasks
                       && h.tasks == g.tasks[ev.id := h.tasks[ev.id]] && h.tasks[ev.id].memo == g.tasks[ev.id].memo)
    && (ev.PutBack? ==> ev.id in g.tasks && h.store == g.tasks[ev.id].memo && h.memo == g.memo && h.tasks == g.tasks - {ev.id})
  }

  lemma RunHanded(sc: Schema, shapes: seq<Shape>, states: seq<Engine>, events: seq<Event>, n: nat)
    requires Run(sc, shapes, states, events) && n < |events|
    requires events[n].Publish? || events[n].Take? || events[n].Launch? || events[n].PutBack?
    ensures Handed(states[n], events[n], states[n + 1])
  {
    StepOfRun(sc, shapes, states, events, n);
    TakesHanded(sc, shapes, states[n], events[n], states[n + 1]);
  }

  lemma TakesHanded(sc: Schema, shapes: seq<Shape>, g: Engine, ev: Event, h: Engine)
    requires Takes(sc, shapes, g, ev, h) && (ev.Publish? || ev.Take? || ev.Launch? || ev.PutBack?)
    ensures Handed(g, ev, h)
  {}

  lemma TwoTables(g0: Engine, g1: Engine, g2: Engine, g3: Engine, g4: Engine, g5: Engine, g6: Engine, g7: Engine, a: nat, b: nat)
    requires g0.tasks == map[] && Handed(g0, Publish, g1) && Handed(g1, Take(a, false), g2) && Handed(g2, Take(b, false), g3)
    requires Handed(g3, Launch(a), g4) && Handed(g4, Launch(b), g5) && Handed(g5, PutBack(a), g6) && Handed(g6, PutBack(b), g7)
    ensures OnRecord(g7) == {} && g7.world == g0.world && g7.planners == g0.planners && g7.flights == g0.flights
  {
    assert a != b && g3.tasks == map[a := Task(false, g0.memo, map[], false), b := Task(false, map[], map[], false)];
    assert g5.tasks.Keys == {a, b} && g5.tasks[b].memo == map[];
    assert g7.tasks == map[] by { assert forall n :: n !in g7.tasks; }
    assert g7.store == map[] && g7.memo == map[];
  }

  // ---- such runs ----

  const READS_ONE := Query(Scalar, [], [1], [], [], [], [], Free)
  const READS_TWO := Query(Scalar, [], [2], [], [], [], [], Free)

  /** One system reads component 1 of each entity that carries it; another sweeps component 2 at each settle. */
  const READER := Shape([READS_ONE], [], [], Evaluate)
  const SWEEPER := Shape([READS_TWO], [], [], Settle)

  const SYSTEMS := [READER, SWEEPER]

  const ROW: seq<Entity> := [1]
  const RUN := Owner(0, ROW)

  /** A world in which the reader has one row and the sweeper none, and nothing is owned or removed yet. */
  ghost predicate Ready(sc: Schema, w: WorldState) {
    && sc.Valid() && Inv(sc, w, {}) && RUN !in w.owners && States(w, [READS_ONE]) == [ROW] && States(w, [READS_TWO]) == []
    && w.removedEntities == [] && w.removedOwners == [] && w.removedComponentOwners == []
  }

  function Registered(w: WorldState): Engine {
    Engine(w, [FRESH, FRESH], map[], map[], false, map[], map[], None, None, None, false, false, false, false, false, false, {})
  }

  function Planned(w: WorldState): Planner {
    Consumed(READER, Marked(READER, FRESH, w), w)
  }

  function Opened(w: WorldState): Engine {
    Registered(w).(running := true)
  }

  function Entered(w: WorldState): Engine {
    Opened(w).(phase := Some(Evaluate), needsPlan := true)
  }

  function Waving(w: WorldState): Engine {
    Entered(w).(cache := Some(w), wave := Some(Wave(w, w, 0)))
  }

  function Turned(w: WorldState): Engine {
    Waving(w).(planners := [Planned(w), FRESH], flights := map[RUN := w], wave := Some(Wave(w, w, 1)))
  }

  function Airborne(w: WorldState): Engine {
    Turned(w).(wave := None, needsPlan := false)
  }

  function Remembered(sc: Schema, w: WorldState): Engine {
    Airborne(w).(flights := map[], memo := map[RUN := Deps(sc, w, READER, ROW)], batch := true)
  }

  function Accounted(sc: Schema, w: WorldState): Engine {
    Remembered(sc, w).(batch := false)
  }

  function Finished(sc: Schema, w: WorldState): Engine {
    Accounted(sc, w).(phase := None)
  }

  lemma SystemsAreValid()
    ensures READER.Valid() && SWEEPER.Valid() && forall i :: 0 <= i < |SYSTEMS| ==> SYSTEMS[i].Valid()
  {}

  lemma Registers(sc: Schema, w: WorldState)
    requires Ready(sc, w)
    ensures Initial(sc, SYSTEMS, Registered(w))
  {
    SystemsAreValid();
    assert Registered(w).planners == seq(|SYSTEMS|, _ => FRESH);
  }

  lemma Opens(sc: Schema, w: WorldState)
    requires Ready(sc, w)
    ensures Takes(sc, SYSTEMS, Registered(w), Start(w), Opened(w))
  {
    SystemsAreValid();
    EvolvesReflexive(sc, w);
    NothingRemoved(w, map[], [FRESH, FRESH]);
  }

  lemma Enters(sc: Schema, w: WorldState)
    ensures Takes(sc, SYSTEMS, Opened(w), Enter(Evaluate), Entered(w))
  {
    SystemsAreValid();
  }

  lemma Waves(sc: Schema, w: WorldState)
    ensures Takes(sc, SYSTEMS, Entered(w), BeginWave, Waving(w))
  {
    SystemsAreValid();
    assert Gate(SYSTEMS, Entered(w), 0, w);
    assert Snapshot(Entered(w)) == w;
  }

  lemma Plans(sc: Schema, w: WorldState)
    requires Ready(sc, w)
    ensures Takes(sc, SYSTEMS, Waving(w), PlanSystem, Turned(w))
  {
    SystemsAreValid();
    TurnAdmitsTheRow(sc, w);
    assert Gate(SYSTEMS, Waving(w), 0, w);
    TurnPasses(w);
    EnabledTaken(sc, SYSTEMS, Waving(w), PlanSystem);
  }

  lemma TurnPasses(w: WorldState)
    ensures Passed(Waving(w), Some(Admitting(Planned(w), map[RUN := w], false))) == Turned(w)
  {}

  lemma TurnAdmitsTheRow(sc: Schema, w: WorldState)
    requires Ready(sc, w)
    ensures READER.Valid() && Turn(sc, SYSTEMS, Waving(w)) == Admitting(Planned(w), map[RUN := w], false)
  {
    var p := Marked(READER, FRESH, w);
    SystemsAreValid();
    var rows := PlannedRows(sc, READER, p, Waving(w).wave.value);
    assert rows == [ROW] && rows[1..] == [];
    var a, b := Admitting(Planned(w), map[], false), Admitting(Planned(w), map[RUN := w], false);
    assert Admit(sc, SYSTEMS, 0, w, map[], ROW, a) == b;
    assert RowsFit(SYSTEMS, 0, rows);
    assert AdmitRows(sc, SYSTEMS, 0, w, map[], rows, a) == AdmitRows(sc, SYSTEMS, 0, w, map[], rows[1..], b) == b;
  }

  /** The sweeper is not of the phase. */
  lemma PassesOver(sc: Schema, w: WorldState)
    ensures Takes(sc, SYSTEMS, Turned(w), PlanSystem, Turned(w).(wave := Some(Wave(w, w, 2))))
  {
    SystemsAreValid();
    assert !Gate(SYSTEMS, Turned(w), 1, w);
  }

  lemma EndsTheWave(sc: Schema, w: WorldState)
    ensures Takes(sc, SYSTEMS, Turned(w).(wave := Some(Wave(w, w, 2))), EndWave, Airborne(w))
  {
    SystemsAreValid();
  }

  lemma Returns(sc: Schema, w: WorldState)
    requires Ready(sc, w)
    ensures Takes(sc, SYSTEMS, Airborne(w), Return(RUN, [], []), Remembered(sc, w))
  {
    SystemsAreValid();
    Commits(sc, w);
    ReturnsNothing(sc, w);
    ReturnStep(sc, SYSTEMS, Airborne(w), RUN, [], []);
  }

  lemma ReturnsNothing(sc: Schema, w: WorldState)
    requires Ready(sc, w)
    ensures Enabled(sc, SYSTEMS, Airborne(w), Return(RUN, [], []))
  {
    assert O.Lists([], O.Outputs(w, RUN));
    assert O.Reordered(sc, Kept(Some(Evaluate), [])) == [];
  }

  lemma ReturnStep(sc: Schema, shapes: seq<Shape>, g: Engine, o: Owner, cs: seq<O.Command>, previous: seq<(TypeId, Entity)>)
    requires Fits(shapes, g, Return(o, cs, previous)) && Enabled(sc, shapes, g, Return(o, cs, previous))
    ensures Takes(sc, shapes, g, Return(o, cs, previous), Finish(sc, shapes, g, o, cs, previous))
  {
    var ev, h := Return(o, cs, previous), Finish(sc, shapes, g, o, cs, previous);
    assert Step(sc, shapes, g, ev) == h;
  }

  lemma Commits(sc: Schema, w: WorldState)
    requires Ready(sc, w)
    ensures Finish(sc, SYSTEMS, Airborne(w), RUN, [], []) == Remembered(sc, w)
  {
    RunIsFresh(sc, w);
    Accepts(sc, w);
  }

  lemma RunIsFresh(sc: Schema, w: WorldState)
    ensures DepsAt(sc, SYSTEMS, w, RUN) == Deps(sc, w, READER, ROW) && Fresh(sc, SYSTEMS, w, map[RUN := w], RUN)
  {
    OwnDepsAreCurrent(sc, w, READER, ROW);
    assert DepsAt(sc, SYSTEMS, w, RUN) == Deps(sc, w, READER, ROW);
  }

  lemma Accepts(sc: Schema, w: WorldState)
    requires Ready(sc, w)
    ensures Accept(sc, SYSTEMS, Airborne(w), RUN, [], []) == Remembered(sc, w)
  {
    var g, deps := Airborne(w), Deps(sc, w, READER, ROW);
    RunIsFresh(sc, w);
    NothingWritten();
    NothingPublished(sc, w);
    RefreshedByNothing(w, deps);
    assert g.memo[RUN := deps] == map[RUN := deps];
    NothingRemoved(w, map[RUN := deps], g.planners);
    AcceptFrame(sc, SYSTEMS, g, RUN, [], []);
    assert g.flights - {RUN} == map[] && g.orphans - {RUN} == {};
  }

  lemma NothingPublished(sc: Schema, w: WorldState)
    requires RUN !in w.owners
    ensures Published(sc, SYSTEMS, w, Some(Evaluate), RUN, [], []) == w
  {
    NothingWritten();
    assert O.Take(w, RUN) == w;
    assert Kept(Some(Evaluate), []) == [];
    assert O.ApplyBuffer(sc, w, [], RUN) == w;
  }

  lemma NothingRemoved(w: WorldState, memo: Memo, planners: seq<Planner>)
    requires |planners| == 2 && w.removedEntities == [] && w.removedOwners == [] && w.removedComponentOwners == []
    ensures Reconciled(SYSTEMS, w, memo, planners) == Account(w, memo, planners)
  {
    assert Forget(memo, []) == memo;
  }

  lemma NothingWritten()
    ensures WrittenBy(SYSTEMS, RUN) == []
  {
    var xs := QueriesAccess([READS_ONE], ROW);
    assert xs == QueryAccess(READS_ONE, 1) + QueriesAccess([READS_ONE][1..], ROW[1..]);
    assert QueryAccess(READS_ONE, 1) == [A.Access(A.Read, 1, Some(1))];
    var only := [A.Access(A.Read, 1, Some(1))];
    assert RowAccess(READER, ROW) == only && only[1..] == [];
    assert Written(only) == [];
  }

  lemma {:induction false} RefreshedByNothing(w: WorldState, deps: seq<Dep>)
    ensures Refreshed(w, deps, []) == deps
  {
    if deps != [] { RefreshedByNothing(w, deps[1..]); }
  }

  lemma EndsBatch(sc: Schema, w: WorldState)
    ensures Takes(sc, SYSTEMS, Remembered(sc, w), EndBatch, Accounted(sc, w))
  {
    SystemsAreValid();
  }

  lemma EndsShut(sc: Schema, w: WorldState)
    ensures !AnyOpen(SYSTEMS, Accounted(sc, w))
  {}

  lemma Completes(sc: Schema, w: WorldState)
    ensures Takes(sc, SYSTEMS, Accounted(sc, w), Event.Complete, Finished(sc, w))
  {
    SystemsAreValid();
    EndsShut(sc, w);
  }

  lemma Loses(sc: Schema, w: WorldState)
    ensures Takes(sc, SYSTEMS, Finished(sc, w), Lose, Lost(Finished(sc, w)))
  {
    SystemsAreValid();
  }

  function Visited(sc: Schema, w: WorldState): seq<Engine> {
    [Registered(w), Opened(w), Entered(w), Waving(w), Turned(w), Turned(w).(wave := Some(Wave(w, w, 2))), Airborne(w),
     Remembered(sc, w), Accounted(sc, w), Finished(sc, w)]
  }

  function Events(w: WorldState): seq<Event> {
    [Start(w), Enter(Evaluate), BeginWave, PlanSystem, PlanSystem, EndWave, Return(RUN, [], []), EndBatch, Event.Complete]
  }

  lemma Departs(sc: Schema, w: WorldState, k: nat)
    requires Ready(sc, w) && k < 4
    ensures Takes(sc, SYSTEMS, Visited(sc, w)[k], Events(w)[k], Visited(sc, w)[k + 1])
  {
    Opens(sc, w);
    Enters(sc, w);
    Waves(sc, w);
    Plans(sc, w);
  }

  lemma Arrives(sc: Schema, w: WorldState, k: nat)
    requires Ready(sc, w) && 4 <= k < 9
    ensures Takes(sc, SYSTEMS, Visited(sc, w)[k], Events(w)[k], Visited(sc, w)[k + 1])
  {
    PassesOver(sc, w);
    EndsTheWave(sc, w);
    Returns(sc, w);
    EndsBatch(sc, w);
    Completes(sc, w);
  }

  lemma OneCarrierIsReady(sc: Schema, w: WorldState)
    requires sc.Valid() && Inv(sc, w, {}) && w.owners == map[] && (forall e: Entity :: Has(w, 1, e) <==> e == 1)
    requires (forall e: Entity :: !Has(w, 2, e))
    requires w.removedEntities == [] && w.removedOwners == [] && w.removedComponentOwners == []
    ensures Ready(sc, w)
  {
    OneRowIsListed(w);
    NoRowIsListed(w);
    SystemsAreValid();
    assert READER.queries[0] == READS_ONE && SWEEPER.queries[0] == READS_TWO;
    OneRowIsBuilt(w, [READS_ONE], 1);
    NoRowIsBuilt(w, [READS_TWO]);
  }

  lemma ListedIsHad(w: WorldState, q: Query, t: TypeId, e: Entity)
    requires q == Query(Scalar, [], [t], [], [], [], [], Free)
    ensures Queries.Listed(w, q, e) <==> Has(w, t, e)
  {
    assert Listing(q) == [t];
    assert Has(w, [t][0], e) <==> Has(w, t, e);
  }

  lemma OneRowIsListed(w: WorldState)
    requires forall e: Entity :: Has(w, 1, e) <==> e == 1
    ensures Rows(w, READS_ONE) == ROW
  {
    RowsAre(w, READS_ONE);
    forall e: Entity ensures e in Rows(w, READS_ONE) <==> e in ROW { ListedIsHad(w, READS_ONE, 1, e); }
    SortedUnique(Rows(w, READS_ONE), ROW);
  }

  lemma NoRowIsListed(w: WorldState)
    requires forall e: Entity :: !Has(w, 2, e)
    ensures Rows(w, READS_TWO) == []
  {
    RowsAre(w, READS_TWO);
    forall e: Entity ensures e !in Rows(w, READS_TWO) { ListedIsHad(w, READS_TWO, 2, e); }
    SortedUnique(Rows(w, READS_TWO), []);
  }

  lemma OneRowIsBuilt(w: WorldState, ps: seq<Query>, e: Entity)
    requires WellBound(ps) && |ps| == 1 && Rows(w, ps[0]) == [e]
    ensures Build(w, ps, [], Paired) == [[e]]
  {
    var rows := Candidates(w, ps, [], Paired);
    assert ps[0].binding.Free?;
    assert rows == [e] && rows[1..] == [];
    assert Build(w, ps, [e], Paired) == [[e]];
    assert [] + [rows[0]] == [e];
    assert Expand(w, ps, [], rows, Paired) == Build(w, ps, [e], Paired) + Expand(w, ps, [], rows[1..], Paired);
  }

  lemma NoRowIsBuilt(w: WorldState, ps: seq<Query>)
    requires WellBound(ps) && |ps| == 1 && Rows(w, ps[0]) == []
    ensures Build(w, ps, [], Paired) == []
  {
    assert ps[0].binding.Free?;
    assert Candidates(w, ps, [], Paired) == [];
  }

  ghost predicate Stretch(sc: Schema, states: seq<Engine>, events: seq<Event>) {
    |states| == |events| + 1 && forall k :: 0 <= k < |events| ==> Takes(sc, SYSTEMS, states[k], events[k], states[k + 1])
  }

  /** Any run on from the completed phase is a run from registration on. */
  lemma VisitsThen(sc: Schema, w: WorldState, states: seq<Engine>, events: seq<Event>)
    requires Ready(sc, w) && Stretch(sc, states, events) && states[0] == Finished(sc, w)
    ensures var all := Visited(sc, w) + states[1..];
      Run(sc, SYSTEMS, all, Events(w) + events) && all[8] == Accounted(sc, w) && !AnyOpen(SYSTEMS, all[8])
      && all[9 + |events|] == states[|events|]
  {
    var all, steps := Visited(sc, w) + states[1..], Events(w) + events;
    Registers(sc, w);
    forall k | 0 <= k < |steps| ensures Takes(sc, SYSTEMS, all[k], steps[k], all[k + 1]) {
      if k < 4 {
        Departs(sc, w, k);
      } else if k < 9 {
        Arrives(sc, w, k);
      } else {
        assert all[k] == states[k - 9] && all[k + 1] == states[k - 9 + 1] && steps[k] == events[k - 9];
      }
    }
    EndsShut(sc, w);
  }

  lemma RowIsMeant(sc: Schema, w: WorldState)
    requires Ready(sc, w)
    ensures READER.Valid() && ROW in Specified(w, [READS_ONE])
  {
    SystemsAreValid();
    SpecifiedRowsAreRows(sc, w, READER, ROW);
    assert [ROW][0] == ROW;
  }

  /** The world of the witnesses: one entity, with component 1. */
  lemma WitnessIsReady()
    ensures Ready(H.Edged(), H.OneFact())
  {
    H.OneFactHolds();
    H.OneFactOwnsNothing();
    OneCarrierIsReady(H.Edged(), H.OneFact());
  }

  lemma NothingElseOnRecord(sc: Schema, w: WorldState)
    ensures OnRecord(Lost(Finished(sc, w))) == {}
  {}

  lemma DropRuns(sc: Schema, w: WorldState) returns (states: seq<Engine>, events: seq<Event>)
    requires Ready(sc, w)
    ensures Run(sc, SYSTEMS, states, events) && |events| == 10 && events[8].Complete? && events[9].Lose?
    ensures states[8] == Accounted(sc, w) && !AnyOpen(SYSTEMS, states[8]) && OnRecord(states[10]) == {}
  {
    var g := Finished(sc, w);
    Loses(sc, w);
    NothingElseOnRecord(sc, w);
    states, events := Visited(sc, w) + [g, Lost(g)][1..], Events(w) + [Lose];
    VisitsThen(sc, w, [g, Lost(g)], [Lose]);
  }

  lemma DropMisses(sc: Schema, w: WorldState) returns (states: seq<Engine>, events: seq<Event>)
    requires Ready(sc, w)
    ensures Run(sc, SYSTEMS, states, events) && |events| == 10 && events[9].Lose?
    ensures |states[10].planners| == 2 && READER.Valid() && Missed(sc, SYSTEMS, states[10], 0, ROW)
  {
    SystemsAreValid();
    RowIsMeant(sc, w);
    states, events := DropRuns(sc, w);
    LoseAfterCompletionMisses(sc, SYSTEMS, states, events, 8, 0, ROW);
  }

  /** The driver is dropped between giving up its guard and taking the lock: the row is not planned again on its own. */
  lemma DropMissesARow() returns (sc: Schema, shapes: seq<Shape>, states: seq<Engine>, events: seq<Event>, i: nat, row: seq<Entity>)
    ensures Run(sc, shapes, states, events) && |events| > 0 && events[|events| - 1].Lose?
    ensures i < |shapes| == |states[|events|].planners| && shapes[i].Valid() && Missed(sc, shapes, states[|events|], i, row)
  {
    WitnessIsReady();
    sc, shapes, i, row := H.Edged(), SYSTEMS, 0, ROW;
    states, events := DropMisses(sc, H.OneFact());
  }

  // ---- the overlap ----

  function Idle(memo: Memo): Task {
    Task(false, memo, map[], true)
  }

  function OneTook(g: Engine): Engine {
    Taken(Delivered(g), 0, false)
  }

  function BothTook(g: Engine): Engine {
    Taken(OneTook(g), 1, false)
  }

  function OneLaunched(g: Engine): Engine {
    BothTook(g).(tasks := map[0 := Idle(g.memo), 1 := Task(false, map[], map[], false)])
  }

  function BothLaunched(g: Engine): Engine {
    BothTook(g).(tasks := map[0 := Idle(g.memo), 1 := Idle(map[])])
  }

  function OneBack(g: Engine): Engine {
    Restored(BothLaunched(g), 0)
  }

  function BothBack(g: Engine): Engine {
    Restored(OneBack(g), 1)
  }

  /** From the end of a generation with nothing else going on. */
  function Pair(g: Engine): seq<Engine> {
    [g, Delivered(g), OneTook(g), BothTook(g), OneLaunched(g), BothLaunched(g), OneBack(g), BothBack(g)]
  }

  const PAIR := [Publish, Take(0, false), Take(1, false), Launch(0), Launch(1), PutBack(0), PutBack(1)]

  lemma NothingToLaunch(sc: Schema, w: WorldState, g: Engine, id: nat)
    requires Ready(sc, w) && g.world == w && g.cache == Some(w) && |g.planners| == 2 && g.flights == map[]
    requires id in g.tasks && !g.tasks[id].hooks && !g.tasks[id].launched && g.tasks[id].flights == map[]
    ensures Takes(sc, SYSTEMS, g, Launch(id), g.(tasks := g.tasks[id := Idle(g.tasks[id].memo)]))
  {
    SystemsAreValid();
    assert Snapshot(g) == w;
    NoSettleRows(sc, w, g.tasks[id].memo);
    LaunchedIdle(sc, w, g, id);
    EnabledTaken(sc, SYSTEMS, g, Launch(id));
  }

  lemma LaunchedIdle(sc: Schema, w: WorldState, g: Engine, id: nat)
    requires id in g.tasks && !g.tasks[id].hooks && Snapshot(g) == w && g.cache == Some(w) && forall i :: 0 <= i < |SYSTEMS| ==> SYSTEMS[i].Valid()
    requires SettleFlights(sc, SYSTEMS, w, g.tasks[id].memo) == map[]
    ensures Launched(sc, SYSTEMS, g, id) == g.(tasks := g.tasks[id := Idle(g.tasks[id].memo)])
  {}

  lemma NoSettleRows(sc: Schema, w: WorldState, memo: Memo)
    requires Ready(sc, w) && forall i :: 0 <= i < |SYSTEMS| ==> SYSTEMS[i].Valid()
    ensures SettleFlights(sc, SYSTEMS, w, memo) == map[]
  {
    assert SettleOwners(sc, SYSTEMS, w, memo, 1) == {} by { assert SettleOwners(sc, SYSTEMS, w, memo, 0) == {}; }
    assert Unrecorded(sc, w, SWEEPER, 1, memo, []) == {};
    assert SettleOwners(sc, SYSTEMS, w, memo, 2) == {};
  }

  /** The systems fit the engine, and nothing else goes on. */
  ghost predicate Quiescent(g: Engine, w: WorldState) {
    g.world == w && g.cache == Some(w) && |g.planners| == 2 && g.flights == map[] && g.phase.None? && g.tasks == map[]
  }

  lemma Delivers(sc: Schema, w: WorldState, g: Engine)
    requires Ready(sc, w) && Quiescent(g, w) && g.running
    ensures Takes(sc, SYSTEMS, g, Publish, Delivered(g))
  {
    SystemsAreValid();
    EnabledTaken(sc, SYSTEMS, g, Publish);
  }

  lemma OneTakes(sc: Schema, w: WorldState, g: Engine)
    requires Ready(sc, w) && Quiescent(g, w)
    ensures Takes(sc, SYSTEMS, Delivered(g), Take(0, false), OneTook(g))
  {
    SystemsAreValid();
    assert SYSTEMS[1].phase.Settle?;
    EnabledTaken(sc, SYSTEMS, Delivered(g), Take(0, false));
  }

  lemma BothTake(sc: Schema, w: WorldState, g: Engine)
    requires Ready(sc, w) && Quiescent(g, w)
    ensures Takes(sc, SYSTEMS, OneTook(g), Take(1, false), BothTook(g))
  {
    SystemsAreValid();
    assert SYSTEMS[1].phase.Settle?;
    EnabledTaken(sc, SYSTEMS, OneTook(g), Take(1, false));
  }

  /** Both settles have taken a table, and not launched; the second one's is empty. */
  lemma BothHold(g: Engine)
    requires g.tasks == map[]
    ensures var h := BothTook(g);
      && h.tasks == map[0 := Task(false, g.memo, map[], false), 1 := Task(false, map[], map[], false)]
      && h.world == g.world && h.cache == g.cache && h.planners == g.planners && h.flights == g.flights
  {}

  lemma PairOfTasks(a: Task, b: Task, c: Task)
    ensures map[0 := a, 1 := b][0 := c] == map[0 := c, 1 := b]
    ensures map[0 := a, 1 := b][1 := c] == map[0 := a, 1 := c]
  {}

  lemma OneLaunches(sc: Schema, w: WorldState, g: Engine)
    requires Ready(sc, w) && Quiescent(g, w)
    ensures Takes(sc, SYSTEMS, BothTook(g), Launch(0), OneLaunched(g))
  {
    BothHold(g);
    PairOfTasks(Task(false, g.memo, map[], false), Task(false, map[], map[], false), Idle(g.memo));
    NothingToLaunch(sc, w, BothTook(g), 0);
  }

  lemma BothLaunch(sc: Schema, w: WorldState, g: Engine)
    requires Ready(sc, w) && Quiescent(g, w)
    ensures Takes(sc, SYSTEMS, OneLaunched(g), Launch(1), BothLaunched(g))
  {
    BothHold(g);
    PairOfTasks(Idle(g.memo), Task(false, map[], map[], false), Idle(map[]));
    NothingToLaunch(sc, w, OneLaunched(g), 1);
  }

  lemma OneRestores(sc: Schema, w: WorldState, g: Engine)
    requires Ready(sc, w) && Quiescent(g, w)
    ensures Takes(sc, SYSTEMS, BothLaunched(g), PutBack(0), OneBack(g))
  {
    SystemsAreValid();
    EnabledTaken(sc, SYSTEMS, BothLaunched(g), PutBack(0));
  }

  lemma BothRestore(sc: Schema, w: WorldState, g: Engine)
    requires Ready(sc, w) && Quiescent(g, w)
    ensures Takes(sc, SYSTEMS, OneBack(g), PutBack(1), BothBack(g))
  {
    SystemsAreValid();
    EnabledTaken(sc, SYSTEMS, OneBack(g), PutBack(1));
  }

  lemma PairTakes(sc: Schema, w: WorldState, g: Engine, k: nat)
    requires Ready(sc, w) && Quiescent(g, w) && g.running && k < 3
    ensures Takes(sc, SYSTEMS, Pair(g)[k], PAIR[k], Pair(g)[k + 1])
  {
    Delivers(sc, w, g);
    OneTakes(sc, w, g);
    BothTake(sc, w, g);
  }

  lemma PairLaunches(sc: Schema, w: WorldState, g: Engine, k: nat)
    requires Ready(sc, w) && Quiescent(g, w) && 3 <= k < 5
    ensures Takes(sc, SYSTEMS, Pair(g)[k], PAIR[k], Pair(g)[k + 1])
  {
    OneLaunches(sc, w, g);
    BothLaunch(sc, w, g);
  }

  lemma PairReturns(sc: Schema, w: WorldState, g: Engine, k: nat)
    requires Ready(sc, w) && Quiescent(g, w) && 5 <= k < |PAIR|
    ensures Takes(sc, SYSTEMS, Pair(g)[k], PAIR[k], Pair(g)[k + 1])
  {
    OneRestores(sc, w, g);
    BothRestore(sc, w, g);
  }

  lemma PairIsStretch(sc: Schema, w: WorldState, g: Engine)
    requires Ready(sc, w) && Quiescent(g, w) && g.running
    ensures Stretch(sc, Pair(g), PAIR)
  {
    forall k | 0 <= k < |PAIR| ensures Takes(sc, SYSTEMS, Pair(g)[k], PAIR[k], Pair(g)[k + 1]) {
      if k < 3 { PairTakes(sc, w, g, k); } else if k < 5 { PairLaunches(sc, w, g, k); } else { PairReturns(sc, w, g, k); }
    }
  }

  predicate NobodyDropped(events: seq<Event>) {
    forall k :: 0 <= k < |events| ==> !events[k].Lose? && !events[k].Cancel? && !events[k].Abandon?
  }

  lemma OverlapEvents(w: WorldState)
    ensures var events := Events(w) + PAIR;
      |events| == 16 && events[8].Complete? && Overlap(events, 9, 0, 1) && NobodyDropped(events)
  {
    var events := Events(w) + PAIR;
    assert forall k :: 0 <= k < 7 ==> events[9 + k] == PAIR[k];
  }

  /** The run of the overlap, over any such world. */
  lemma OverlapRuns(sc: Schema, w: WorldState) returns (states: seq<Engine>, events: seq<Event>)
    requires Ready(sc, w)
    ensures Run(sc, SYSTEMS, states, events) && |events| == 16 && events[8].Complete? && Overlap(events, 9, 0, 1) && NobodyDropped(events)
    ensures states[8] == Accounted(sc, w) && !AnyOpen(SYSTEMS, states[8])
  {
    var g := Finished(sc, w);
    OverlapEvents(w);
    PairIsStretch(sc, w, g);
    states, events := Visited(sc, w) + Pair(g)[1..], Events(w) + PAIR;
    VisitsThen(sc, w, Pair(g), PAIR);
  }

  lemma OverlapMisses(sc: Schema, w: WorldState) returns (states: seq<Engine>, events: seq<Event>)
    requires Ready(sc, w)
    ensures Run(sc, SYSTEMS, states, events) && |events| == 16 && NobodyDropped(events)
    ensures |states[16].planners| == 2 && READER.Valid() && Missed(sc, SYSTEMS, states[16], 0, ROW)
  {
    SystemsAreValid();
    RowIsMeant(sc, w);
    states, events := OverlapRuns(sc, w);
    OverlapMissesAll(sc, SYSTEMS, states, events, 8, 0, 1, 0, ROW);
  }

  /** Two settles overlap, with nothing to do and nobody dropped: the row is not planned again on its own. */
  lemma OverlapMissesARow() returns (sc: Schema, shapes: seq<Shape>, states: seq<Engine>, events: seq<Event>, i: nat, row: seq<Entity>)
    ensures Run(sc, shapes, states, events) && NobodyDropped(events)
    ensures i < |shapes| == |states[|events|].planners| && shapes[i].Valid() && Missed(sc, shapes, states[|events|], i, row)
  {
    WitnessIsReady();
    sc, shapes, i, row := H.Edged(), SYSTEMS, 0, ROW;
    states, events := OverlapMisses(sc, H.OneFact());
  }
}
