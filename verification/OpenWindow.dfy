/** What may be in flight while a preemption window is open: nothing of the generation's, but the runs of other settles. */
module OpenWindows {
  import opened Ids
  import opened World
  import opened Queries
  import opened Joins
  import opened Planners
  import opened Coverage
  import opened Admission
  import opened Phases
  import opened OutsideSteps
  import opened EngineRuns
  import opened TableHolders
  import H = Handles
  import LM = LostMemos

  /** A generation is driven, and its window is open: its readers are dropped and its writers have returned. */
  predicate WindowOpen(g: Engine) {
    g.running && g.draining && g.flights == map[]
  }

  predicate AnythingInFlight(g: Engine) {
    g.flights != map[] || exists id :: id in g.tasks && g.tasks[id].flights != map[]
  }

  /** Where settles overlap neither each other nor a generation, a mutation that waits for the window finds nothing in flight. */
  lemma AloneWindowIsQuiet(sc: Schema, shapes: seq<Shape>, states: seq<Engine>, events: seq<Event>, k: nat)
    requires Run(sc, shapes, states, events) && k <= |events| && WindowOpen(states[k])
    requires forall m :: 0 <= m < k ==> Alone(states[m], events[m])
    ensures !AnythingInFlight(states[k])
  {
    AloneRuns(sc, shapes, states, events, k);
  }

  // ---- a settle in flight behind an open window ----

  const SWEEPER := Shape([LM.READS_ONE], [], [], Settle)

  const SWEEPERS := [SWEEPER]

  const SWEEP := Owner(0, LM.ROW)

  /** A world in which the sweeper has one row. */
  ghost predicate Swept(sc: Schema, w: WorldState) {
    && sc.Valid() && Inv(sc, w, {}) && States(w, [LM.READS_ONE]) == [LM.ROW]
    && w.removedEntities == [] && w.removedOwners == [] && w.removedComponentOwners == []
  }

  function Registered(w: WorldState): Engine {
    Engine(w, [FRESH], map[], map[], false, map[], map[], None, None, None, false, false, false, false, false, false, {})
  }

  function Sweeping(w: WorldState): Engine {
    Registered(w).(cache := Some(w), tasks := map[0 := Task(false, map[], map[SWEEP := w], true)])
  }

  function Overtaken(w: WorldState): Engine {
    Sweeping(w).(running := true)
  }

  function Entered(w: WorldState): Engine {
    Overtaken(w).(phase := Some(Evaluate), needsPlan := true)
  }

  function Opened(w: WorldState): Engine {
    Entered(w).(draining := true)
  }

  lemma SweeperIsValid()
    ensures SWEEPER.Valid() && forall i :: 0 <= i < |SWEEPERS| ==> SWEEPERS[i].Valid()
  {}

  lemma SettleTakes(sc: Schema, w: WorldState)
    requires Swept(sc, w)
    ensures Initial(sc, SWEEPERS, Registered(w)) && Takes(sc, SWEEPERS, Registered(w), Take(0, false), Taken(Registered(w), 0, false))
  {
    SweeperIsValid();
    assert Registered(w).planners == seq(|SWEEPERS|, _ => FRESH);
    assert SWEEPERS[0].phase.Settle?;
    EnabledTaken(sc, SWEEPERS, Registered(w), Take(0, false));
  }

  lemma Launches(sc: Schema, w: WorldState)
    requires Swept(sc, w)
    ensures Takes(sc, SWEEPERS, Taken(Registered(w), 0, false), Launch(0), Sweeping(w))
  {
    SweeperIsValid();
    LaunchSweeps(sc, w);
    EnabledTaken(sc, SWEEPERS, Taken(Registered(w), 0, false), Launch(0));
  }

  lemma LaunchSweeps(sc: Schema, w: WorldState)
    requires Swept(sc, w) && forall i :: 0 <= i < |SWEEPERS| ==> SWEEPERS[i].Valid()
    ensures Launched(sc, SWEEPERS, Taken(Registered(w), 0, false), 0) == Sweeping(w)
  {
    SweptRow(sc, w);
    assert Taken(Registered(w), 0, false).tasks[0] == Task(false, map[], map[], false);
  }

  lemma SweptRow(sc: Schema, w: WorldState)
    requires Swept(sc, w) && forall i :: 0 <= i < |SWEEPERS| ==> SWEEPERS[i].Valid()
    ensures SettleFlights(sc, SWEEPERS, w, map[]) == map[SWEEP := w]
  {
    assert SettleOwners(sc, SWEEPERS, w, map[], 0) == {};
    assert LM.ROW in [LM.ROW];
    assert Unrecorded(sc, w, SWEEPER, 0, map[], [LM.ROW]) == {SWEEP};
    assert SettleOwners(sc, SWEEPERS, w, map[], 1) == {SWEEP};
  }

  lemma Starts(sc: Schema, w: WorldState)
    requires Swept(sc, w)
    ensures Takes(sc, SWEEPERS, Sweeping(w), Start(w), Overtaken(w))
  {
    SweeperIsValid();
    EvolvesReflexive(sc, w);
    assert Forget(map[], []) == map[];
    assert Reconciled(SWEEPERS, w, map[], [FRESH]) == Account(w, map[], [FRESH]);
    EnabledTaken(sc, SWEEPERS, Sweeping(w), Start(w));
  }

  lemma Enters(sc: Schema, w: WorldState)
    ensures Takes(sc, SWEEPERS, Overtaken(w), Enter(Evaluate), Entered(w))
  {
    SweeperIsValid();
    EnabledTaken(sc, SWEEPERS, Overtaken(w), Enter(Evaluate));
  }

  lemma Preempts(sc: Schema, w: WorldState)
    ensures Takes(sc, SWEEPERS, Entered(w), Preempt, Opened(w))
  {
    SweeperIsValid();
    assert WritersOnly(SWEEPERS, map[]) == map[];
    EnabledTaken(sc, SWEEPERS, Entered(w), Preempt);
  }

  function Visited(w: WorldState): seq<Engine> {
    [Registered(w), Taken(Registered(w), 0, false), Sweeping(w), Overtaken(w), Entered(w), Opened(w)]
  }

  function Events(w: WorldState): seq<Event> {
    [Take(0, false), Launch(0), Start(w), Enter(Evaluate), Preempt]
  }

  /**
   One settle is running its phase when another drives a generation that is preempted: the window opens, and a mutation
   may land, while the settle's run is in flight.
   */
  lemma WindowFindsSettleRun(sc: Schema, w: WorldState, w': WorldState)
    requires Swept(sc, w) && Drifts(sc, w, w')
    ensures Run(sc, SWEEPERS, Visited(w), Events(w)) && WindowOpen(Visited(w)[5]) && AnythingInFlight(Visited(w)[5])
    ensures Enabled(sc, SWEEPERS, Visited(w)[5], Move(w')) && SWEEP in Visited(w)[5].tasks[0].flights
  {
    SettleTakes(sc, w);
    Launches(sc, w);
    Starts(sc, w);
    Enters(sc, w);
    Preempts(sc, w);
    assert 0 in Opened(w).tasks && Opened(w).tasks[0].flights == map[SWEEP := w];
    assert SWEEP in Opened(w).tasks[0].flights;
  }

  /** There is such a world. */
  lemma OneFactIsSwept()
    ensures Swept(H.Edged(), H.OneFact())
  {
    LM.WitnessIsReady();
  }
}
