/**
 When a queued input reaches the world, over every run: at the next start of a generation and no sooner, whatever
 preemptions come in between.
 */
module InputRuns {
  import opened Ids
  import opened Epochs

  predicate StartsWithin(events: seq<Event>, j: nat, k: nat) {
    exists m :: j <= m < k && m < |events| && events[m].Start?
  }

  /** The steps by which a driver lets go of its generation. A preemption, or the restart after it, is not one. */
  predicate LetsGo(ev: Event) {
    ev.Publish? || ev.DropArmed? || ev.DropDisarmed?
  }

  lemma QueueOnlyGrows(i: Inputs, ev: Event)
    requires (ev.Promote? ==> ev.id in i.settlers) && !ev.Start?
    ensures NextInputs(i, ev).applied == i.applied && i.queued <= NextInputs(i, ev).queued
  {}

  /** Without a start nothing is applied, and what is queued stays queued in its place. */
  lemma {:induction false} QueueWaits(states: seq<State>, events: seq<Event>, j: nat, k: nat)
    requires Run(states, events) && j <= k <= |events| && !StartsWithin(events, j, k)
    ensures states[k].inputs.applied == states[j].inputs.applied && states[j].inputs.queued <= states[k].inputs.queued
    decreases k - j
  {
    if j < k {
      QueueWaits(states, events, j, k - 1);
      QueueOnlyGrows(states[k - 1].inputs, events[k - 1]);
    }
  }

  lemma {:induction false} AppliedOnlyGrows(states: seq<State>, events: seq<Event>, j: nat, k: nat)
    requires Run(states, events) && j <= k <= |events|
    ensures states[j].inputs.applied <= states[k].inputs.applied
    decreases k - j
  {
    if j < k {
      AppliedOnlyGrows(states, events, j, k - 1);
      if !events[k - 1].Start? { QueueOnlyGrows(states[k - 1].inputs, events[k - 1]); }
    }
  }

  lemma {:induction false} FirstStart(events: seq<Event>, j: nat, k: nat) returns (m: nat)
    requires j <= k <= |events| && StartsWithin(events, j, k)
    ensures j <= m < k && events[m].Start? && !StartsWithin(events, j, m)
    decreases k - j
  {
    if StartsWithin(events, j, k - 1) { m := FirstStart(events, j, k - 1); } else { m := k - 1; }
  }

  /** A queued input has been applied, in its turn behind what was applied before, exactly if a generation has started since. */
  lemma AppliedIffStarted(states: seq<State>, events: seq<Event>, j: nat, k: nat, p: nat)
    requires Run(states, events) && j <= k <= |events| && p < |states[j].inputs.queued|
    ensures var at := |states[j].inputs.applied| + p;
      && (at < |states[k].inputs.applied| <==> StartsWithin(events, j, k))
      && (at < |states[k].inputs.applied| ==> states[k].inputs.applied[at] == states[j].inputs.queued[p])
  {
    if StartsWithin(events, j, k) {
      var m := FirstStart(events, j, k);
      QueueWaits(states, events, j, m);
      assert states[m + 1].inputs.applied == states[m].inputs.applied + states[m].inputs.queued;
      AppliedOnlyGrows(states, events, m + 1, k);
    } else {
      QueueWaits(states, events, j, k);
    }
  }

  /** A driven generation stays driven until its driver lets go. */
  lemma {:induction false} DriverStays(states: seq<State>, events: seq<Event>, j: nat, k: nat)
    requires Run(states, events) && j <= k <= |events| && !states[j].gens.driver.Idle?
    requires forall m :: j <= m < k ==> !LetsGo(events[m])
    ensures !states[k].gens.driver.Idle? && !StartsWithin(events, j, k)
    decreases k - j
  {
    if j < k {
      DriverStays(states, events, j, k - 1);
      assert !LetsGo(events[k - 1]) && Enabled(states[k - 1], events[k - 1]);
      forall m | j <= m < k ensures !events[m].Start? {}
    }
  }

  /** So no input queued under a running generation is applied by it, however often it is preempted and restarted. */
  lemma RestartsApplyNothing(states: seq<State>, events: seq<Event>, j: nat, k: nat, p: nat)
    requires Run(states, events) && j <= k <= |events| && p < |states[j].inputs.queued| && !states[j].gens.driver.Idle?
    requires |states[j].inputs.applied| + p < |states[k].inputs.applied|
    ensures exists m :: j <= m < k && LetsGo(events[m]) && StartsWithin(events, m, k)
  {
    AppliedIffStarted(states, events, j, k, p);
    var n := FirstStart(events, j, k);
    assert Enabled(states[n], events[n]);
    if forall m :: j <= m < n ==> !LetsGo(events[m]) {
      DriverStays(states, events, j, n);
      assert false;
    }
    var m :| j <= m < n && LetsGo(events[m]);
    assert StartsWithin(events, m, k);
  }

  // ---- what waiting for a number is good for ----

  predicate PublishesWithin(events: seq<Event>, j: nat, k: nat) {
    exists m :: j <= m < k && m < |events| && events[m].Publish?
  }

  lemma {:induction false} PendingWaits(states: seq<State>, events: seq<Event>, j: nat, k: nat)
    requires Run(states, events) && j <= k <= |events| && !StartsWithin(events, j, k) && states[j].gens.pending.Some?
    ensures states[k].gens.pending == states[j].gens.pending
    decreases k - j
  {
    if j < k {
      PendingWaits(states, events, j, k - 1);
      assert !events[k - 1].Start?;
    }
  }

  lemma {:induction false} CompletedWaits(states: seq<State>, events: seq<Event>, j: nat, k: nat)
    requires Run(states, events) && j <= k <= |events| && !PublishesWithin(events, j, k)
    ensures states[k].gens.completed == states[j].gens.completed
    decreases k - j
  {
    if j < k {
      CompletedWaits(states, events, j, k - 1);
      assert !events[k - 1].Publish?;
    }
  }

  /**
   Over every run: once the number outstanding at some moment is completed, every input that was queued then has been
   applied in its turn, and a generation that was pending or running then has been followed through to a publication. With
   none the number is completed already.
   */
  lemma OutstandingIsEnough(states: seq<State>, events: seq<Event>, j: nat, k: nat)
    requires Run(states, events) && j <= k <= |events| && states[k].gens.completed >= Outstanding(states[j].gens)
    ensures states[j].inputs.applied + states[j].inputs.queued <= states[k].inputs.applied
    ensures states[j].gens.pending.Some? ==> StartsWithin(events, j, k)
    ensures states[j].gens.pending.Some? || states[j].gens.running.Some? ==> PublishesWithin(events, j, k)
    ensures states[j].gens.pending.None? && states[j].gens.running.None? ==> Outstanding(states[j].gens) == states[j].gens.completed
  {
    Epochs.RunKeepsOk(states, events, j);
    Epochs.RunKeepsOk(states, events, k);
    if !PublishesWithin(events, j, k) { CompletedWaits(states, events, j, k); }
    if states[j].gens.pending.Some? {
      if !StartsWithin(events, j, k) {
        PendingWaits(states, events, j, k);
        assert false;
      }
      var m := FirstStart(events, j, k);
      QueueWaits(states, events, j, m);
      assert states[m + 1].inputs.applied == states[m].inputs.applied + states[m].inputs.queued;
      AppliedOnlyGrows(states, events, m + 1, k);
    } else {
      AppliedOnlyGrows(states, events, j, k);
    }
  }

  /**
   What a caller is handed: a queued insert the number outstanding right after it, a deferred one the number completed, and
   a caller with nothing to add the number outstanding.
   */
  lemma HandsOutstanding(s: State, ev: Event)
    requires Enabled(s, ev) && (ev.Insert? || ev.Target?)
    ensures var t := Next(s, ev);
      t.gens.handed == s.gens.handed + {if ev.Target? || JoinsQueue(s.inputs, ev.input) then Outstanding(t.gens) else s.gens.completed}
  {}

  // ---- a preempting input that outlives the generation it preempted ----

  const FIRST := Input(0, false)
  const URGENT := Input(1, true)

  /** Generation 1 is scheduled for the first input, then running, then running with generation 2 scheduled behind it. */
  const SCHEDULED := FRESH.gens.(pending := Some(1), handed := {1})
  const RUNNING := Generations(None, Some(1), 0, 2, [], Driving, {1})
  const OUTRUN := RUNNING.(pending := Some(2), handed := {1, 2})
  const PUBLISHED := OUTRUN.(driver := Idle, completed := 1, running := None)

  const QUEUED := FRESH.inputs.(queued := [FIRST], accepted := [FIRST])
  const APPLIED := QUEUED.(queued := [], applied := [FIRST])
  const SETTLING := APPLIED.(settlers := map[0 := 0])
  const REQUEUED := SETTLING.(queued := [URGENT], accepted := [FIRST, URGENT])

  const ASKED := FRESH.runs.(asking := 1)
  const DRAINING := ASKED.(draining := true)
  const OPENED := DRAINING.(window := true)

  lemma StartsAndIsPreempted()
    ensures Next(FRESH, Insert(FIRST)) == State(SCHEDULED, QUEUED, FRESH.runs)
    ensures Next(State(SCHEDULED, QUEUED, FRESH.runs), Start) == State(RUNNING, APPLIED, FRESH.runs)
    ensures Next(State(RUNNING, APPLIED, FRESH.runs), Enter(0)) == State(RUNNING, SETTLING, FRESH.runs)
    ensures Next(State(RUNNING, SETTLING, FRESH.runs), Ask) == State(RUNNING, SETTLING, ASKED)
    ensures Next(State(RUNNING, SETTLING, ASKED), BeginPreempt) == State(RUNNING, SETTLING, DRAINING)
    ensures Next(State(RUNNING, SETTLING, DRAINING), OpenWindow) == State(RUNNING, SETTLING, OPENED)
  {}

  lemma QueuesAndRestarts()
    ensures Next(State(RUNNING, SETTLING, OPENED), Insert(URGENT)) == State(OUTRUN, REQUEUED, OPENED)
    ensures Next(State(OUTRUN, REQUEUED, OPENED), Unask) == State(OUTRUN, REQUEUED, OPENED.(asking := 0))
    ensures Next(State(OUTRUN, REQUEUED, OPENED.(asking := 0)), CloseWindow) == State(OUTRUN, REQUEUED, FRESH.runs)
    ensures Next(State(OUTRUN, REQUEUED, FRESH.runs), Disarm) == State(OUTRUN.(driver := Publishing), REQUEUED, FRESH.runs)
    ensures Next(State(OUTRUN.(driver := Publishing), REQUEUED, FRESH.runs), Publish) == State(PUBLISHED, REQUEUED, FRESH.runs)
  {}

  const VISITED := [
    FRESH, State(SCHEDULED, QUEUED, FRESH.runs), State(RUNNING, APPLIED, FRESH.runs), State(RUNNING, SETTLING, FRESH.runs),
    State(RUNNING, SETTLING, ASKED), State(RUNNING, SETTLING, DRAINING), State(RUNNING, SETTLING, OPENED),
    State(OUTRUN, REQUEUED, OPENED), State(OUTRUN, REQUEUED, OPENED.(asking := 0)), State(OUTRUN, REQUEUED, FRESH.runs),
    State(OUTRUN.(driver := Publishing), REQUEUED, FRESH.runs), State(PUBLISHED, REQUEUED, FRESH.runs)]

  const PREEMPTING := [Insert(FIRST), Start, Enter(0), Ask, BeginPreempt, OpenWindow, Insert(URGENT), Unask, CloseWindow, Disarm, Publish]

  lemma VisitedInTurn(k: nat)
    requires k < |PREEMPTING|
    ensures Enabled(VISITED[k], PREEMPTING[k]) && VISITED[k + 1] == Next(VISITED[k], PREEMPTING[k])
  {
    if k < 6 { StartsAndIsPreempted(); } else { QueuesAndRestarts(); }
  }

  /** The restarted generation publishes, and the input that preempted it is still queued for the next. */
  lemma PreemptingInputOutlivesGeneration() returns (states: seq<State>, events: seq<Event>, j: nat)
    ensures Run(states, events) && j < |events|
    ensures events[j] == Insert(URGENT) && states[j].gens.driver.Driving? && states[j].runs.window
    ensures states[j].gens.running == Some(1) && events[|events| - 1].Publish? && states[|events|].gens.completed == 1
    ensures states[|events|].inputs.queued == [URGENT] && URGENT !in states[|events|].inputs.applied
  {
    states, events, j := VISITED, PREEMPTING, 6;
    forall k | 0 <= k < |events| ensures Enabled(states[k], events[k]) && states[k + 1] == Next(states[k], events[k]) {
      VisitedInTurn(k);
    }
  }
}
