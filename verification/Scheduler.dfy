/** The shared state's own methods, each carrying out a step of `Epochs`, and the phase loop with its budget. */
module Scheduling {
  import opened Ids
  import opened Planners
  import E = Epochs

  /** The fields behind the state lock that queue inputs and number generations. */
  class SharedState {
    var pendingGeneration: Option<nat>
    var runningGeneration: Option<nat>
    var completedGeneration: nat
    var nextGeneration: nat
    var waiters: seq<nat>
    var driver: E.Driver
    var pendingInputs: seq<E.Input>
    var deferredInputs: seq<(nat, E.Input)>
    var inputSeq: nat
    var settlers: map<nat, nat>
    ghost var handed: set<nat>
    ghost var accepted: seq<E.Input>
    ghost var applied: seq<E.Input>

    ghost function Gens(): E.Generations
      reads this
    {
      E.Generations(pendingGeneration, runningGeneration, completedGeneration, nextGeneration, waiters, driver, handed)
    }

    ghost function Queues(): E.Inputs
      reads this
    {
      E.Inputs(pendingInputs, deferredInputs, inputSeq, settlers, accepted, applied)
    }

    constructor ()
      ensures Gens() == E.FRESH.gens && Queues() == E.FRESH.inputs
    {
      pendingGeneration, runningGeneration, completedGeneration, nextGeneration, waiters, driver := None, None, 0, 1, [], E.Idle;
      pendingInputs, deferredInputs, inputSeq, settlers := [], [], 0, map[];
      handed, accepted, applied := {}, [], [];
    }

    /** `get_or_insert(next_generation)`. */
    method Schedule()
      modifies this`pendingGeneration
      ensures Gens() == E.Scheduled(old(Gens()))
    {
      if pendingGeneration.None? {
        pendingGeneration := Some(nextGeneration);
      }
    }

    /** Queues or defers one input, and returns the generation its caller may wait for. */
    method Insert(input: E.Input) returns (generation: nat)
      modifies this
      ensures Queues() == E.NextInputs(old(Queues()), E.Insert(input))
      ensures Gens() == E.NextGens(old(Gens()), E.Insert(input), E.JoinsQueue(old(Queues()), input))
      ensures generation in handed
    {
      accepted := accepted + [input];
      if settlers == map[] || input.preempting {
        pendingInputs := pendingInputs + [input];
        Schedule();
        generation := pendingGeneration.value;
      } else {
        inputSeq := inputSeq + 1;
        deferredInputs := deferredInputs + [(inputSeq, input)];
        generation := completedGeneration;
      }
      handed := handed + {generation};
    }

    method EnterEpoch(id: nat)
      requires id !in settlers
      modifies this`settlers
      ensures Queues() == E.NextInputs(old(Queues()), E.Enter(id))
    {
      settlers := settlers[id := inputSeq];
    }

    /** Pops covered inputs off the front one by one; says whether there were any. */
    method PromoteDeferredInputs(watermark: Option<nat>) returns (promoted: bool)
      modifies this`pendingInputs, this`deferredInputs, this`pendingGeneration
      ensures Queues() == E.Promoted(old(Queues()), watermark)
      ensures promoted <==> E.Covered(old(deferredInputs), watermark) > 0
      ensures Gens() == if promoted then E.Scheduled(old(Gens())) else old(Gens())
    {
      promoted := false;
      ghost var before := Queues();
      ghost var n: nat := 0;
      while deferredInputs != [] && (watermark.None? || deferredInputs[0].0 <= watermark.value)
        invariant n <= |before.deferred| && deferredInputs == before.deferred[n..]
        invariant pendingInputs == before.queued + E.Values(before.deferred[..n])
        invariant E.Covered(before.deferred, watermark) == n + E.Covered(deferredInputs, watermark)
        invariant promoted <==> n > 0
        invariant Gens() == old(Gens())
        invariant Queues() == before.(queued := pendingInputs, deferred := deferredInputs)
        decreases |deferredInputs|
      {
        var head := deferredInputs[0];
        assert before.deferred[n] == head && deferredInputs[1..] == before.deferred[n + 1..];
        assert E.Values(before.deferred[..n + 1]) == E.Values(before.deferred[..n]) + [head.1];
        deferredInputs := deferredInputs[1..];
        pendingInputs := pendingInputs + [head.1];
        promoted := true;
        n := n + 1;
      }
      if promoted {
        Schedule();
      }
    }

    method LeaveEpoch(id: nat)
      requires id in settlers
      modifies this`settlers, this`pendingInputs, this`deferredInputs, this`pendingGeneration
      ensures Queues() == E.NextInputs(old(Queues()), E.Leave(id))
      ensures Gens() == E.NextGens(old(Gens()), E.Leave(id), |pendingInputs| > |old(pendingInputs)|)
    {
      settlers := settlers - {id};
      if settlers == map[] {
        ghost var n := E.Covered(deferredInputs, None);
        var _ := PromoteDeferredInputs(None);
        assert |pendingInputs| == |old(pendingInputs)| + n;
      }
    }

    /** Registers for a completion, unless the target is reached already. */
    method WaitForGeneration(target: nat) returns (waiting: bool)
      modifies this`waiters
      ensures Gens() == E.NextGens(old(Gens()), E.Wait(target), false) && waiting == (completedGeneration < target)
    {
      waiting := completedGeneration < target;
      if waiting {
        waiters := waiters + [target];
      }
    }

    /** Takes the pending generation, if there is one, and drains the queue into the world. */
    method StartEvaluation() returns (generation: Option<nat>)
      requires driver.Idle?
      modifies this
      ensures generation == old(pendingGeneration)
      ensures generation.None? ==> Gens() == old(Gens()) && Queues() == old(Queues())
      ensures generation.Some? ==> Gens() == E.NextGens(old(Gens()), E.Start, false) && Queues() == E.NextInputs(old(Queues()), E.Start)
    {
      generation := pendingGeneration;
      if generation.None? {
        return;
      }
      pendingGeneration := None;
      applied := applied + pendingInputs;
      pendingInputs := [];
      runningGeneration := generation;
      nextGeneration := generation.value + 1;
      driver := E.Driving;
    }

    /** Stores a finished generation's result and releases the waiters it satisfies. */
    method FinishEvaluation() returns (satisfied: seq<nat>)
      requires driver.Publishing? && runningGeneration.Some?
      modifies this
      ensures Gens() == E.NextGens(old(Gens()), E.Publish, false) && Queues() == old(Queues())
      ensures forall t :: t in satisfied <==> t in old(waiters) && t <= completedGeneration
    {
      completedGeneration := runningGeneration.value;
      runningGeneration := None;
      driver := E.Idle;
      satisfied := [];
      var kept: seq<nat>, n := [], |waiters|;
      while n > 0
        invariant 0 <= n <= |waiters|
        invariant kept == E.Above(waiters[n..], completedGeneration)
        invariant forall t :: t in satisfied <==> t in waiters[n..] && t <= completedGeneration
      {
        n := n - 1;
        assert waiters[n..] == [waiters[n]] + waiters[n + 1..];
        if waiters[n] <= completedGeneration {
          satisfied := [waiters[n]] + satisfied;
        } else {
          kept := [waiters[n]] + kept;
        }
      }
      assert waiters[0..] == waiters;
      waiters := kept;
    }

    /** `EvaluationGuard::drop` on an armed guard: the generation goes back, and every waiter is woken to drive it. */
    method AbandonEvaluation() returns (woken: seq<nat>)
      requires driver.Driving? && runningGeneration.Some?
      modifies this
      ensures Gens() == E.NextGens(old(Gens()), E.DropArmed, false) && Queues() == old(Queues()) && woken == old(waiters)
    {
      if pendingGeneration.None? {
        pendingGeneration := runningGeneration;
      }
      runningGeneration := None;
      driver := E.Idle;
      woken := waiters;
      waiters := [];
    }
  }

  // ---- one generation's phases ----

  const PREEMPTION_BUDGET := 4

  function Ordered(startup: bool): seq<Phase> {
    if startup then [Startup, Evaluate, Complete] else [Evaluate, Complete]
  }

  /** One call of the phase loop and how it came back. */
  datatype Call = Call(phase: Phase, preempted: bool)

  /** How many of the first `n` calls were cut short. */
  function Preemptions(calls: seq<Call>, n: nat): nat
    requires n <= |calls|
  {
    if n == 0 then 0 else Preemptions(calls, n - 1) + if calls[n - 1].preempted then 1 else 0
  }

  function Completions(phases: seq<Phase>): seq<Call> {
    seq(|phases|, i requires 0 <= i < |phases| => Call(phases[i], false))
  }

  /**
   What comes after a call: startup after one cut short, evaluate after startup, complete after evaluate, and nothing after
   complete. A generation opens with startup if it is to have one, and else with evaluate.
   */
  predicate ComesAfter(startup: bool, before: Option<Call>, phase: Phase) {
    match before
    case None => phase == if startup then Startup else Evaluate
    case Some(call) =>
      if call.preempted then phase.Startup? else (call.phase.Startup? && phase.Evaluate?) || (call.phase.Evaluate? && phase.Complete?)
  }

  function Before(calls: seq<Call>, n: nat): Option<Call>
    requires n <= |calls|
  {
    if n == 0 then None else Some(calls[n - 1])
  }

  ghost predicate InOrder(startup: bool, calls: seq<Call>) {
    forall n :: 0 <= n < |calls| ==> ComesAfter(startup, Before(calls, n), calls[n].phase)
  }

  /** The calls so far are in order, and the next one to make, if there is one, comes after them. */
  ghost predicate Poised(startup: bool, calls: seq<Call>, phases: seq<Phase>, index: nat) {
    && InOrder(startup, calls) && index <= |phases|
    && (index < |phases| ==> ComesAfter(startup, Before(calls, |calls|), phases[index]))
    && (index == |phases| ==> calls != [] && calls[|calls| - 1] == Call(Complete, false))
  }

  lemma PoisedNext(startup: bool, calls: seq<Call>, again: bool, index: nat, call: Call)
    requires Poised(startup, calls, Ordered(again), index) && index < |Ordered(again)| && call.phase == Ordered(again)[index]
    ensures call.preempted ==> Poised(startup, calls + [call], Ordered(true), 0)
    ensures !call.preempted ==> Poised(startup, calls + [call], Ordered(again), index + 1)
  {
    var next := calls + [call];
    forall n | 0 <= n < |next| ensures ComesAfter(startup, Before(next, n), next[n].phase) {
      assert Before(next, n) == Before(calls, n);
      if n < |calls| { assert next[n] == calls[n]; }
    }
  }

  /** A call is cut short exactly when someone asked and the budget was not spent. */
  ghost predicate Heeds(calls: seq<Call>, asked: nat -> bool) {
    forall n :: 0 <= n < |calls| ==> calls[n].preempted == (asked(n) && Preemptions(calls, n) < PREEMPTION_BUDGET)
  }

  lemma {:induction false} PreemptionsPrefix(calls: seq<Call>, call: Call, n: nat)
    requires n <= |calls|
    ensures Preemptions(calls + [call], n) == Preemptions(calls, n)
  {
    if n > 0 { PreemptionsPrefix(calls, call, n - 1); }
  }

  lemma HeedsNext(calls: seq<Call>, asked: nat -> bool, call: Call)
    requires Heeds(calls, asked) && call.preempted == (asked(|calls|) && Preemptions(calls, |calls|) < PREEMPTION_BUDGET)
    ensures Heeds(calls + [call], asked)
  {
    var next := calls + [call];
    forall n | 0 <= n < |next| ensures next[n].preempted == (asked(n) && Preemptions(next, n) < PREEMPTION_BUDGET) {
      PreemptionsPrefix(calls, call, n);
      if n < |calls| { assert next[n] == calls[n]; }
    }
  }

  lemma PreemptionsNext(calls: seq<Call>, call: Call)
    ensures Preemptions(calls + [call], |calls| + 1) == Preemptions(calls, |calls|) + if call.preempted then 1 else 0
  {
    PreemptionsPrefix(calls, call, |calls|);
  }

  lemma CompletionsNext(cut: seq<Call>, phases: seq<Phase>, index: nat)
    requires index < |phases|
    ensures cut + Completions(phases[..index]) + [Call(phases[index], false)] == cut + Completions(phases[..index + 1])
  {
    assert phases[..index + 1] == phases[..index] + [phases[index]];
  }

  /** Where the loop stands: what has been called, and the phases of the pass it is in. */
  ghost predicate Underway(startup: bool, asked: nat -> bool, calls: seq<Call>, wasted: seq<Call>, index: nat, preemptions: nat) {
    var phases := Ordered(startup || wasted != []);
    && Poised(startup, calls, phases, index) && Heeds(calls, asked)
    && preemptions == Preemptions(calls, |calls|) <= PREEMPTION_BUDGET
    && calls == wasted + Completions(phases[..index]) && |wasted| <= 3 * preemptions
  }

  lemma CutShort(startup: bool, asked: nat -> bool, calls: seq<Call>, wasted: seq<Call>, index: nat, preemptions: nat, call: Call)
    requires Underway(startup, asked, calls, wasted, index, preemptions) && preemptions < PREEMPTION_BUDGET
    requires index < |Ordered(startup || wasted != [])| && call == Call(Ordered(startup || wasted != [])[index], true) && asked(|calls|)
    ensures Underway(startup, asked, calls + [call], calls + [call], 0, preemptions + 1)
  {
    HeedsNext(calls, asked, call);
    PreemptionsNext(calls, call);
    PoisedNext(startup, calls, startup || wasted != [], index, call);
    assert |Completions(Ordered(startup || wasted != [])[..index])| == index <= 2;
    assert Completions(Ordered(true)[..0]) == [] && (calls + [call]) + [] == calls + [call];
  }

  lemma RanThrough(startup: bool, asked: nat -> bool, calls: seq<Call>, wasted: seq<Call>, index: nat, preemptions: nat, call: Call)
    requires Underway(startup, asked, calls, wasted, index, preemptions) && !(preemptions < PREEMPTION_BUDGET && asked(|calls|))
    requires index < |Ordered(startup || wasted != [])| && call == Call(Ordered(startup || wasted != [])[index], false)
    ensures Underway(startup, asked, calls + [call], wasted, index + 1, preemptions)
  {
    HeedsNext(calls, asked, call);
    PreemptionsNext(calls, call);
    PoisedNext(startup, calls, startup || wasted != [], index, call);
    CompletionsNext(wasted, Ordered(startup || wasted != []), index);
  }

  lemma AllRanThrough(startup: bool, asked: nat -> bool, calls: seq<Call>, wasted: seq<Call>, index: nat, preemptions: nat)
    requires Underway(startup, asked, calls, wasted, index, preemptions) && index == |Ordered(startup || wasted != [])|
    ensures InOrder(startup, calls) && calls != [] && calls[|calls| - 1] == Call(Complete, false)
    ensures calls == wasted + Completions(Ordered(startup || wasted != []))
    ensures |wasted| <= 3 * preemptions && |calls| <= |wasted| + 3
  {
    assert Ordered(startup || wasted != [])[..index] == Ordered(startup || wasted != []);
  }

  /**
   The loop of `run_evaluation`. `asked(n)` says whether a mutator is asking at the n-th call; past the budget no
   one is heard. However often it is interrupted, the generation ends with one uninterrupted pass over its phases,
   from the startup slot if it ever restarted. Each interruption wastes at most three calls, so there are at most
   `3 * (PREEMPTION_BUDGET + 1)` in all.
   */
  method RunPhases(startup: bool, asked: nat -> bool) returns (calls: seq<Call>, ghost wasted: seq<Call>)
    ensures Heeds(calls, asked)
    ensures calls == wasted + Completions(Ordered(startup || wasted != []))
    ensures InOrder(startup, calls) && calls != [] && calls[|calls| - 1] == Call(Complete, false)
    ensures Preemptions(calls, |calls|) <= PREEMPTION_BUDGET && |wasted| <= 3 * Preemptions(calls, |calls|)
    ensures |calls| <= 3 * (PREEMPTION_BUDGET + 1) == 15
  {
    var phases := Ordered(startup);
    var index, preemptions := 0, 0;
    calls, wasted := [], [];
    assert Completions(phases[..0]) == [];
    while index < |phases|
      invariant index <= |phases| && phases == Ordered(startup || wasted != [])
      invariant Underway(startup, asked, calls, wasted, index, preemptions)
      decreases PREEMPTION_BUDGET - preemptions, |phases| - index
    {
      var allowPreempt := preemptions < PREEMPTION_BUDGET;
      var call := Call(phases[index], allowPreempt && asked(|calls|));
      if call.preempted {
        CutShort(startup, asked, calls, wasted, index, preemptions, call);
        calls, preemptions := calls + [call], preemptions + 1;
        phases, index, wasted := Ordered(true), 0, calls;
      } else {
        RanThrough(startup, asked, calls, wasted, index, preemptions, call);
        calls, index := calls + [call], index + 1;
      }
    }
    AllRanThrough(startup, asked, calls, wasted, index, preemptions);
  }
}
