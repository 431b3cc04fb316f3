/**
 Epochs, generations and preemption: one atomic step per section of code that holds the state lock. Inputs that
 arrive while a settle is active wait for the next epoch; one driver at a time runs a generation; external
 mutations wait for a boundary.
 */
module Epochs {
  import opened Ids

  datatype Input = Input(id: nat, preempting: bool)

  /** An invocation in flight. */
  datatype Flight = Flight(id: nat, writer: bool)

  /** `Publishing` is the stretch in which the evaluation guard is already disarmed but the result not yet stored. */
  datatype Driver = Idle | Driving | Publishing

  /** Generation bookkeeping. `handed` is history: every generation number given to a caller. */
  datatype Generations = Generations(
    pending: Option<nat>, running: Option<nat>, completed: nat, next: nat, waiters: seq<nat>, driver: Driver, handed: set<nat>)

  /** Queued inputs; `settlers` holds the entry watermark of each active settle. `accepted` and `applied` are history. */
  datatype Inputs = Inputs(
    queued: seq<Input>, deferred: seq<(nat, Input)>, tag: nat, settlers: map<nat, nat>, accepted: seq<Input>, applied: seq<Input>)

  /** Runs in flight and the preemption window; `asking` counts registered waiters. `dropped` and `returned` are history. */
  datatype Runs = Runs(
    flights: set<Flight>, launched: nat, draining: bool, window: bool, asking: nat, dropped: set<nat>, returned: set<nat>)

  datatype State = State(gens: Generations, inputs: Inputs, runs: Runs)

  datatype Event =
    | Insert(input: Input)
    | Mutate(changed: bool)
    | Ask
    | Unask
    | Enter(id: nat)
    | Promote(id: nat)
    | Leave(id: nat)
    | Target
    | Enqueue
    | Wait(target: nat)
    | Start
    | Launch(writer: bool)
    | Return(flight: Flight)
    | BeginPreempt
    | OpenWindow
    | CloseWindow
    | Disarm
    | Publish
    | DropArmed
    | DropDisarmed

  /** `boundary_reached`: nothing is running, or the runner has opened its window. */
  predicate Boundary(s: State) {
    s.gens.running.None? || s.runs.window
  }

  /** An input joins the queue at once unless a settle is active and it does not preempt. */
  predicate JoinsQueue(i: Inputs, input: Input) {
    i.settlers == map[] || input.preempting
  }

  predicate Enabled(s: State, ev: Event) {
    match ev
    case Insert(input) => s.inputs.settlers != map[] && input.preempting ==> Boundary(s)
    case Mutate(_) => Boundary(s)
    case Ask => true
    case Unask => s.runs.asking > 0
    case Enter(id) => id !in s.inputs.settlers
    case Promote(id) => id in s.inputs.settlers
    case Leave(id) => id in s.inputs.settlers
    case Target => true
    case Enqueue => true
    case Wait(target) => target in s.gens.handed
    case Start => s.gens.driver.Idle? && s.gens.pending.Some?
    case Launch(_) => s.gens.driver.Driving? && !s.runs.draining
    case Return(flight) => flight in s.runs.flights
    case BeginPreempt => s.gens.driver.Driving? && !s.runs.draining && s.runs.asking > 0
    case OpenWindow => s.runs.draining && s.runs.flights == {} && !s.runs.window
    case CloseWindow => s.gens.driver.Driving? && s.runs.window && s.runs.asking == 0
    case Disarm => s.gens.driver.Driving? && !s.runs.draining && s.runs.flights == {}
    case Publish => s.gens.driver.Publishing? && s.gens.running.Some?
    case DropArmed => s.gens.driver.Driving? && s.gens.running.Some?
    case DropDisarmed => s.gens.driver.Publishing?
  }

  // ---- inputs ----

  function Values(deferred: seq<(nat, Input)>): seq<Input> {
    seq(|deferred|, i requires 0 <= i < |deferred| => deferred[i].1)
  }

  /** How many deferred inputs, from the front, a watermark covers; no watermark covers all. */
  function Covered(deferred: seq<(nat, Input)>, watermark: Option<nat>): (n: nat)
    ensures n <= |deferred|
  {
    if deferred == [] || (watermark.Some? && deferred[0].0 > watermark.value) then 0 else 1 + Covered(deferred[1..], watermark)
  }

  /** `promote_deferred_inputs`, the input side. */
  function Promoted(i: Inputs, watermark: Option<nat>): Inputs {
    var n := Covered(i.deferred, watermark);
    i.(queued := i.queued + Values(i.deferred[..n]), deferred := i.deferred[n..])
  }

  function Inserted(i: Inputs, input: Input): Inputs {
    if JoinsQueue(i, input) then i.(queued := i.queued + [input], accepted := i.accepted + [input])
    else i.(tag := i.tag + 1, deferred := i.deferred + [(i.tag + 1, input)], accepted := i.accepted + [input])
  }

  function Left(i: Inputs, id: nat): Inputs {
    var left := i.(settlers := i.settlers - {id});
    if left.settlers == map[] then Promoted(left, None) else left
  }

  function NextInputs(i: Inputs, ev: Event): Inputs
    requires ev.Promote? ==> ev.id in i.settlers
  {
    match ev
    case Insert(input) => Inserted(i, input)
    case Enter(id) => i.(settlers := i.settlers[id := i.tag])
    case Promote(id) => Promoted(i, Some(i.settlers[id]))
    case Leave(id) => Left(i, id)
    case Start => i.(applied := i.applied + i.queued, queued := [])
    case _ => i
  }

  // ---- generations ----

  /** `get_or_insert(next_generation)`. */
  function Scheduled(g: Generations): Generations {
    if g.pending.Some? then g else g.(pending := Some(g.next))
  }

  /** The number a caller who has nothing to add is given to wait for. */
  function Outstanding(g: Generations): nat {
    if g.pending.Some? then g.pending.value else if g.running.Some? then g.running.value else g.completed
  }

  function Handed(g: Generations, t: nat): Generations {
    g.(handed := g.handed + {t})
  }

  function Above(waiters: seq<nat>, g: nat): seq<nat> {
    if waiters == [] then [] else (if waiters[0] <= g then [] else [waiters[0]]) + Above(waiters[1..], g)
  }

  /** `moved`: an input reached the queue, or an external mutation changed the world. */
  function NextGens(g: Generations, ev: Event, moved: bool): Generations
    requires ev.Start? ==> g.pending.Some?
    requires ev.Publish? ==> g.running.Some?
  {
    match ev
    case Insert(_) => if moved then Handed(Scheduled(g), Scheduled(g).pending.value) else Handed(g, g.completed)
    case Mutate(_) => if moved then Scheduled(g) else g
    case Promote(_) => if moved then Scheduled(g) else g
    case Leave(_) => if moved then Scheduled(g) else g
    case Target => Handed(g, Outstanding(g))
    case Enqueue => Scheduled(g)
    case Wait(target) => if g.completed >= target then g else g.(waiters := g.waiters + [target])
    case Start => g.(pending := None, running := g.pending, next := g.pending.value + 1, driver := Driving)
    case Disarm => g.(driver := Publishing)
    case Publish =>
      g.(completed := g.running.value, running := None, driver := Idle, waiters := Above(g.waiters, g.running.value))
    case DropArmed => g.(pending := if g.pending.Some? then g.pending else g.running, running := None, driver := Idle, waiters := [])
    case DropDisarmed => g.(driver := Idle)
    case _ => g
  }

  // ---- runs ----

  function IdsOf(flights: set<Flight>): set<nat> {
    set f | f in flights :: f.id
  }

  function Writers(flights: set<Flight>): set<Flight> {
    set f | f in flights && f.writer
  }

  function NextRuns(r: Runs, ev: Event): Runs
    requires ev.Unask? ==> r.asking > 0
  {
    match ev
    case Ask => r.(asking := r.asking + 1)
    case Unask => r.(asking := r.asking - 1)
    case Start => r.(window := false)
    case Launch(writer) => r.(flights := r.flights + {Flight(r.launched, writer)}, launched := r.launched + 1)
    case Return(flight) => r.(flights := r.flights - {flight}, returned := r.returned + {flight.id})
    case BeginPreempt =>
      r.(draining := true, flights := Writers(r.flights), dropped := r.dropped + IdsOf(r.flights - Writers(r.flights)))
    case OpenWindow => r.(window := true)
    case CloseWindow => r.(window := false, draining := false)
    case DropArmed => r.(flights := {}, dropped := r.dropped + IdsOf(r.flights), draining := false)
    case _ => r
  }

  /** Whether the step puts something in front of the next generation. */
  predicate Moves(s: State, ev: Event)
    requires Enabled(s, ev)
  {
    match ev
    case Mutate(changed) => changed
    case _ => |NextInputs(s.inputs, ev).queued| > |s.inputs.queued|
  }

  function Next(s: State, ev: Event): State
    requires Enabled(s, ev)
  {
    State(NextGens(s.gens, ev, Moves(s, ev)), NextInputs(s.inputs, ev), NextRuns(s.runs, ev))
  }

  const FRESH := State(
    Generations(None, None, 0, 1, [], Idle, {}), Inputs([], [], 0, map[], [], []), Runs({}, 0, false, false, 0, {}, {}))

  // ---- inputs are conserved ----

  function Plain(inputs: seq<Input>): seq<Input> {
    if inputs == [] then [] else (if inputs[0].preempting then [] else [inputs[0]]) + Plain(inputs[1..])
  }

  ghost predicate TagsAscend(deferred: seq<(nat, Input)>, top: nat) {
    && (forall i :: 0 <= i < |deferred| ==> deferred[i].0 <= top)
    && (forall i, j :: 0 <= i < j < |deferred| ==> deferred[i].0 < deferred[j].0)
  }

  /** Everything accepted, in the order it will have been applied if nothing more arrives. */
  function Line(i: Inputs): seq<Input> {
    i.applied + i.queued + Values(i.deferred)
  }

  /** Each accepted input is applied, queued or deferred, exactly once; plain ones in the order they arrived. */
  ghost predicate Conserved(accepted: seq<Input>, line: seq<Input>) {
    multiset(accepted) == multiset(line) && Plain(accepted) == Plain(line)
  }

  ghost predicate InputsOk(i: Inputs) {
    && Conserved(i.accepted, Line(i))
    && TagsAscend(i.deferred, i.tag)
    && (i.settlers == map[] ==> i.deferred == [])
  }

  lemma {:induction false} PlainSplits(a: seq<Input>, b: seq<Input>)
    ensures Plain(a + b) == Plain(a) + Plain(b)
  {
    if a == [] {
      assert a + b == b;
    } else {
      assert (a + b)[1..] == a[1..] + b;
      PlainSplits(a[1..], b);
    }
  }

  /** An input that joins the line anywhere is conserved, and a plain one only at the very end keeps the order. */
  lemma JoinedIsConserved(accepted: seq<Input>, front: seq<Input>, back: seq<Input>, input: Input)
    requires Conserved(accepted, front + back) && (input.preempting || back == [])
    ensures Conserved(accepted + [input], front + [input] + back)
  {
    PlainSplits(accepted, [input]);
    PlainSplits(front, back);
    PlainSplits(front + [input], back);
    PlainSplits(front, [input]);
    if back == [] { assert front + back == front && front + [input] + back == front + [input]; }
    if input.preempting {
      assert Plain([input]) == [];
      assert Plain(accepted) + [] == Plain(accepted) && Plain(front) + [] == Plain(front);
    }
  }

  lemma AppendedIsConserved(accepted: seq<Input>, line: seq<Input>, input: Input)
    requires Conserved(accepted, line)
    ensures Conserved(accepted + [input], line + [input])
  {
    PlainSplits(accepted, [input]);
    PlainSplits(line, [input]);
  }

  /** Promotion moves a prefix of what is deferred to the end of the queue. */
  lemma PromotedLine(i: Inputs, watermark: Option<nat>)
    ensures Line(Promoted(i, watermark)) == Line(i)
  {
    var n := Covered(i.deferred, watermark);
    assert Values(i.deferred) == Values(i.deferred[..n]) + Values(i.deferred[n..]);
  }

  lemma {:induction false} CoversAll(deferred: seq<(nat, Input)>)
    ensures Covered(deferred, None) == |deferred|
  {
    if deferred != [] { CoversAll(deferred[1..]); }
  }

  lemma TagsAfter(deferred: seq<(nat, Input)>, top: nat, n: nat)
    requires TagsAscend(deferred, top) && n <= |deferred|
    ensures TagsAscend(deferred[n..], top)
  {}

  lemma QueuedLine(i: Inputs, input: Input)
    requires JoinsQueue(i, input)
    ensures Line(Inserted(i, input)) == i.applied + i.queued + [input] + Values(i.deferred)
  {
    assert i.applied + (i.queued + [input]) == i.applied + i.queued + [input];
  }

  lemma NothingDeferred(i: Inputs)
    requires i.deferred == []
    ensures Values(i.deferred) == []
  {}

  lemma QueuedInputs(i: Inputs, input: Input)
    requires InputsOk(i) && JoinsQueue(i, input)
    ensures InputsOk(Inserted(i, input))
  {
    if i.deferred == [] { NothingDeferred(i); }
    QueuedLine(i, input);
    JoinedIsConserved(i.accepted, i.applied + i.queued, Values(i.deferred), input);
  }

  lemma DeferredLine(i: Inputs, input: Input)
    requires !JoinsQueue(i, input)
    ensures Line(Inserted(i, input)) == Line(i) + [input]
  {
    assert Values(i.deferred + [(i.tag + 1, input)]) == Values(i.deferred) + [input];
  }

  lemma DeferredTags(deferred: seq<(nat, Input)>, top: nat, input: Input)
    requires TagsAscend(deferred, top)
    ensures TagsAscend(deferred + [(top + 1, input)], top + 1)
  {}

  lemma DeferredInputs(i: Inputs, input: Input)
    requires InputsOk(i) && !JoinsQueue(i, input)
    ensures InputsOk(Inserted(i, input))
  {
    AppendedIsConserved(i.accepted, Line(i), input);
    DeferredLine(i, input);
    DeferredTags(i.deferred, i.tag, input);
  }

  lemma PromotedInputs(i: Inputs, watermark: Option<nat>)
    requires Conserved(i.accepted, Line(i)) && TagsAscend(i.deferred, i.tag)
    requires watermark.None? || i.settlers != map[]
    ensures InputsOk(Promoted(i, watermark))
  {
    PromotedLine(i, watermark);
    TagsAfter(i.deferred, i.tag, Covered(i.deferred, watermark));
    if watermark.None? { CoversAll(i.deferred); }
  }

  lemma AcceptedInputs(i: Inputs, input: Input)
    requires InputsOk(i)
    ensures InputsOk(Inserted(i, input))
  {
    if JoinsQueue(i, input) { QueuedInputs(i, input); } else { DeferredInputs(i, input); }
  }

  lemma EnteredInputs(i: Inputs, id: nat)
    requires InputsOk(i)
    ensures InputsOk(NextInputs(i, Enter(id)))
  {
    assert Line(NextInputs(i, Enter(id))) == Line(i);
  }

  lemma LeftInputs(i: Inputs, id: nat)
    requires InputsOk(i)
    ensures InputsOk(Left(i, id))
  {
    var left := i.(settlers := i.settlers - {id});
    assert Line(left) == Line(i);
    if left.settlers == map[] { PromotedInputs(left, None); }
  }

  lemma StartedInputs(i: Inputs)
    requires InputsOk(i)
    ensures InputsOk(NextInputs(i, Start))
  {
    assert i.applied + i.queued + [] == i.applied + i.queued;
  }

  lemma StepKeepsInputs(i: Inputs, ev: Event)
    requires InputsOk(i) && (ev.Promote? ==> ev.id in i.settlers)
    ensures InputsOk(NextInputs(i, ev))
  {
    var next := NextInputs(i, ev);
    if ev.Insert? {
      assert next == Inserted(i, ev.input);
      AcceptedInputs(i, ev.input);
    } else if ev.Enter? {
      EnteredInputs(i, ev.id);
    } else if ev.Promote? {
      assert next == Promoted(i, Some(i.settlers[ev.id]));
      PromotedInputs(i, Some(i.settlers[ev.id]));
    } else if ev.Leave? {
      assert next == Left(i, ev.id);
      LeftInputs(i, ev.id);
    } else if ev.Start? {
      StartedInputs(i);
    } else {
      assert next == i;
    }
  }

  lemma {:induction false} CoveredPrefix(deferred: seq<(nat, Input)>, watermark: nat, i: nat)
    requires i < |deferred|
    ensures i < Covered(deferred, Some(watermark)) ==> deferred[i].0 <= watermark
    decreases |deferred|
  {
    if i > 0 && Covered(deferred, Some(watermark)) > 0 { CoveredPrefix(deferred[1..], watermark, i - 1); }
  }

  /** A deferred input is promoted only by a settle whose watermark covers it, or when the last settle leaves. */
  lemma PromotionNeedsCover(i: Inputs, ev: Event, k: nat)
    requires (ev.Promote? ==> ev.id in i.settlers) && k < |i.deferred| && i.deferred[k] !in NextInputs(i, ev).deferred
    ensures (ev.Promote? && i.deferred[k].0 <= i.settlers[ev.id]) || (ev.Leave? && i.settlers - {ev.id} == map[])
  {
    if ev.Promote? {
      var n := Covered(i.deferred, Some(i.settlers[ev.id]));
      CoveredPrefix(i.deferred, i.settlers[ev.id], k);
      assert forall m :: n <= m < |i.deferred| ==> i.deferred[n..][m - n] == i.deferred[m];
    }
  }

  /** A covering settle promotes: nothing it is responsible for is left behind. */
  lemma {:induction false} CoverPromotes(deferred: seq<(nat, Input)>, top: nat, watermark: nat, k: nat)
    requires TagsAscend(deferred, top) && k < |deferred| && deferred[k].0 <= watermark
    ensures k < Covered(deferred, Some(watermark))
    decreases |deferred|
  {
    if k > 0 {
      TagsAfter(deferred, top, 1);
      CoverPromotes(deferred[1..], top, watermark, k - 1);
    }
  }

  /** Queued inputs have a generation to be applied by. */
  lemma QueueIsPending(s: State, ev: Event)
    requires Enabled(s, ev) && (s.inputs.queued != [] ==> s.gens.pending.Some?)
    requires ev.Publish? ==> s.gens.running.Some?
    ensures Next(s, ev).inputs.queued != [] ==> Next(s, ev).gens.pending.Some?
  {}

  // ---- no generation is lost ----

  ghost predicate GenerationsOk(g: Generations) {
    && g.completed < g.next
    && (g.pending.Some? ==> g.completed < g.pending.value <= g.next <= g.pending.value + 1)
    && (g.running.Some? ==> g.completed < g.running.value && g.next == g.running.value + 1)
    && (g.running.Some? && g.pending.Some? ==> g.pending.value == g.next)
    && (g.running.None? && g.pending.None? ==> g.next == g.completed + 1)
    && (!g.driver.Idle? ==> g.running.Some?)
  }

  ghost predicate WaitersOk(g: Generations) {
    forall i :: 0 <= i < |g.waiters| ==> g.completed < g.waiters[i]
  }

  /** The number is done, or some generation that will complete it is pending or said to be running. */
  predicate Accounted(g: Generations, t: nat) {
    || t <= g.completed
    || (g.pending.Some? && t <= g.pending.value)
    || (g.running.Some? && t <= g.running.value)
  }

  /** The same, where running counts only with a driver behind it. */
  predicate Alive(g: Generations, t: nat) {
    || t <= g.completed
    || (g.pending.Some? && t <= g.pending.value)
    || (g.running.Some? && !g.driver.Idle? && t <= g.running.value)
  }

  ghost predicate TargetsOk(g: Generations) {
    forall t :: t in g.handed ==> Accounted(g, t)
  }

  lemma {:induction false} AboveIs(waiters: seq<nat>, g: nat)
    ensures forall i :: 0 <= i < |Above(waiters, g)| ==> g < Above(waiters, g)[i]
  {
    if waiters != [] { AboveIs(waiters[1..], g); }
  }

  /** What a step asks of the generation fields. */
  ghost predicate GensAllow(g: Generations, ev: Event) {
    && (ev.Start? ==> g.driver.Idle? && g.pending.Some?)
    && (ev.Disarm? ==> g.driver.Driving?)
    && (ev.Publish? ==> g.driver.Publishing? && g.running.Some?)
    && (ev.DropArmed? ==> g.driver.Driving? && g.running.Some?)
    && (ev.DropDisarmed? ==> g.driver.Publishing?)
  }

  lemma StepKeepsGenerations(g: Generations, ev: Event, moved: bool)
    requires GenerationsOk(g) && GensAllow(g, ev)
    ensures GenerationsOk(NextGens(g, ev, moved)) && g.completed <= NextGens(g, ev, moved).completed
  {}

  lemma StepKeepsWaiters(g: Generations, ev: Event, moved: bool)
    requires WaitersOk(g) && GensAllow(g, ev)
    ensures WaitersOk(NextGens(g, ev, moved))
  {
    if ev.Publish? { AboveIs(g.waiters, g.running.value); }
  }

  lemma StepKeepsTargets(g: Generations, ev: Event, moved: bool)
    requires TargetsOk(g) && GenerationsOk(g) && GensAllow(g, ev)
    ensures TargetsOk(NextGens(g, ev, moved)) && g.handed <= NextGens(g, ev, moved).handed
  {
    var h := NextGens(g, ev, moved);
    forall t | t in h.handed ensures Accounted(h, t) { assert t in g.handed ==> Accounted(g, t); }
  }

  /** A generation is marked running but nobody drives it. */
  predicate Stuck(g: Generations) {
    g.running.Some? && g.driver.Idle?
  }

  /** Only a driver dropped between disarming its guard and storing its result leaves a generation stuck. */
  lemma OnlyDisarmedDropSticks(g: Generations, ev: Event, moved: bool)
    requires GensAllow(g, ev) && GenerationsOk(g) && !Stuck(g)
    ensures Stuck(NextGens(g, ev, moved)) <==> ev.DropDisarmed?
  {}

  /** The next generation to start repairs it: it outnumbers every target handed out so far. */
  lemma StartUnsticks(g: Generations)
    requires GenerationsOk(g) && TargetsOk(g) && GensAllow(g, Start)
    ensures var h := NextGens(g, Start, false);
      !Stuck(h) && forall t :: t in h.handed ==> t <= h.completed || t <= h.running.value
  {
    forall t | t in g.handed ensures t <= g.completed || t <= g.pending.value { assert Accounted(g, t); }
  }

  /** Nothing is lost unless stuck; and when stuck, exactly the unfinished targets that no pending generation covers. */
  lemma TargetsLost(g: Generations, t: nat)
    requires GenerationsOk(g) && TargetsOk(g) && t in g.handed
    ensures Alive(g, t) <==> !(Stuck(g) && g.completed < t && (g.pending.None? || g.pending.value < t))
  {
    assert Accounted(g, t);
  }

  // ---- preemption excludes ----

  ghost predicate FlightsOk(r: Runs) {
    && (forall f :: f in r.flights ==> f.id < r.launched && f.id !in r.dropped && f.id !in r.returned)
    && (forall f, h :: f in r.flights && h in r.flights && f.id == h.id ==> f == h)
    && (forall id :: id in r.dropped ==> id < r.launched && id !in r.returned)
    && (forall id :: id in r.returned ==> id < r.launched)
  }

  ghost predicate WindowOk(r: Runs, d: Driver) {
    && (r.flights != {} || r.draining ==> d.Driving?)
    && (r.window && !d.Idle? ==> r.draining && r.flights == {})
  }

  lemma StepKeepsFlights(r: Runs, ev: Event)
    requires FlightsOk(r) && (ev.Unask? ==> r.asking > 0) && (ev.Return? ==> ev.flight in r.flights)
    ensures FlightsOk(NextRuns(r, ev))
    ensures r.dropped <= NextRuns(r, ev).dropped && r.returned <= NextRuns(r, ev).returned
  {
    match ev
    case BeginPreempt => DroppedFlights(r, Writers(r.flights));
    case DropArmed => DroppedFlights(r, {});
    case _ =>
  }

  lemma DroppedFlights(r: Runs, kept: set<Flight>)
    requires FlightsOk(r) && kept <= r.flights
    ensures FlightsOk(r.(flights := kept, dropped := r.dropped + IdsOf(r.flights - kept)))
  {
    var gone := IdsOf(r.flights - kept);
    forall f | f in kept ensures f.id !in gone {
      forall h | h in r.flights - kept ensures h.id != f.id {}
    }
  }

  lemma StepKeepsWindow(s: State, ev: Event)
    requires Enabled(s, ev) && WindowOk(s.runs, s.gens.driver) && GenerationsOk(s.gens)
    ensures WindowOk(Next(s, ev).runs, Next(s, ev).gens.driver)
  {}

  /** While a generation is driven, an external mutation finds the window open and none of its invocations in flight. */
  lemma MutationsFindNothingInFlight(s: State, ev: Event)
    requires Ok(s) && Enabled(s, ev) && !s.gens.driver.Idle?
    requires ev.Mutate? || (ev.Insert? && s.inputs.settlers != map[] && ev.input.preempting)
    ensures s.runs.window && s.runs.flights == {}
  {}

  // ---- every run ----

  ghost predicate Ok(s: State) {
    && InputsOk(s.inputs) && (s.inputs.queued != [] ==> s.gens.pending.Some?)
    && GenerationsOk(s.gens) && WaitersOk(s.gens) && TargetsOk(s.gens)
    && FlightsOk(s.runs) && WindowOk(s.runs, s.gens.driver)
  }

  lemma StepKeepsGens(g: Generations, ev: Event, moved: bool)
    requires GenerationsOk(g) && WaitersOk(g) && TargetsOk(g) && GensAllow(g, ev)
    ensures var h := NextGens(g, ev, moved); GenerationsOk(h) && WaitersOk(h) && TargetsOk(h)
  {
    StepKeepsGenerations(g, ev, moved);
    StepKeepsWaiters(g, ev, moved);
    StepKeepsTargets(g, ev, moved);
  }

  lemma StepKeepsOk(s: State, ev: Event)
    requires Ok(s) && Enabled(s, ev)
    ensures Ok(Next(s, ev))
  {
    var next := Next(s, ev);
    assert next.inputs == NextInputs(s.inputs, ev) && next.runs == NextRuns(s.runs, ev);
    assert next.gens == NextGens(s.gens, ev, Moves(s, ev));
    StepKeepsInputs(s.inputs, ev);
    QueueIsPending(s, ev);
    StepKeepsGens(s.gens, ev, Moves(s, ev));
    StepKeepsFlights(s.runs, ev);
    StepKeepsWindow(s, ev);
  }

  ghost predicate Run(states: seq<State>, events: seq<Event>) {
    && |states| == |events| + 1 && states[0] == FRESH
    && forall k :: 0 <= k < |events| ==> Enabled(states[k], events[k]) && states[k + 1] == Next(states[k], events[k])
  }

  lemma {:induction false} RunKeepsOk(states: seq<State>, events: seq<Event>, k: nat)
    requires Run(states, events) && k <= |events|
    ensures Ok(states[k])
  {
    if k > 0 {
      RunKeepsOk(states, events, k - 1);
      StepKeepsOk(states[k - 1], events[k - 1]);
    }
  }

  /** Inputs are conserved and ordered, over every run. */
  lemma InputsAreConserved(states: seq<State>, events: seq<Event>, k: nat)
    requires Run(states, events) && k <= |events|
    ensures var i := states[k].inputs;
      && multiset(i.accepted) == multiset(i.applied) + multiset(i.queued) + multiset(Values(i.deferred))
      && Plain(i.applied) <= Plain(i.accepted)
      && (i.settlers == map[] ==> i.deferred == [])
      && (i.queued != [] ==> states[k].gens.pending.Some?)
  {
    var i := states[k].inputs;
    RunKeepsOk(states, events, k);
    PlainSplits(i.applied + i.queued, Values(i.deferred));
    PlainSplits(i.applied, i.queued);
  }

  lemma {:induction false} NeverStuck(states: seq<State>, events: seq<Event>, k: nat)
    requires Run(states, events) && k <= |events| && forall m :: 0 <= m < k ==> !events[m].DropDisarmed?
    ensures !Stuck(states[k].gens)
  {
    if k > 0 {
      NeverStuck(states, events, k - 1);
      RunKeepsOk(states, events, k - 1);
      OnlyDisarmedDropSticks(states[k - 1].gens, events[k - 1], Moves(states[k - 1], events[k - 1]));
    }
  }

  /** No number handed to a caller is lost, over every run that drops no driver in its disarmed stretch. */
  lemma NoTargetIsLost(states: seq<State>, events: seq<Event>, k: nat)
    requires Run(states, events) && k <= |events|
    requires forall m :: 0 <= m < k ==> !events[m].DropDisarmed?
    ensures forall t :: t in states[k].gens.handed ==> Alive(states[k].gens, t)
    ensures WaitersOk(states[k].gens)
  {
    NeverStuck(states, events, k);
    RunKeepsOk(states, events, k);
    forall t | t in states[k].gens.handed ensures Alive(states[k].gens, t) { TargetsLost(states[k].gens, t); }
  }

  /** A shortest run that loses a target: one input, one generation, its driver dropped in the disarmed stretch. */
  lemma DisarmedDropLosesTarget() returns (states: seq<State>, events: seq<Event>, t: nat)
    ensures Run(states, events) && t in states[|events|].gens.handed && !Alive(states[|events|].gens, t)
  {
    var one := Input(0, false);
    var queued := State(FRESH.gens.(pending := Some(1), handed := {1}), FRESH.inputs.(queued := [one], accepted := [one]), FRESH.runs);
    var started := State(Generations(None, Some(1), 0, 2, [], Driving, {1}), queued.inputs.(queued := [], applied := [one]), FRESH.runs);
    var disarmed := started.(gens := started.gens.(driver := Publishing));
    var stuck := started.(gens := started.gens.(driver := Idle));
    assert Next(FRESH, Insert(one)) == queued;
    assert Next(queued, Start) == started;
    assert Next(started, Disarm) == disarmed;
    assert Next(disarmed, DropDisarmed) == stuck;
    states, events, t := [FRESH, queued, started, disarmed, stuck], [Insert(one), Start, Disarm, DropDisarmed], 1;
  }

  /** A reader dropped by a preemption never returns. */
  lemma {:induction false} DroppedNeverReturns(states: seq<State>, events: seq<Event>, j: nat, k: nat, id: nat)
    requires Run(states, events) && j <= k <= |events| && id in states[j].runs.dropped
    ensures id in states[k].runs.dropped && id !in states[k].runs.returned
    decreases k - j
  {
    FlightsStayOk(states, events, k);
    if j < k {
      DroppedNeverReturns(states, events, j, k - 1, id);
      FlightsStayOk(states, events, k - 1);
      StepKeepsFlights(states[k - 1].runs, events[k - 1]);
    }
  }

  lemma FlightsStayOk(states: seq<State>, events: seq<Event>, k: nat)
    requires Run(states, events) && k <= |events|
    ensures FlightsOk(states[k].runs)
  {
    RunKeepsOk(states, events, k);
  }

  lemma WriterStays(r: Runs, ev: Event, f: Flight)
    requires (ev.Unask? ==> r.asking > 0) && f.writer && !ev.DropArmed?
    requires f in r.flights || f.id in r.returned
    ensures f in NextRuns(r, ev).flights || f.id in NextRuns(r, ev).returned
  {}

  /** A writer in flight when preemption begins has returned by the time the window opens. */
  lemma {:induction false} WritersReturnFirst(states: seq<State>, events: seq<Event>, j: nat, k: nat, f: Flight)
    requires Run(states, events) && j <= k < |events| && f in states[j].runs.flights && f.writer
    requires forall m :: j <= m < k ==> !events[m].DropArmed?
    ensures f in states[k].runs.flights || f.id in states[k].runs.returned
    ensures events[k].OpenWindow? ==> f.id in states[k].runs.returned
    decreases k - j
  {
    if j < k {
      WritersReturnFirst(states, events, j, k - 1, f);
      WriterStays(states[k - 1].runs, events[k - 1], f);
    }
  }
}
