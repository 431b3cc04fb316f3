/** Stretches of a run of any step machine, put end to end. */
module Walking {

  /** The states passed, and the steps between them. */
  datatype Walk<G, E> = Walk(states: seq<G>, events: seq<E>)

  ghost predicate Walks<G(!new), E(!new)>(takes: (G, E, G) -> bool, walk: Walk<G, E>, g: G, h: G) {
    && |walk.states| == |walk.events| + 1 && walk.states[0] == g && walk.states[|walk.events|] == h
    && forall k :: 0 <= k < |walk.events| ==> takes(walk.states[k], walk.events[k], walk.states[k + 1])
  }

  /** The same step, over and over. */
  function Repeated<G, E>(states: seq<G>, ev: E): Walk<G, E>
    requires states != []
  {
    Walk(states, seq(|states| - 1, _ => ev))
  }

  lemma RepeatedWalks<G(!new), E(!new)>(takes: (G, E, G) -> bool, states: seq<G>, ev: E)
    requires states != [] && forall k :: 0 <= k < |states| - 1 ==> takes(states[k], ev, states[k + 1])
    ensures Walks(takes, Repeated(states, ev), states[0], states[|states| - 1])
  {}

  function Further<G, E>(walk: Walk<G, E>, ev: E, h: G): Walk<G, E> {
    Walk(walk.states + [h], walk.events + [ev])
  }

  lemma WalksFurther<G(!new), E(!new)>(takes: (G, E, G) -> bool, walk: Walk<G, E>, g: G, at: G, ev: E, h: G)
    requires Walks(takes, walk, g, at) && takes(at, ev, h)
    ensures Walks(takes, Further(walk, ev, h), g, h)
  {
    var next := Further(walk, ev, h);
    forall k | 0 <= k < |next.events| ensures takes(next.states[k], next.events[k], next.states[k + 1]) {
      if k < |walk.events| { assert takes(walk.states[k], walk.events[k], walk.states[k + 1]); }
    }
  }

  /** What every step keeps, every walk keeps. */
  lemma {:induction false} WalkKeeps<G(!new), E(!new)>(takes: (G, E, G) -> bool, kept: G -> bool, walk: Walk<G, E>, g: G, h: G, k: nat)
    requires Walks(takes, walk, g, h) && kept(g) && k <= |walk.events|
    requires forall a, ev, b :: kept(a) && takes(a, ev, b) ==> kept(b)
    ensures kept(walk.states[k])
  {
    if k > 0 {
      WalkKeeps(takes, kept, walk, g, h, k - 1);
      assert takes(walk.states[k - 1], walk.events[k - 1], walk.states[k]);
    }
  }

  /** Counting up, what holds at the start and carries over holds all the way. */
  lemma {:induction false} Climbs(holds: nat -> bool, n: nat, k: nat)
    requires k <= n && holds(0) && forall m: nat :: m < n && holds(m) ==> holds(m + 1)
    ensures holds(k)
  {
    if k > 0 { Climbs(holds, n, k - 1); }
  }

  function Joined<G, E>(a: Walk<G, E>, b: Walk<G, E>): Walk<G, E>
    requires b.states != []
  {
    Walk(a.states + b.states[1..], a.events + b.events)
  }

  lemma WalksOn<G(!new), E(!new)>(takes: (G, E, G) -> bool, a: Walk<G, E>, b: Walk<G, E>, g: G, at: G, h: G)
    requires Walks(takes, a, g, at) && Walks(takes, b, at, h)
    ensures Walks(takes, Joined(a, b), g, h)
  {
    var all, n := Joined(a, b), |a.events|;
    forall k | 0 <= k < |all.events| ensures takes(all.states[k], all.events[k], all.states[k + 1]) {
      if k < n {
        assert takes(a.states[k], a.events[k], a.states[k + 1]);
      } else {
        assert all.states[k] == b.states[k - n] && all.states[k + 1] == b.states[k + 1 - n];
        assert takes(b.states[k - n], b.events[k - n], b.states[k + 1 - n]);
      }
    }
  }
}
