/**
 Retirement cascades: the frontier loops that follow ownership from removed entities to the outputs of invocations
 keyed by them, and from those outputs on, to a fixed point.
 */
module Retirement {
  import opened Ids
  import opened World
  import opened WorldLemmas
  import opened RemovedLists
  import M = Mutators
  import R = Removal
  import O = Output
  import Iteration

  // ---- the graph being followed ----

  predicate KeyedIn(o: Owner, es: set<Entity>) {
    exists i :: 0 <= i < |o.keys| && o.keys[i] in es
  }

  /** `None` selects every system. */
  predicate Selected(systems: Option<set<nat>>, o: Owner) {
    systems.None? || o.system in systems.value
  }

  predicate Touched(systems: Option<set<nat>>, o: Owner, es: set<Entity>) {
    Selected(systems, o) && KeyedIn(o, es)
  }

  type Index = map<Owner, set<(TypeId, Entity)>>

  /** The entities an invocation's outputs live on. */
  ghost predicate OnEntity(owners: Index, o: Owner, e: Entity) {
    o in owners && exists t :: (t, e) in owners[o]
  }

  lemma OutputIsOnEntity(owners: Index, o: Owner, t: TypeId, e: Entity)
    requires o in owners && (t, e) in owners[o]
    ensures OnEntity(owners, o, e)
  {}

  /** A selected invocation keyed in `es` has all its outputs on entities of `es`. */
  ghost predicate Closed(owners: Index, systems: Option<set<nat>>, es: set<Entity>) {
    forall o, e: Entity :: o in owners && Touched(systems, o, es) && OnEntity(owners, o, e) ==> e in es
  }

  /** The least set that holds `roots` and is closed: what a retirement cascade must visit. */
  ghost predicate LeastClosed(owners: Index, systems: Option<set<nat>>, roots: set<Entity>, es: set<Entity>) {
    && roots <= es && Closed(owners, systems, es)
    && forall s: set<Entity> :: roots <= s && Closed(owners, systems, s) ==> es <= s
  }

  function Untouched(owners: Index, systems: Option<set<nat>>, es: set<Entity>): Index {
    map o | o in owners && !Touched(systems, o, es) :: owners[o]
  }

  function Unkeyed<V>(memo: map<Owner, V>, es: set<Entity>): map<Owner, V> {
    map o | o in memo && !KeyedIn(o, es) :: memo[o]
  }

  // ---- one owner ----

  lemma {:induction false} SweepLeavesOwners(sc: Schema, w: WorldState, o: Owner, previous: seq<(TypeId, Entity)>, loose: Loose)
    requires Inv(sc, w, loose) && o !in w.owners
    requires forall i :: 0 <= i < |previous| ==> !sc.Kind(previous[i].0).Inverse?
    ensures var w' := O.Sweep(sc, w, o, previous);
      && w'.owners == w.owners
      && (forall t, e: Entity :: Has(w', t, e) ==> Has(w, t, e))
      && (forall i :: 0 <= i < |previous| && OwnerAt(w, previous[i].0, previous[i].1) == Some(o) ==> !Has(w', previous[i].0, previous[i].1))
    decreases |previous|
  {
    if previous != [] {
      var (t, e) := previous[0];
      assert !sc.Kind(previous[0].0).Inverse?;
      var next := M.RemoveDerivedEntry(sc, w, t, e, o);
      M.RemoveDerivedEntryKeepsInv(sc, w, t, e, o, loose);
      O.RemoveDerivedKeepsOwners(sc, w, t, e, o, loose);
      assert forall i :: 0 <= i < |previous[1..]| ==> previous[1..][i] == previous[i + 1];
      SweepLeavesOwners(sc, next, o, previous[1..], loose - {(o, t, e)});
      var w' := O.Sweep(sc, w, o, previous);
      forall i | 0 <= i < |previous| && OwnerAt(w, previous[i].0, previous[i].1) == Some(o) ensures !Has(w', previous[i].0, previous[i].1) {
        if i > 0 && previous[i] != previous[0] { assert previous[1..][i - 1] == previous[i]; }
      }
    }
  }

  /** What a cascade does to the world: the outputs of the owners in `gone` leave, and with them only inverse listings. */
  ghost predicate Retires(sc: Schema, w: WorldState, w': WorldState, gone: set<Owner>) {
    && Inv(sc, w', {}) && Evolves(sc, w, w')
    && w'.owners == w.owners - gone
    && (forall t, e: Entity :: Has(w', t, e) ==> Has(w, t, e))
    && (forall t, e: Entity :: !sc.Kind(t).Inverse? ==>
          Lookup(w', t, e) == if OwnerAt(w, t, e).Some? && OwnerAt(w, t, e).value in gone then None else Lookup(w, t, e))
  }

  lemma TakenSweeps(sc: Schema, w: WorldState, o: Owner, outputs: seq<(TypeId, Entity)>)
    requires Inv(sc, w, {}) && O.Lists(outputs, O.Outputs(w, o))
    ensures var taken := O.Take(w, o); var w' := O.Sweep(sc, taken, o, outputs);
      && Inv(sc, w', {}) && Evolves(sc, w, w')
      && (forall t, e: Entity :: !sc.Kind(t).Inverse? && OwnerAt(w, t, e) != Some(o) ==> Lookup(w', t, e) == Lookup(w, t, e))
  {
    var taken := O.Take(w, o);
    var loose := set p | p in O.Outputs(w, o) :: (o, p.0, p.1);
    O.TakeLoosens(sc, w, o);
    O.OutputsAreOrdinary(sc, w, o, outputs);
    forall x | x in loose ensures x.0 == o && (x.1, x.2) in outputs {
      var p :| p in O.Outputs(w, o) && x == (o, p.0, p.1);
      assert p == (x.1, x.2);
    }
    O.SweepClears(sc, taken, o, outputs, {}, loose);
    EvolvesTransitive(sc, w, taken, O.Sweep(sc, taken, o, outputs));
    assert forall t, e: Entity :: Lookup(taken, t, e) == Lookup(w, t, e);
  }

  lemma TakenLeaves(sc: Schema, w: WorldState, o: Owner, outputs: seq<(TypeId, Entity)>)
    requires Inv(sc, w, {}) && O.Lists(outputs, O.Outputs(w, o))
    ensures var w' := O.Sweep(sc, O.Take(w, o), o, outputs);
      && w'.owners == w.owners - {o}
      && (forall t, e: Entity :: Has(w', t, e) ==> Has(w, t, e))
      && (forall t, e: Entity :: OwnerAt(w, t, e) == Some(o) ==> !Has(w', t, e))
  {
    var taken := O.Take(w, o);
    var w' := O.Sweep(sc, taken, o, outputs);
    O.TakeLoosens(sc, w, o);
    O.OutputsAreOrdinary(sc, w, o, outputs);
    SweepLeavesOwners(sc, taken, o, outputs, set p | p in O.Outputs(w, o) :: (o, p.0, p.1));
    assert forall t, e: Entity :: Lookup(taken, t, e) == Lookup(w, t, e);
    forall t, e: Entity | Has(w', t, e) ensures Has(w, t, e) { assert Has(taken, t, e); }
    forall t, e: Entity | OwnerAt(w, t, e) == Some(o) ensures !Has(w', t, e) {
      assert Indexed(w, o, t, e) && (t, e) in outputs;
      var i :| 0 <= i < |outputs| && outputs[i] == (t, e);
      assert OwnerAt(taken, outputs[i].0, outputs[i].1) == Some(o);
    }
  }

  lemma OwnerRetires(sc: Schema, w: WorldState, o: Owner, outputs: seq<(TypeId, Entity)>)
    requires Inv(sc, w, {}) && O.Lists(outputs, O.Outputs(w, o))
    ensures Retires(sc, w, O.Sweep(sc, O.Take(w, o), o, outputs), {o})
  {
    TakenSweeps(sc, w, o, outputs);
    TakenLeaves(sc, w, o, outputs);
  }

  lemma RetiresReflexive(sc: Schema, w: WorldState)
    requires Inv(sc, w, {})
    ensures Retires(sc, w, w, {})
  {
    EvolvesReflexive(sc, w);
    assert w.owners - {} == w.owners;
  }

  lemma RetiresTransitive(sc: Schema, a: WorldState, b: WorldState, c: WorldState, x: set<Owner>, y: set<Owner>)
    requires Inv(sc, a, {}) && Retires(sc, a, b, x) && Retires(sc, b, c, y)
    ensures Retires(sc, a, c, x + y)
  {
    EvolvesTransitive(sc, a, b, c);
    assert c.owners == a.owners - (x + y);
    forall t, e: Entity | Has(c, t, e) ensures Has(a, t, e) { assert Has(b, t, e); }
  }

  /** Some order in which a set of outputs is iterated. */
  method Listed(s: set<(TypeId, Entity)>) returns (xs: seq<(TypeId, Entity)>)
    ensures O.Lists(xs, s)
  {
    xs := [];
    var rest := s;
    while rest != {}
      invariant rest <= s
      invariant forall p :: p in s <==> p in rest || p in xs
      decreases |rest|
    {
      var p :| p in rest;
      xs, rest := xs + [p], rest - {p};
    }
  }

  /** `remove_derived_owned`: the owner leaves the index, then each of its outputs leaves the world. */
  method RemoveOwned(sc: Schema, w: WorldState, o: Owner) returns (done: WorldState, touched: seq<Entity>)
    requires Inv(sc, w, {})
    ensures Retires(sc, w, done, {o})
    ensures forall e :: e in touched <==> OnEntity(w.owners, o, e)
    ensures Spared(w, done)
  {
    var outputs := Listed(O.Outputs(w, o));
    done := O.Sweep(sc, O.Take(w, o), o, outputs);
    OwnerRetires(sc, w, o, outputs);
    SweepSpares(sc, O.Take(w, o), o, outputs);
    touched := seq(|outputs|, i requires 0 <= i < |outputs| => outputs[i].1);
    OutputEntities(w, o, outputs, touched);
  }

  lemma OutputEntities(w: WorldState, o: Owner, outputs: seq<(TypeId, Entity)>, touched: seq<Entity>)
    requires O.Lists(outputs, O.Outputs(w, o))
    requires |touched| == |outputs| && forall i :: 0 <= i < |outputs| ==> touched[i] == outputs[i].1
    ensures forall e :: e in touched <==> OnEntity(w.owners, o, e)
  {
    forall e | e in touched ensures OnEntity(w.owners, o, e) {
      var i :| 0 <= i < |touched| && touched[i] == e;
      assert outputs[i] in outputs;
      assert outputs[i] in O.Outputs(w, o) && outputs[i] == (outputs[i].0, e);
      OutputIsOnEntity(w.owners, o, outputs[i].0, e);
    }
    forall e | OnEntity(w.owners, o, e) ensures e in touched {
      var t :| (t, e) in w.owners[o];
      assert (t, e) in O.Outputs(w, o) && (t, e) in outputs;
      var i :| 0 <= i < |outputs| && outputs[i] == (t, e);
      assert touched[i] == e;
    }
  }

  // ---- one frontier ----

  /** Some owner of `gone` had an output on `e`. */
  ghost predicate Vacates(owners: Index, gone: set<Owner>, e: Entity) {
    exists o :: o in gone && OnEntity(owners, o, e)
  }

  /** Retires the listed owners one by one, and reports where their outputs were. */
  method RemoveOwners(sc: Schema, w: WorldState, owners: set<Owner>) returns (done: WorldState, removed: set<Entity>)
    requires Inv(sc, w, {})
    ensures Retires(sc, w, done, owners) && Spared(w, done)
    ensures forall e :: e in removed <==> Vacates(w.owners, owners, e)
  {
    done, removed := w, {};
    var todo := owners;
    RetiresReflexive(sc, w);
    assert owners - owners == {};
    while todo != {}
      invariant todo <= owners && Inv(sc, done, {}) && Retires(sc, w, done, owners - todo) && Spared(w, done)
      invariant forall e :: e in removed <==> Vacates(w.owners, owners - todo, e)
      decreases |todo|
    {
      var o :| o in todo;
      var next, touched := RemoveOwned(sc, done, o);
      OneMoreRetired(sc, w, done, next, owners - todo, o);
      assert owners - todo + {o} == owners - (todo - {o});
      VacatesOneMore(w.owners, done.owners, owners - todo, o);
      removed := removed + set e | e in touched;
      done, todo := next, todo - {o};
    }
    assert owners - {} == owners;
  }

  lemma OneMoreRetired(sc: Schema, w: WorldState, before: WorldState, done: WorldState, gone: set<Owner>, o: Owner)
    requires Inv(sc, w, {}) && Retires(sc, w, before, gone) && Retires(sc, before, done, {o}) && Spared(w, before) && Spared(before, done)
    ensures Retires(sc, w, done, gone + {o}) && Spared(w, done)
  {
    RetiresTransitive(sc, w, before, done, gone, {o});
  }

  lemma VacatesOneMore(owners: Index, rest: Index, gone: set<Owner>, o: Owner)
    requires rest == owners - gone && o !in gone
    ensures forall e :: Vacates(owners, gone + {o}, e) <==> Vacates(owners, gone, e) || OnEntity(rest, o, e)
  {
    forall e ensures Vacates(owners, gone + {o}, e) <==> Vacates(owners, gone, e) || OnEntity(rest, o, e) {
      if p :| p in gone + {o} && OnEntity(owners, p, e) {
        if p == o { assert o in rest && rest[o] == owners[o]; }
      }
      if OnEntity(rest, o, e) { assert OnEntity(owners, o, e) && o in gone + {o}; }
      if p :| p in gone && OnEntity(owners, p, e) { assert p in gone + {o}; }
    }
  }

  /** `remove_derived_touched_by_systems`: every selected owner keyed in `keys` retires. */
  method RemoveTouched(sc: Schema, w: WorldState, keys: set<Entity>, systems: Option<set<nat>>)
    returns (done: WorldState, removed: set<Entity>)
    requires Inv(sc, w, {})
    ensures Retires(sc, w, done, TouchedOwners(w.owners, systems, keys)) && Spared(w, done)
    ensures forall e :: e in removed <==> Vacates(w.owners, TouchedOwners(w.owners, systems, keys), e)
  {
    done, removed := RemoveOwners(sc, w, TouchedOwners(w.owners, systems, keys));
  }

  function TouchedOwners(owners: Index, systems: Option<set<nat>>, keys: set<Entity>): set<Owner> {
    set o | o in owners && Touched(systems, o, keys)
  }

  // ---- to the fixed point ----

  /** The loop's account of itself: what has left, what is known of the cascade, what is still to be followed. */
  ghost predicate Following(owners: Index, systems: Option<set<nat>>, roots: set<Entity>, followed: set<Entity>, frontier: set<Entity>) {
    && roots <= followed + frontier
    && (forall o, e: Entity :: o in owners && Touched(systems, o, followed) && OnEntity(owners, o, e) ==> e in followed + frontier)
    && (forall s: set<Entity> :: roots <= s && Closed(owners, systems, s) ==> followed + frontier <= s)
  }

  /** Following one frontier: the part of the graph not yet retired is enough to find what comes next. */
  lemma FollowedFurther(owners: Index, systems: Option<set<nat>>, roots: set<Entity>, followed: set<Entity>, frontier: set<Entity>,
                        removed: set<Entity>, next: set<Entity>)
    requires Following(owners, systems, roots, followed, frontier)
    requires var rest := Untouched(owners, systems, followed);
      forall e :: e in removed <==> Vacates(rest, TouchedOwners(rest, systems, frontier), e)
    requires next <= removed && removed <= followed + frontier + next
    ensures Following(owners, systems, roots, followed + frontier, next)
  {
    var rest := Untouched(owners, systems, followed);
    TouchedSplits(owners, systems, followed, frontier);
    forall o, e: Entity | o in owners && Touched(systems, o, followed + frontier) && OnEntity(owners, o, e)
      ensures e in followed + frontier + next
    {
      if !Touched(systems, o, followed) {
        assert o in rest && rest[o] == owners[o] && OnEntity(rest, o, e);
        assert o in TouchedOwners(rest, systems, frontier);
      }
    }
    forall s: set<Entity> | roots <= s && Closed(owners, systems, s) ensures followed + frontier + next <= s {
      forall e | e in next ensures e in s {
        var o :| o in TouchedOwners(rest, systems, frontier) && OnEntity(rest, o, e);
        assert OnEntity(owners, o, e) by { var t :| (t, e) in rest[o]; }
        assert followed + frontier <= s && Touched(systems, o, s);
      }
    }
  }

  lemma TouchedSplits(owners: Index, systems: Option<set<nat>>, a: set<Entity>, b: set<Entity>)
    ensures forall o :: Touched(systems, o, a + b) <==> Touched(systems, o, a) || Touched(systems, o, b)
    ensures TouchedOwners(owners, systems, a) + TouchedOwners(Untouched(owners, systems, a), systems, b) == TouchedOwners(owners, systems, a + b)
    ensures Untouched(Untouched(owners, systems, a), systems, b) == Untouched(owners, systems, a + b)
    ensures owners - TouchedOwners(owners, systems, a) == Untouched(owners, systems, a)
  {}

  lemma FewerOwners(owners: Index, systems: Option<set<nat>>, keys: set<Entity>)
    ensures |Untouched(owners, systems, keys)| <= |owners|
    ensures TouchedOwners(owners, systems, keys) != {} ==> |Untouched(owners, systems, keys)| < |owners|
  {
    var rest := Untouched(owners, systems, keys);
    assert rest.Keys <= owners.Keys;
    SubsetSize(rest.Keys, owners.Keys);
    assert |rest| == |rest.Keys| && |owners| == |owners.Keys|;
    if o :| o in TouchedOwners(owners, systems, keys) {
      assert o !in rest.Keys;
      SubsetSize(rest.Keys, owners.Keys - {o});
    }
  }

  lemma {:induction false} SubsetSize<T>(a: set<T>, b: set<T>)
    requires a <= b
    ensures |a| <= |b|
    decreases |a|
  {
    if a != {} {
      var x :| x in a;
      SubsetSize(a - {x}, b - {x});
    }
  }

  /** An indexed owner has outputs, so it shows in what a frontier reports. */
  lemma TouchedHasOutputs(sc: Schema, w: WorldState, gone: set<Owner>, removed: set<Entity>)
    requires Inv(sc, w, {}) && gone <= w.owners.Keys
    requires forall e :: e in removed <==> Vacates(w.owners, gone, e)
    ensures removed != {} <==> gone != {}
  {
    if o :| o in gone {
      assert o in w.owners && w.owners[o] != {};
      var p :| p in w.owners[o];
      assert p == (p.0, p.1);
      OutputIsOnEntity(w.owners, o, p.0, p.1);
      assert p.1 in removed;
    }
    if e :| e in removed {
      var o :| o in gone && OnEntity(w.owners, o, e);
    }
  }

  /** The world and the cascade, once everything in `followed` has been followed and `frontier` is left to do. */
  ghost predicate Underway(sc: Schema, start: WorldState, w: WorldState, systems: Option<set<nat>>, roots: set<Entity>,
                           followed: set<Entity>, frontier: set<Entity>) {
    && w.owners == Untouched(start.owners, systems, followed)
    && Retires(sc, start, w, TouchedOwners(start.owners, systems, followed))
    && Following(start.owners, systems, roots, followed, frontier)
  }

  lemma UnderwayAtStart(sc: Schema, start: WorldState, systems: Option<set<nat>>, roots: set<Entity>)
    requires Inv(sc, start, {})
    ensures Underway(sc, start, start, systems, roots, {}, roots)
    ensures TouchedOwners(start.owners, systems, {}) == {}
  {
    RetiresReflexive(sc, start);
    assert TouchedOwners(start.owners, systems, {}) == {};
    assert Untouched(start.owners, systems, {}) == start.owners;
    assert {} + roots == roots;
  }

  /** One pass of the loop over the world. */
  method FollowFrontier(sc: Schema, ghost start: WorldState, w: WorldState, systems: Option<set<nat>>,
                        ghost roots: set<Entity>, ghost followed: set<Entity>, frontier: set<Entity>, seen: set<Entity>)
    returns (done: WorldState, next: set<Entity>, any: bool)
    requires Inv(sc, start, {}) && Underway(sc, start, w, systems, roots, followed, frontier)
    requires seen <= followed + frontier
    ensures Underway(sc, start, done, systems, roots, followed + frontier, next)
    ensures (TouchedOwners(start.owners, systems, followed + frontier) != {}) == (any || TouchedOwners(start.owners, systems, followed) != {})
    ensures next != {} ==> any
    ensures |done.owners| <= |w.owners| && (any ==> |done.owners| < |w.owners|)
  {
    var removed;
    done, removed := RemoveTouched(sc, w, frontier, systems);
    ghost var gone := TouchedOwners(w.owners, systems, frontier);
    any := removed != {};
    next := removed - seen;
    TouchedHasOutputs(sc, w, gone, removed);
    FewerOwners(w.owners, systems, frontier);
    TouchedSplits(start.owners, systems, followed, frontier);
    TouchedSplits(w.owners, systems, frontier, {});
    RetiresTransitive(sc, start, w, done, TouchedOwners(start.owners, systems, followed), gone);
    FollowedFurther(start.owners, systems, roots, followed, frontier, removed, next);
  }

  /**
   The frontier loop of both cascades: visits exactly the least closed set over the roots, whether or not the roots
   count as seen from the start. Afterwards no selected owner and no memo is keyed by anything it visited, and
   nothing else has gone.
   */
  method Follow<V>(sc: Schema, start: WorldState, memo: map<Owner, V>, roots: set<Entity>, alreadySeen: set<Entity>, systems: Option<set<nat>>)
    returns (w: WorldState, left: map<Owner, V>, retired: bool, ghost visited: set<Entity>)
    requires Inv(sc, start, {}) && alreadySeen <= roots
    ensures LeastClosed(start.owners, systems, roots, visited)
    ensures w.owners == Untouched(start.owners, systems, visited) && left == Unkeyed(memo, visited)
    ensures Retires(sc, start, w, TouchedOwners(start.owners, systems, visited))
    ensures retired <==> TouchedOwners(start.owners, systems, visited) != {}
  {
    w, left, retired := start, memo, false;
    var seen, frontier := alreadySeen, roots;
    visited := {};
    UnderwayAtStart(sc, start, systems, roots);
    assert Unkeyed(memo, {}) == memo && {} + roots == roots;
    while frontier != {}
      invariant seen <= visited + frontier
      invariant Underway(sc, start, w, systems, roots, visited, frontier)
      invariant left == Unkeyed(memo, visited)
      invariant retired == (TouchedOwners(start.owners, systems, visited) != {})
      decreases |w.owners|, |frontier|
    {
      UnkeyedSplits(memo, visited, frontier);
      left := Unkeyed(left, frontier);
      var next, any;
      w, next, any := FollowFrontier(sc, start, w, systems, roots, visited, frontier, seen);
      visited := visited + frontier;
      seen, frontier, retired := seen + next, next, retired || any;
    }
    FollowedAll(sc, start, w, systems, roots, visited);
  }

  lemma FollowedAll(sc: Schema, start: WorldState, w: WorldState, systems: Option<set<nat>>, roots: set<Entity>, visited: set<Entity>)
    requires Underway(sc, start, w, systems, roots, visited, {})
    ensures LeastClosed(start.owners, systems, roots, visited) && w.owners == Untouched(start.owners, systems, visited)
    ensures Retires(sc, start, w, TouchedOwners(start.owners, systems, visited))
  {
    assert visited + {} == visited;
  }

  lemma UnkeyedSplits<V>(memo: map<Owner, V>, a: set<Entity>, b: set<Entity>)
    ensures Unkeyed(Unkeyed(memo, a), b) == Unkeyed(memo, a + b)
  {}

  // ---- in a commit ----

  function Dropped<V>(memo: map<Owner, V>, owners: set<Owner>): map<Owner, V> {
    map o | o in memo && o !in owners :: memo[o]
  }

  /** `reconcile_removed_output_owners`: the selected owners that had a memo lose it and are forced back. */
  method DropOwners<V>(memo: map<Owner, V>, owners: seq<Owner>, systems: Option<set<nat>>) returns (left: map<Owner, V>, forced: seq<Owner>)
    ensures left == Dropped(memo, set o | o in owners && Selected(systems, o))
    ensures forall o :: o in forced <==> o in owners && o in memo && Selected(systems, o)
  {
    left, forced := memo, [];
    var n := 0;
    assert Dropped(memo, {}) == memo;
    while n < |owners|
      invariant 0 <= n <= |owners|
      invariant left == Dropped(memo, set o | o in owners[..n] && Selected(systems, o))
      invariant forall o :: o in forced <==> o in owners[..n] && o in memo && Selected(systems, o)
    {
      var o := owners[n];
      assert owners[..n + 1] == owners[..n] + [o];
      if Selected(systems, o) && o in left {
        left, forced := left - {o}, forced + [o];
      }
      n := n + 1;
    }
    assert owners[..n] == owners;
  }

  /** Nothing selected is keyed by a removed entity any more, neither an output nor a memo. */
  ghost predicate Cleared<V>(owners: Index, memo: map<Owner, V>, systems: Option<set<nat>>, removed: set<Entity>) {
    && (forall o :: o in owners ==> !Touched(systems, o, removed))
    && (forall o :: o in memo ==> !KeyedIn(o, removed))
  }

  /**
   The retirement step of a commit. The source joins its two halves with a short-circuiting "or": when some owner
   of a removed component was retired first, the entity cascade does not run at all. `clean` says whether the normal
   phases still count as converged.
   */
  method RetireInCommit<V>(sc: Schema, start: WorldState, memo: map<Owner, V>, removed: set<Entity>, removedOwners: seq<Owner>,
                           componentOwners: seq<Owner>, pairBound: set<nat>)
    returns (w: WorldState, left: map<Owner, V>, forced: seq<Owner>, clean: bool, ghost visited: set<Entity>)
    requires Inv(sc, start, {})
    ensures var skipped := exists o :: o in componentOwners && o in memo;
      var bare := Dropped(memo, set o | o in componentOwners);
      && (skipped ==> w == start && left == bare && !clean)
      && (!skipped ==> LeastClosed(start.owners, Some(pairBound), removed, visited)
                       && Retires(sc, start, w, TouchedOwners(start.owners, Some(pairBound), visited)) && removed <= visited
                       && left == Unkeyed(Dropped(memo, set o | o in removedOwners && o.system in pairBound), visited))
      && (forall o :: o in forced <==> o in memo && if skipped then o in componentOwners else o in removedOwners && o.system in pairBound)
      && (clean <==> forced == [] && w.owners == start.owners)
      && (Cleared(w.owners, left, Some(pairBound), removed) <==> !skipped || Cleared(start.owners, bare, Some(pairBound), removed))
  {
    clean, visited := true, {};
    left, forced := DropOwners(memo, componentOwners, None);
    assert (set o | o in componentOwners && Selected(None, o)) == set o | o in componentOwners;
    w := start;
    if forced != [] {
      assert forced[0] in componentOwners && forced[0] in memo;
      clean := false;
      return;
    }
    assert forall o :: o in componentOwners && o in memo ==> o in forced;
    assert left == memo;
    left, forced := DropOwners(memo, removedOwners, Some(pairBound));
    assert (set o | o in removedOwners && Selected(Some(pairBound), o)) == set o | o in removedOwners && o.system in pairBound;
    var retired;
    w, left, retired, visited := Follow(sc, start, left, removed, removed, Some(pairBound));
    ClearedAfter(start.owners, left, Some(pairBound), removed, visited);
    clean := !(retired || forced != []);
    assert clean ==> start.owners - {} == start.owners;
  }

  lemma ClearedAfter<V>(owners: Index, memo: map<Owner, V>, systems: Option<set<nat>>, removed: set<Entity>, visited: set<Entity>)
    requires removed <= visited && forall o :: o in memo ==> !KeyedIn(o, visited)
    ensures Cleared(Untouched(owners, systems, visited), memo, systems, removed)
  {}

  // ---- bound entities ----

  /** Some order in which the stores are iterated. */
  method StoreOrder(w: WorldState) returns (order: seq<TypeId>)
    ensures R.Visits(w, order)
  {
    order := Iteration.Listed(w.stores.Keys);
  }

  /** The world only loses entries, owners and memos. */
  ghost predicate Shrinks(sc: Schema, w: WorldState, w': WorldState) {
    && Inv(sc, w', {}) && Evolves(sc, w, w')
    && O.IndexShrinks(w, w')
    && (forall t, e: Entity :: Has(w', t, e) ==> Has(w, t, e))
  }

  lemma ShrinksTransitive(sc: Schema, a: WorldState, b: WorldState, c: WorldState)
    requires Inv(sc, a, {}) && Shrinks(sc, a, b) && Shrinks(sc, b, c)
    ensures Shrinks(sc, a, c)
  {
    EvolvesTransitive(sc, a, b, c);
    forall t, e: Entity | Has(c, t, e) ensures Has(a, t, e) { assert Has(b, t, e); }
    forall o, t, e: Entity | Indexed(c, o, t, e) ensures Indexed(a, o, t, e) { assert Indexed(b, o, t, e); }
  }

  lemma RetiringShrinks(sc: Schema, w: WorldState, w': WorldState, gone: set<Owner>)
    requires Retires(sc, w, w', gone)
    ensures Shrinks(sc, w, w')
  {}

  lemma IndexShrinksOwners(sc: Schema, w: WorldState, w': WorldState, systems: Option<set<nat>>, es: set<Entity>)
    requires Shrinks(sc, w, w') && forall o :: o in w.owners ==> !Touched(systems, o, es)
    ensures forall o :: o in w'.owners ==> !Touched(systems, o, es)
  {
    forall o | o in w'.owners ensures !Touched(systems, o, es) {
      assert w'.owners[o] != {};
      var p :| p in w'.owners[o];
      assert p == (p.0, p.1) && Indexed(w', o, p.0, p.1);
      assert Indexed(w, o, p.0, p.1);
    }
  }

  /** By the time the entities of `gone` are removed, this entry went with its own entity, or with the one its edge points at. */
  ghost predicate GoneWith(sc: Schema, w: WorldState, gone: seq<Entity>, t: TypeId, e: Entity) {
    e in gone || (EdgeAt(sc, w, t, e).Some? && EdgeAt(sc, w, t, e).value in gone)
  }

  /** What removing entities one after the other leaves: every ordinary entry that has not gone with one of them, as it was. */
  ghost predicate Uprooted(sc: Schema, w: WorldState, w': WorldState, gone: seq<Entity>) {
    && (forall t, e: Entity :: !sc.Kind(t).Inverse? ==> Lookup(w', t, e) == if GoneWith(sc, w, gone, t, e) then None else Lookup(w, t, e))
    && (forall t, e: Entity :: e in gone ==> !Has(w', t, e))
  }

  /**
   The owner has a component on some root that is still there when that root's turn comes: it has not been retracted for
   pointing at a root removed before.
   */
  ghost predicate FoundOn(sc: Schema, w: WorldState, order: seq<Entity>, o: Owner) {
    exists n, t :: 0 <= n < |order| && OwnerAt(w, t, order[n]) == Some(o) && !GoneWith(sc, w, order[..n], t, order[n])
  }

  lemma {:induction false} OwnersOfAre(w: WorldState, e: Entity, order: seq<TypeId>, o: Owner)
    ensures o in R.OwnersOf(w, e, order) <==> exists t :: t in order && OwnerAt(w, t, e) == Some(o)
  {
    if order != [] {
      OwnersOfAre(w, e, order[1..], o);
      if t :| t in order && OwnerAt(w, t, e) == Some(o) { assert t == order[0] || t in order[1..]; }
    }
  }

  lemma VisitedOwners(w: WorldState, e: Entity, order: seq<TypeId>, o: Owner)
    requires R.Visits(w, order)
    ensures o in R.OwnersOf(w, e, order) <==> exists t :: OwnerAt(w, t, e) == Some(o)
  {
    OwnersOfAre(w, e, order, o);
    if t :| OwnerAt(w, t, e) == Some(o) { assert t in w.stores; }
  }

  /** One more root: what it takes along, and whom it finds. */
  lemma OneRootMore(sc: Schema, start: WorldState, w: WorldState, done: seq<Entity>, e: Entity, order: seq<TypeId>)
    requires Inv(sc, start, {}) && Inv(sc, w, {}) && R.Visits(w, order) && Uprooted(sc, start, w, done) && e !in done
    ensures Uprooted(sc, start, R.RemoveEntity(sc, w, e, order), done + [e])
    ensures forall o :: o in R.OwnersOf(w, e, order) <==> exists t :: OwnerAt(start, t, e) == Some(o) && !GoneWith(sc, start, done, t, e)
  {
    var next := R.RemoveEntity(sc, w, e, order);
    R.RemoveEntityKeepsInv(sc, w, e, order, {});
    forall t, f: Entity | !sc.Kind(t).Inverse?
      ensures Lookup(next, t, f) == if GoneWith(sc, start, done + [e], t, f) then None else Lookup(start, t, f)
    {
      assert GoneWith(sc, start, done + [e], t, f) <==> GoneWith(sc, start, done, t, f) || f == e || EdgeAt(sc, start, t, f) == Some(e);
      if EdgeAt(sc, w, t, f) == Some(e) { assert EdgeAt(sc, next, t, f) != Some(e); }
    }
    forall t, f: Entity | f in done + [e] ensures !Has(next, t, f) { assert f != e ==> !Has(w, t, f); }
    forall o ensures o in R.OwnersOf(w, e, order) <==> exists t :: OwnerAt(start, t, e) == Some(o) && !GoneWith(sc, start, done, t, e) {
      VisitedOwners(w, e, order, o);
      FoundHere(sc, start, w, done, e, o);
    }
  }

  lemma FoundHere(sc: Schema, start: WorldState, w: WorldState, done: seq<Entity>, e: Entity, o: Owner)
    requires Inv(sc, start, {}) && Inv(sc, w, {}) && Uprooted(sc, start, w, done)
    ensures (exists t :: OwnerAt(w, t, e) == Some(o)) <==> exists t :: OwnerAt(start, t, e) == Some(o) && !GoneWith(sc, start, done, t, e)
  {
    if t :| OwnerAt(w, t, e) == Some(o) {
      assert !sc.Kind(t).Inverse?;
      assert OwnerAt(start, t, e) == Some(o) && !GoneWith(sc, start, done, t, e);
    }
    if t :| OwnerAt(start, t, e) == Some(o) && !GoneWith(sc, start, done, t, e) {
      assert !sc.Kind(t).Inverse?;
      assert OwnerAt(w, t, e) == Some(o);
    }
  }

  /** The order of two owner lists end to end, seen from the last root. */
  lemma FoundOneMore(sc: Schema, w: WorldState, done: seq<Entity>, e: Entity, o: Owner)
    ensures FoundOn(sc, w, done + [e], o) <==>
              FoundOn(sc, w, done, o) || exists t :: OwnerAt(w, t, e) == Some(o) && !GoneWith(sc, w, done, t, e)
  {
    var more := done + [e];
    assert forall n :: 0 <= n <= |done| ==> more[..n] == done[..n];
    if n, t :| 0 <= n < |more| && OwnerAt(w, t, more[n]) == Some(o) && !GoneWith(sc, w, more[..n], t, more[n]) {
      if n < |done| { assert done[n] == more[n]; } else { assert done[..n] == done; }
    }
    if n, t :| 0 <= n < |done| && OwnerAt(w, t, done[n]) == Some(o) && !GoneWith(sc, w, done[..n], t, done[n]) {
      assert more[n] == done[n] && !GoneWith(sc, w, more[..n], t, more[n]);
    }
    if t :| OwnerAt(w, t, e) == Some(o) && !GoneWith(sc, w, done, t, e) {
      assert more[|done|] == e && more[..|done|] == done;
    }
  }

  /**
   Removes every root as a whole entity, in some order, and reports exactly the owners of the components it found there.
   */
  method RemoveRoots(sc: Schema, start: WorldState, roots: set<Entity>)
    returns (w: WorldState, owners: seq<Owner>, ghost visits: seq<Entity>)
    requires Inv(sc, start, {})
    ensures Shrinks(sc, start, w) && forall t, e: Entity :: e in roots ==> !Has(w, t, e)
    ensures Lists(visits, roots) && Uprooted(sc, start, w, visits)
    ensures forall o :: o in owners <==> FoundOn(sc, start, visits, o)
  {
    w, owners, visits := start, [], [];
    var rest := roots;
    EvolvesReflexive(sc, start);
    while rest != {}
      invariant rest <= roots && Shrinks(sc, start, w)
      invariant (forall e :: e in visits <==> e in roots - rest) && Distinct(visits)
      invariant Uprooted(sc, start, w, visits) && forall o :: o in owners <==> FoundOn(sc, start, visits, o)
      decreases |rest|
    {
      var e :| e in rest;
      var order := StoreOrder(w);
      var next := R.RemoveEntity(sc, w, e, order);
      var found := R.OwnersOf(w, e, order);
      RootShrinks(sc, w, e, order);
      OneRootMore(sc, start, w, visits, e, order);
      forall o ensures o in owners + found <==> FoundOn(sc, start, visits + [e], o) {
        FoundOneMore(sc, start, visits, e, o);
      }
      ShrinksTransitive(sc, start, w, next);
      w, owners, rest, visits := next, owners + found, rest - {e}, visits + [e];
    }
  }

  /** Every root, each once. */
  ghost predicate Lists(visits: seq<Entity>, roots: set<Entity>) {
    (forall e :: e in visits <==> e in roots) && Distinct(visits)
  }

  ghost predicate Distinct(visits: seq<Entity>) {
    forall i, j :: 0 <= i < j < |visits| ==> visits[i] != visits[j]
  }

  lemma RootShrinks(sc: Schema, w: WorldState, e: Entity, order: seq<TypeId>)
    requires Inv(sc, w, {}) && R.Visits(w, order)
    ensures Shrinks(sc, w, R.RemoveEntity(sc, w, e, order)) && forall t :: !Has(R.RemoveEntity(sc, w, e, order), t, e)
  {
    R.RemoveEntityKeepsInv(sc, w, e, order, {});
    O.RemoveEntityShrinks(sc, w, e, order, {});
  }

  /** Only inverses and what the given owners own is any different. */
  ghost predicate KeepsOthers(sc: Schema, w: WorldState, w': WorldState, gone: seq<Owner>) {
    && (forall o :: o in w'.owners <==> o in w.owners && o !in gone) && (forall o :: o in w'.owners ==> w'.owners[o] == w.owners[o])
    && forall t, e: Entity :: !sc.Kind(t).Inverse? && (OwnerAt(w, t, e).None? || OwnerAt(w, t, e).value !in gone) ==>
         Lookup(w', t, e) == Lookup(w, t, e)
  }

  /** Retracts the remaining outputs and the memos of the given owners, and nobody else's. */
  method RetractOwners<V>(sc: Schema, start: WorldState, memo: map<Owner, V>, owners: seq<Owner>) returns (w: WorldState, left: map<Owner, V>)
    requires Inv(sc, start, {})
    ensures Shrinks(sc, start, w) && left == Dropped(memo, set o | o in owners)
    ensures KeepsOthers(sc, start, w, owners)
  {
    w, left := start, memo;
    EvolvesReflexive(sc, start);
    assert Dropped(memo, set o | o in owners[..0]) == memo;
    var n := 0;
    while n < |owners|
      invariant 0 <= n <= |owners| && Shrinks(sc, start, w)
      invariant left == Dropped(memo, set o | o in owners[..n])
      invariant KeepsOthers(sc, start, w, owners[..n])
    {
      var next, _ := RemoveOwned(sc, w, owners[n]);
      RetiringShrinks(sc, w, next, {owners[n]});
      ShrinksTransitive(sc, start, w, next);
      OneOwnerMore(sc, start, w, next, owners[..n], owners[n]);
      assert owners[..n + 1] == owners[..n] + [owners[n]];
      w, left := next, left - {owners[n]};
      n := n + 1;
    }
    assert owners[..n] == owners;
  }

  lemma OneOwnerMore(sc: Schema, start: WorldState, w: WorldState, next: WorldState, gone: seq<Owner>, o: Owner)
    requires KeepsOthers(sc, start, w, gone) && Retires(sc, w, next, {o})
    ensures KeepsOthers(sc, start, next, gone + [o])
  {}

  /**
   `cleanup_bound_entities`: the cascade over the roots for every system, then the roots themselves, then whatever
   the owners of their components still had elsewhere. No root keeps a component; no output and no memo stays keyed
   by anything the cascade reached. `cascaded` is the world after the cascade, and `visits` the order the roots are taken
   in: an owner with a component found on a root keeps neither memo nor outputs; any other that the cascade has spared keeps
   its memo, and of its outputs all but those on a root, or pointing at one.
   */
  method CleanupBound<V>(sc: Schema, start: WorldState, memo: map<Owner, V>, roots: set<Entity>)
    returns (w: WorldState, left: map<Owner, V>, ghost visited: set<Entity>, ghost cascaded: WorldState, ghost visits: seq<Entity>)
    requires Inv(sc, start, {})
    ensures Shrinks(sc, start, w)
    ensures LeastClosed(start.owners, None, roots, visited)
    ensures Retires(sc, start, cascaded, TouchedOwners(start.owners, None, visited)) && Lists(visits, roots)
    ensures forall t, e: Entity :: e in roots ==> !Has(w, t, e)
    ensures Cleared(w.owners, left, None, visited)
    ensures forall o :: o in left <==> o in memo && !KeyedIn(o, visited) && !FoundOn(sc, cascaded, visits, o)
    ensures forall o :: o in left ==> left[o] == memo[o]
    ensures forall o :: FoundOn(sc, cascaded, visits, o) ==> o !in w.owners
    ensures forall o, t, e: Entity :: !KeyedIn(o, visited) && !FoundOn(sc, cascaded, visits, o) && OwnerAt(start, t, e) == Some(o) ==>
              Lookup(w, t, e) == if GoneWith(sc, cascaded, visits, t, e) then None else Lookup(start, t, e)
  {
    var retired, owners;
    w, left, retired, visited := Follow(sc, start, memo, roots, {}, None);
    RetiringShrinks(sc, start, w, TouchedOwners(start.owners, None, visited));
    cascaded := w;
    w, owners, visits := RemoveRoots(sc, w, roots);
    ShrinksTransitive(sc, start, cascaded, w);
    IndexShrinksOwners(sc, cascaded, w, None, visited);
    ghost var uprooted := w;
    w, left := RetractOwners(sc, w, left, owners);
    ShrinksTransitive(sc, start, uprooted, w);
    IndexShrinksOwners(sc, uprooted, w, None, visited);
    assert forall t, e: Entity :: Has(w, t, e) ==> Has(uprooted, t, e);
    SparedKeepTheirs(sc, start, cascaded, uprooted, w, visited, visits, owners);
  }

  lemma SparedKeepTheirs(sc: Schema, start: WorldState, cascaded: WorldState, uprooted: WorldState, w: WorldState, visited: set<Entity>,
                         visits: seq<Entity>, owners: seq<Owner>)
    requires Inv(sc, start, {}) && Retires(sc, start, cascaded, TouchedOwners(start.owners, None, visited))
    requires Uprooted(sc, cascaded, uprooted, visits) && KeepsOthers(sc, uprooted, w, owners)
    requires forall o :: o in owners <==> FoundOn(sc, cascaded, visits, o)
    ensures forall o, t, e: Entity :: !KeyedIn(o, visited) && !FoundOn(sc, cascaded, visits, o) && OwnerAt(start, t, e) == Some(o) ==>
              Lookup(w, t, e) == if GoneWith(sc, cascaded, visits, t, e) then None else Lookup(start, t, e)
  {
    forall o, t, e: Entity | !KeyedIn(o, visited) && !FoundOn(sc, cascaded, visits, o) && OwnerAt(start, t, e) == Some(o)
      ensures Lookup(w, t, e) == if GoneWith(sc, cascaded, visits, t, e) then None else Lookup(start, t, e)
    {
      assert !sc.Kind(t).Inverse? && Lookup(cascaded, t, e) == Lookup(start, t, e);
    }
  }
}
