/** Identifiers shared by every part of the engine, and the optional value. */
module Ids {
  /** Raw entity id: a dense, monotonically allocated number. */
  type Entity = nat

  /** A registered component type. */
  type TypeId = int

  /** A component fingerprint. It is an opaque number: equal stamps are never taken for equal values. */
  type Stamp = int

  datatype Option<+T> = None | Some(value: T)

  /** Identity of one memoized invocation: the system and the entity keys of its row. */
  datatype Owner = Owner(system: nat, keys: seq<Entity>)

  function Max(a: nat, b: nat): nat {
    if a < b then b else a
  }
}

/** Ascending entity lists: the order in which every store, index bucket and member list is read. */
module Ascending {

  ghost predicate StrictlySorted(s: seq<nat>) {
    forall i, j :: 0 <= i < j < |s| ==> s[i] < s[j]
  }

  /** Inserts `x` at its place in an ascending list; a list that already holds it is unchanged. */
  function InsertSorted(s: seq<nat>, x: nat): (r: seq<nat>)
    ensures StrictlySorted(s) ==> StrictlySorted(r)
    ensures forall y :: y in r <==> y in s || y == x
  {
    if s == [] then [x]
    else if x < s[0] then [x] + s
    else if x == s[0] then s
    else
      var rest := InsertSorted(s[1..], x);
      assert forall y :: y in s <==> y == s[0] || y in s[1..];
      Prepend(s[0], rest);
      [s[0]] + rest
  }

  /** Removes `x` from an ascending list. */
  function RemoveSorted(s: seq<nat>, x: nat): (r: seq<nat>)
    ensures StrictlySorted(s) ==> StrictlySorted(r)
    ensures StrictlySorted(s) ==> forall y :: y in r <==> y in s && y != x
    ensures forall y :: y in r ==> y in s
  {
    if s == [] then []
    else if s[0] == x then s[1..]
    else
      var rest := RemoveSorted(s[1..], x);
      assert forall y :: y in s <==> y == s[0] || y in s[1..];
      Prepend(s[0], rest);
      [s[0]] + rest
  }

  lemma Prepend(x: nat, rest: seq<nat>)
    ensures StrictlySorted(rest) && (forall y :: y in rest ==> x < y) ==> StrictlySorted([x] + rest)
  {
    var all := [x] + rest;
    if StrictlySorted(rest) && forall y :: y in rest ==> x < y {
      forall i, j | 0 <= i < j < |all| ensures all[i] < all[j] {
        assert all[j] == rest[j - 1];
        if i > 0 { assert all[i] == rest[i - 1]; } else { assert rest[j - 1] in rest; }
      }
    }
  }

  lemma Append(front: seq<nat>, x: nat)
    requires StrictlySorted(front)
    requires forall y :: y in front ==> y < x
    ensures StrictlySorted(front + [x])
  {
    var all := front + [x];
    forall i, j | 0 <= i < j < |all| ensures all[i] < all[j] {
      assert all[i] == front[i] && front[i] in front;
    }
  }

  function Least(s: set<nat>): (m: nat)
    requires s != {}
    ensures m in s && forall y :: y in s ==> m <= y
  {
    MinimumExists(s);
    var m :| m in s && forall y :: y in s ==> m <= y;
    m
  }

  /** The members of a finite set, ascending. */
  function Sorted(s: set<nat>): (r: seq<nat>)
    ensures StrictlySorted(r)
    ensures forall y :: y in r <==> y in s
    decreases |s|
  {
    if s == {} then []
    else
      var m := Least(s);
      var rest := Sorted(s - {m});
      Prepend(m, rest);
      assert forall y :: y in [m] + rest <==> y == m || y in rest;
      [m] + rest
  }

  lemma {:induction false} MinimumExists(s: set<nat>)
    requires s != {}
    ensures exists m :: m in s && forall y :: y in s ==> m <= y
    decreases |s|
  {
    var x :| x in s;
    if s == {x} {
      assert x in s && forall y :: y in s ==> x <= y;
    } else {
      var rest := s - {x};
      MinimumExists(rest);
      var m :| m in rest && forall y :: y in rest ==> m <= y;
      var least := if x < m then x else m;
      assert least in s && forall y :: y in s ==> least <= y by {
        forall y | y in s ensures least <= y { assert y == x || y in rest; }
      }
    }
  }

  /** An ascending list is determined by its members. */
  lemma {:induction false} SortedUnique(a: seq<nat>, b: seq<nat>)
    requires StrictlySorted(a) && StrictlySorted(b)
    requires forall y :: y in a <==> y in b
    ensures a == b
  {
    assert a != [] ==> a[0] in b;
    assert b != [] ==> b[0] in a;
    if a != [] {
      assert a[0] == b[0];
      forall y ensures y in a[1..] <==> y in b[1..] {
        assert y in a <==> y == a[0] || y in a[1..];
        assert y in b <==> y == b[0] || y in b[1..];
      }
      SortedUnique(a[1..], b[1..]);
      assert a == [a[0]] + a[1..] && b == [b[0]] + b[1..];
    }
  }
}

/** Walking a hash set or map: every member once, in some order. */
module Iteration {

  ghost predicate Distinct<T>(xs: seq<T>) {
    forall i, j :: 0 <= i < j < |xs| ==> xs[i] != xs[j]
  }

  method Listed<T(==)>(s: set<T>) returns (xs: seq<T>)
    ensures Distinct(xs)
    ensures forall x :: x in xs <==> x in s
  {
    xs := [];
    var rest := s;
    while rest != {}
      invariant rest <= s && Distinct(xs)
      invariant forall x :: x in s <==> x in rest || x in xs
      invariant forall x :: x in xs ==> x !in rest
      decreases |rest|
    {
      var x :| x in rest;
      xs, rest := xs + [x], rest - {x};
    }
  }
}
