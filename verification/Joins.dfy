/**
 Row planning over several parameters. The specification forms the whole product and prunes it; the planner
 expands each joined parameter from its provider's index bucket or member list, or narrows by a dirty hint.
 */
module Joins {
  import opened Ids
  import opened Ascending
  import opened World
  import opened Queries

  /** How rows are enumerated: every parameter in full, joined ones from their pairs, or pairs under a hint. */
  datatype Mode = Product | Paired | Hinted(dirty: set<Entity>)

  /** The component a parameter must provide to be `q`'s join partner. */
  predicate Provides(p: Query, q: Query) {
    match q.binding
    case Free => false
    case EqOn(k) => k in p.refs
    case InOf(v) => v in p.refs
  }

  /** Registration's rule, in the form pair-driven planning needs: exactly one provider, before the joined query. */
  ghost predicate WellBound(ps: seq<Query>) {
    forall j :: 0 <= j < |ps| ==>
      && Formed(ps[j]) && Required(ps[j]) != []
      && (!ps[j].binding.Free? ==> exists i :: 0 <= i < j && OnlyProvider(ps, i, j))
  }

  ghost predicate OnlyProvider(ps: seq<Query>, i: nat, j: nat) {
    && i < |ps| && j < |ps| && i != j && Provides(ps[i], ps[j])
    && forall k :: 0 <= k < |ps| && k != j && Provides(ps[k], ps[j]) ==> k == i
  }

  /** First parameter other than `j` that provides `ps[j]`'s key; `|ps|` when there is none. */
  function ProviderFrom(ps: seq<Query>, j: nat, i: nat): nat
    requires j < |ps| && i <= |ps|
    decreases |ps| - i
  {
    if i == |ps| then i
    else if i != j && Provides(ps[i], ps[j]) then i
    else ProviderFrom(ps, j, i + 1)
  }

  lemma {:induction false} ProviderFound(ps: seq<Query>, i: nat, j: nat, from: nat)
    requires OnlyProvider(ps, i, j) && from <= i
    ensures ProviderFrom(ps, j, from) == i
    decreases i - from
  {
    if from < i { ProviderFound(ps, i, j, from + 1); }
  }

  /** `binding_matches` for one parameter: its key is its provider's, or it is in its provider's member list. */
  predicate Bound(w: WorldState, ps: seq<Query>, row: seq<Entity>, j: nat)
    requires j < |ps|
  {
    var i := ProviderFrom(ps, j, 0);
    match ps[j].binding
    case Free => true
    case EqOn(k) => i < |row| && j < |row| && StampAt(w, k, row[i]).Some? && StampAt(w, k, row[j]) == StampAt(w, k, row[i])
    case InOf(v) => i < |row| && j < |row| && row[j] in Members(w, v, row[i])
  }

  predicate BindingMatches(w: WorldState, ps: seq<Query>, row: seq<Entity>) {
    forall j :: 0 <= j < |ps| ==> Bound(w, ps, row, j)
  }

  /** A store bounds the row count by one; one not there at all bounds nothing where it is looked up by type. */
  predicate Tiny(w: WorldState, q: Query) {
    || (q.form.Parts? && exists i :: 0 <= i < |q.refs + q.mutates| && |StoreOf(w, (q.refs + q.mutates)[i]).entries| <= 1)
    || (q.form.Parts? && exists i :: 0 <= i < |q.anchor| && q.anchor[i] in w.stores && |StoreOf(w, q.anchor[i]).entries| <= 1)
    || (|q.with| == 1 && q.without == [] && q.with[0] in w.stores && |StoreOf(w, q.with[0]).entries| <= 1)
  }

  /** A driver whose row count no store size bounds by one; bare handles and scalars report no bound of their own. */
  predicate Large(w: WorldState, q: Query) {
    q.binding.Free? && !Tiny(w, q)
  }

  /** Candidate rows of the next parameter once `picked` has been chosen. */
  function Candidates(w: WorldState, ps: seq<Query>, picked: seq<Entity>, mode: Mode): seq<Entity>
    requires |picked| < |ps| && Required(ps[|picked|]) != []
  {
    var j := |picked|;
    var i := ProviderFrom(ps, j, 0);
    match mode
    case Product => Rows(w, ps[j])
    case Paired => PairRows(w, ps, picked, i)
    case Hinted(dirty) =>
      if Large(w, ps[j]) then Narrow(w, ps[j], Sorted(dirty)) else PairRows(w, ps, picked, i)
  }

  /** The entities a provider pairs with: its key's bucket, or its member list. */
  function HandedOver(w: WorldState, ps: seq<Query>, picked: seq<Entity>, i: nat): seq<Entity>
    requires |picked| < |ps|
  {
    match ps[|picked|].binding
    case Free => []
    case EqOn(k) =>
      if i < |picked| && StampAt(w, k, picked[i]).Some? then Sorted(Bucket(w, k, StampAt(w, k, picked[i]).value)) else []
    case InOf(v) => if i < |picked| then Members(w, v, picked[i]) else []
  }

  /** Rows from the provider's pair list; a parameter that is not joined enumerates in full. */
  function PairRows(w: WorldState, ps: seq<Query>, picked: seq<Entity>, i: nat): seq<Entity>
    requires |picked| < |ps| && Required(ps[|picked|]) != []
  {
    var q := ps[|picked|];
    if q.binding.Free? then Rows(w, q) else Narrow(w, q, HandedOver(w, ps, picked, i))
  }

  /** The nested expansion: every way to complete `picked`, in order. */
  function Build(w: WorldState, ps: seq<Query>, picked: seq<Entity>, mode: Mode): seq<seq<Entity>>
    requires WellBound(ps) && |picked| <= |ps|
    decreases |ps| - |picked|, 1, 0
  {
    if |picked| == |ps| then [picked] else Expand(w, ps, picked, Candidates(w, ps, picked, mode), mode)
  }

  function Expand(w: WorldState, ps: seq<Query>, picked: seq<Entity>, rows: seq<Entity>, mode: Mode): seq<seq<Entity>>
    requires WellBound(ps) && |picked| < |ps|
    decreases |ps| - |picked|, 0, |rows|
  {
    if rows == [] then []
    else Build(w, ps, picked + [rows[0]], mode) + Expand(w, ps, picked, rows[1..], mode)
  }

  /** `retain(binding_matches)`. */
  function Prune(w: WorldState, ps: seq<Query>, rows: seq<seq<Entity>>): seq<seq<Entity>> {
    if rows == [] then []
    else (if BindingMatches(w, ps, rows[0]) then [rows[0]] else []) + Prune(w, ps, rows[1..])
  }

  /** What planning must produce. */
  function Specified(w: WorldState, ps: seq<Query>): seq<seq<Entity>>
    requires WellBound(ps)
  {
    Prune(w, ps, Build(w, ps, [], Product))
  }

  /** What `states` computes. */
  function States(w: WorldState, ps: seq<Query>): seq<seq<Entity>>
    requires WellBound(ps)
  {
    Build(w, ps, [], Paired)
  }

  // ---- pair-driven planning is the pruned product ----

  lemma {:induction false} PruneAppend(w: WorldState, ps: seq<Query>, a: seq<seq<Entity>>, b: seq<seq<Entity>>)
    ensures Prune(w, ps, a + b) == Prune(w, ps, a) + Prune(w, ps, b)
  {
    if a == [] {
      assert a + b == b;
    } else {
      assert (a + b)[1..] == a[1..] + b;
      PruneAppend(w, ps, a[1..], b);
    }
  }

  /** The bindings of the parameters already picked. */
  ghost predicate PrefixBound(w: WorldState, ps: seq<Query>, picked: seq<Entity>)
    requires |picked| <= |ps|
  {
    forall j :: 0 <= j < |picked| ==> Bound(w, ps, picked, j)
  }

  /** A binding looks only at its own row and its provider's, so it is settled once both are picked. */
  lemma BoundIsSettled(w: WorldState, ps: seq<Query>, a: seq<Entity>, b: seq<Entity>, j: nat)
    requires WellBound(ps) && j < |a| <= |b| && j < |ps| && a == b[..|a|]
    ensures Bound(w, ps, a, j) == Bound(w, ps, b, j)
  {
    if !ps[j].binding.Free? {
      var i :| 0 <= i < j && OnlyProvider(ps, i, j);
      ProviderFound(ps, i, j, 0);
      assert a[i] == b[i] && a[j] == b[j];
    }
  }

  ghost predicate Extends(picked: seq<Entity>, rows: seq<seq<Entity>>, n: nat) {
    forall k :: 0 <= k < |rows| ==> |rows[k]| == n && |picked| <= n && rows[k][..|picked|] == picked
  }

  lemma {:induction false} BuildExtends(w: WorldState, ps: seq<Query>, picked: seq<Entity>, mode: Mode)
    requires WellBound(ps) && |picked| <= |ps|
    ensures Extends(picked, Build(w, ps, picked, mode), |ps|)
    decreases |ps| - |picked|, 1, 0
  {
    if |picked| < |ps| { ExpandExtends(w, ps, picked, Candidates(w, ps, picked, mode), mode); }
  }

  lemma {:induction false} ExpandExtends(w: WorldState, ps: seq<Query>, picked: seq<Entity>, rows: seq<Entity>, mode: Mode)
    requires WellBound(ps) && |picked| < |ps|
    ensures Extends(picked, Expand(w, ps, picked, rows, mode), |ps|)
    decreases |ps| - |picked|, 0, |rows|
  {
    if rows != [] {
      var next := picked + [rows[0]];
      BuildExtends(w, ps, next, mode);
      ExpandExtends(w, ps, picked, rows[1..], mode);
      var front := Build(w, ps, next, mode);
      forall k | 0 <= k < |front| ensures front[k][..|picked|] == picked {
        assert front[k][..|next|] == next;
        assert front[k][..|picked|] == next[..|picked|];
      }
    }
  }

  /** Nothing survives pruning below a prefix whose own binding fails. */
  lemma {:induction false} DeadPrefix(w: WorldState, ps: seq<Query>, picked: seq<Entity>, rows: seq<seq<Entity>>)
    requires WellBound(ps) && |picked| <= |ps| && !PrefixBound(w, ps, picked)
    requires Extends(picked, rows, |ps|)
    ensures Prune(w, ps, rows) == []
    decreases |rows|
  {
    if rows != [] {
      var j :| 0 <= j < |picked| && !Bound(w, ps, picked, j);
      BoundIsSettled(w, ps, picked, rows[0], j);
      assert forall k :: 0 <= k < |rows[1..]| ==> rows[1..][k] == rows[k + 1];
      DeadPrefix(w, ps, picked, rows[1..]);
    }
  }

  /** The rows of the next parameter that its binding admits. */
  function Admitted(w: WorldState, ps: seq<Query>, picked: seq<Entity>, rows: seq<Entity>): (r: seq<Entity>)
    requires |picked| < |ps|
    ensures forall e: Entity :: e in r <==> e in rows && Bound(w, ps, picked + [e], |picked|)
    ensures StrictlySorted(rows) ==> StrictlySorted(r)
  {
    if rows == [] then []
    else
      var rest := Admitted(w, ps, picked, rows[1..]);
      assert forall e: Entity :: e in rows <==> e == rows[0] || e in rows[1..];
      Prepend(rows[0], rest);
      if Bound(w, ps, picked + [rows[0]], |picked|) then [rows[0]] + rest else rest
  }

  /** Stored inverses are ascending, so a member list can be compared with enumerated rows. */
  ghost predicate Readable(w: WorldState, ps: seq<Query>) {
    && IndexExact(w)
    && forall v, e: Entity :: InOf(v) in Bindings(ps) ==> StrictlySorted(Members(w, v, e))
  }

  function Bindings(ps: seq<Query>): set<Binding> {
    set i | 0 <= i < |ps| :: ps[i].binding
  }

  /** Full enumeration and the pair list of one parameter, apart from the binding. */
  predicate Offered(w: WorldState, q: Query, e: Entity) {
    if q.binding.Free? then Listed(w, q, e) else Narrowed(w, q, e)
  }

  lemma PairRowAt(w: WorldState, ps: seq<Query>, picked: seq<Entity>, i: nat, e: Entity)
    requires |picked| < |ps| && Required(ps[|picked|]) != [] && IndexExact(w)
    requires ps[|picked|].binding.Free? || (i < |picked| && i == ProviderFrom(ps, |picked|, 0))
    ensures e in PairRows(w, ps, picked, i) <==> Offered(w, ps[|picked|], e) && Bound(w, ps, picked + [e], |picked|)
  {
    var j := |picked|;
    var q := ps[j];
    var row := picked + [e];
    assert row[j] == e && (i < j ==> row[i] == picked[i]);
    match q.binding {
      case Free => RowsAre(w, q);
      case EqOn(k) =>
        if StampAt(w, k, picked[i]).Some? {
          var s := StampAt(w, k, picked[i]).value;
          assert e in Bucket(w, k, s) <==> Has(w, k, e) && StampAt(w, k, e) == Some(s);
        }
      case InOf(v) =>
    }
  }

  lemma PairRowsSorted(w: WorldState, ps: seq<Query>, picked: seq<Entity>, i: nat)
    requires |picked| < |ps| && Required(ps[|picked|]) != [] && Readable(w, ps)
    ensures StrictlySorted(PairRows(w, ps, picked, i))
  {
    assert ps[|picked|].binding in Bindings(ps);
    RowsAre(w, ps[|picked|]);
  }

  /** A joined bare handle's row has the anchor: what its pair list does not check. */
  predicate AnchoredAt(w: WorldState, q: Query, e: Entity) {
    q.binding.Free? || Exact(q) || Carries(w, q.anchor, e)
  }

  function AnchoredIn(w: WorldState, q: Query, es: seq<Entity>): (r: seq<Entity>)
    ensures forall e: Entity :: e in r <==> e in es && AnchoredAt(w, q, e)
    ensures StrictlySorted(es) ==> StrictlySorted(r)
  {
    if es == [] then []
    else
      var rest := AnchoredIn(w, q, es[1..]);
      assert forall e: Entity :: e in es <==> e == es[0] || e in es[1..];
      Prepend(es[0], rest);
      if AnchoredAt(w, q, es[0]) then [es[0]] + rest else rest
  }

  predicate Anchored(w: WorldState, ps: seq<Query>, row: seq<Entity>) {
    forall j :: 0 <= j < |ps| && j < |row| ==> AnchoredAt(w, ps[j], row[j])
  }

  /** The full enumeration narrowed to the provider's partners is the pair list without its unanchored entities. */
  lemma PairRowsNarrow(w: WorldState, ps: seq<Query>, picked: seq<Entity>)
    requires WellBound(ps) && |picked| < |ps| && Readable(w, ps)
    ensures var q := ps[|picked|]; var pairs := PairRows(w, ps, picked, ProviderFrom(ps, |picked|, 0));
      AnchoredIn(w, q, pairs) == Admitted(w, ps, picked, Rows(w, q))
  {
    var j := |picked|;
    var i := ProviderFrom(ps, j, 0);
    var pairs, rows := AnchoredIn(w, ps[j], PairRows(w, ps, picked, i)), Admitted(w, ps, picked, Rows(w, ps[j]));
    RowsAre(w, ps[j]);
    PairRowsSorted(w, ps, picked, i);
    if !ps[j].binding.Free? {
      var p :| 0 <= p < j && OnlyProvider(ps, p, j);
      ProviderFound(ps, p, j, 0);
    }
    forall e: Entity ensures e in pairs <==> e in rows {
      PairRowAt(w, ps, picked, i, e);
      NarrowedIsListed(w, ps[j], e);
    }
    SortedUnique(pairs, rows);
  }

  /**
   A pair list is exactly the full enumeration narrowed to the provider's partners, if and only if no bare handle is
   handed a partner that passes its filter but lacks its anchor.
   */
  lemma PairRowsAreAdmitted(w: WorldState, ps: seq<Query>, picked: seq<Entity>)
    requires WellBound(ps) && |picked| < |ps| && Readable(w, ps)
    ensures var q := ps[|picked|]; var i := ProviderFrom(ps, |picked|, 0);
      PairRows(w, ps, picked, i) == Admitted(w, ps, picked, Rows(w, q)) <==>
        (Exact(q) || forall e :: e in HandedOver(w, ps, picked, i) && Lacks(w, q.without, e) ==> Carries(w, q.anchor, e))
  {
    var q := ps[|picked|];
    var i := ProviderFrom(ps, |picked|, 0);
    var pairs := PairRows(w, ps, picked, i);
    PairRowsNarrow(w, ps, picked);
    PairRowsSorted(w, ps, picked, i);
    if forall e :: e in pairs ==> AnchoredAt(w, q, e) {
      SortedUnique(AnchoredIn(w, q, pairs), pairs);
    }
    if !Exact(q) && !q.binding.Free? {
      forall e ensures e in pairs <==> e in HandedOver(w, ps, picked, i) && Lacks(w, q.without, e) {}
    }
  }

  /** The rows all of whose joined bare handles have their anchor. */
  function Sieve(w: WorldState, ps: seq<Query>, rows: seq<seq<Entity>>): seq<seq<Entity>> {
    if rows == [] then []
    else (if Anchored(w, ps, rows[0]) then [rows[0]] else []) + Sieve(w, ps, rows[1..])
  }

  lemma {:induction false} SieveAppend(w: WorldState, ps: seq<Query>, a: seq<seq<Entity>>, b: seq<seq<Entity>>)
    ensures Sieve(w, ps, a + b) == Sieve(w, ps, a) + Sieve(w, ps, b)
  {
    if a == [] {
      assert a + b == b;
    } else {
      var head := if Anchored(w, ps, a[0]) then [a[0]] else [];
      assert (a + b)[1..] == a[1..] + b && (a + b)[0] == a[0];
      SieveAppend(w, ps, a[1..], b);
      assert Sieve(w, ps, a + b) == head + (Sieve(w, ps, a[1..]) + Sieve(w, ps, b));
    }
  }

  /** Nothing below a prefix with an unanchored entity survives the sieve. */
  lemma {:induction false} SieveDrops(w: WorldState, ps: seq<Query>, picked: seq<Entity>, rows: seq<seq<Entity>>)
    requires |picked| <= |ps| && !Anchored(w, ps, picked) && Extends(picked, rows, |ps|)
    ensures Sieve(w, ps, rows) == []
    decreases |rows|
  {
    if rows != [] {
      var j :| 0 <= j < |ps| && j < |picked| && !AnchoredAt(w, ps[j], picked[j]);
      assert rows[0][j] == rows[0][..|picked|][j];
      assert forall k :: 0 <= k < |rows[1..]| ==> rows[1..][k] == rows[k + 1];
      SieveDrops(w, ps, picked, rows[1..]);
    }
  }

  lemma {:induction false} SieveIs(w: WorldState, ps: seq<Query>, rows: seq<seq<Entity>>)
    ensures forall row :: row in Sieve(w, ps, rows) <==> row in rows && Anchored(w, ps, row)
    ensures Sieve(w, ps, rows) == rows <==> forall row :: row in rows ==> Anchored(w, ps, row)
    ensures |Sieve(w, ps, rows)| <= |rows|
  {
    if rows != [] {
      SieveIs(w, ps, rows[1..]);
      assert forall row :: row in rows <==> row == rows[0] || row in rows[1..];
      if Anchored(w, ps, rows[0]) { assert rows == [rows[0]] + rows[1..]; }
    }
  }

  /** Unanchored entities of a pair list add nothing that survives the sieve. */
  lemma {:induction false} ExpandSieves(w: WorldState, ps: seq<Query>, picked: seq<Entity>, rows: seq<Entity>)
    requires WellBound(ps) && |picked| < |ps| && Anchored(w, ps, picked)
    ensures Sieve(w, ps, Expand(w, ps, picked, rows, Paired))
            == Sieve(w, ps, Expand(w, ps, picked, AnchoredIn(w, ps[|picked|], rows), Paired))
  {
    if rows != [] {
      var next := picked + [rows[0]];
      var front, back := Build(w, ps, next, Paired), Expand(w, ps, picked, rows[1..], Paired);
      SieveAppend(w, ps, front, back);
      ExpandSieves(w, ps, picked, rows[1..]);
      var kept := AnchoredIn(w, ps[|picked|], rows);
      if AnchoredAt(w, ps[|picked|], rows[0]) {
        assert kept[0] == rows[0] && kept[1..] == AnchoredIn(w, ps[|picked|], rows[1..]);
        SieveAppend(w, ps, front, Expand(w, ps, picked, kept[1..], Paired));
      } else {
        assert next[|picked|] == rows[0] && !Anchored(w, ps, next);
        BuildExtends(w, ps, next, Paired);
        SieveDrops(w, ps, next, front);
        assert [] + Sieve(w, ps, back) == Sieve(w, ps, back);
      }
    }
  }

  lemma {:induction false} ExpandAgrees(w: WorldState, ps: seq<Query>, picked: seq<Entity>, rows: seq<Entity>)
    requires WellBound(ps) && |picked| < |ps| && Readable(w, ps) && PrefixBound(w, ps, picked) && Anchored(w, ps, picked)
    requires forall e :: e in rows ==> AnchoredAt(w, ps[|picked|], e)
    ensures Prune(w, ps, Expand(w, ps, picked, rows, Product))
            == Sieve(w, ps, Expand(w, ps, picked, Admitted(w, ps, picked, rows), Paired))
    decreases |ps| - |picked|, 0, |rows|
  {
    if rows != [] {
      var next := picked + [rows[0]];
      var front, back := Build(w, ps, next, Product), Expand(w, ps, picked, rows[1..], Product);
      PruneAppend(w, ps, front, back);
      ExpandAgrees(w, ps, picked, rows[1..]);
      if Bound(w, ps, next, |picked|) {
        forall j | 0 <= j < |next| ensures Bound(w, ps, next, j) {
          if j < |picked| { BoundIsSettled(w, ps, picked, next, j); }
        }
        assert rows[0] in rows;
        BuildAgrees(w, ps, next);
        var admitted := Admitted(w, ps, picked, rows);
        assert admitted[0] == rows[0] && admitted[1..] == Admitted(w, ps, picked, rows[1..]);
        SieveAppend(w, ps, Build(w, ps, next, Paired), Expand(w, ps, picked, admitted[1..], Paired));
      } else {
        assert !PrefixBound(w, ps, next);
        BuildExtends(w, ps, next, Product);
        DeadPrefix(w, ps, next, front);
        assert Admitted(w, ps, picked, rows) == Admitted(w, ps, picked, rows[1..]);
        assert [] + Prune(w, ps, back) == Prune(w, ps, back);
      }
    }
  }

  lemma {:induction false} BuildAgrees(w: WorldState, ps: seq<Query>, picked: seq<Entity>)
    requires WellBound(ps) && |picked| <= |ps| && Readable(w, ps) && PrefixBound(w, ps, picked) && Anchored(w, ps, picked)
    ensures Prune(w, ps, Build(w, ps, picked, Product)) == Sieve(w, ps, Build(w, ps, picked, Paired))
    decreases |ps| - |picked|, 1, 0
  {
    if |picked| < |ps| {
      var q := ps[|picked|];
      forall e | e in Rows(w, q) ensures AnchoredAt(w, q, e) {
        RowsAre(w, q);
        NarrowedIsListed(w, q, e);
      }
      ExpandAgrees(w, ps, picked, Rows(w, q));
      PairRowsNarrow(w, ps, picked);
      ExpandSieves(w, ps, picked, Candidates(w, ps, picked, Paired));
    } else {
      assert BindingMatches(w, ps, picked);
      assert Build(w, ps, picked, Product) == [picked] == Build(w, ps, picked, Paired);
      assert Prune(w, ps, [picked]) == [picked] + Prune(w, ps, [picked][1..]);
      assert Sieve(w, ps, [picked]) == [picked] + Sieve(w, ps, [picked][1..]);
    }
  }

  /** The pruned product is what pair-driven planning enumerates, in the same order, less its unanchored rows. */
  lemma PrunedProductIsSievedPairs(w: WorldState, ps: seq<Query>)
    requires WellBound(ps) && Readable(w, ps)
    ensures Specified(w, ps) == Sieve(w, ps, States(w, ps))
    ensures forall row :: row in Specified(w, ps) <==> row in States(w, ps) && Anchored(w, ps, row)
  {
    BuildAgrees(w, ps, []);
    SieveIs(w, ps, States(w, ps));
  }

  /**
   Pair-driven planning enumerates the pruned product, the same rows, in the same order, as often, if and only if no
   planned row has a joined bare handle without its anchor; so always when every joined handle has a part or filter
   beside it.
   */
  lemma PairDrivenIsPrunedProduct(w: WorldState, ps: seq<Query>)
    requires WellBound(ps) && Readable(w, ps)
    ensures States(w, ps) == Specified(w, ps) <==> forall row :: row in States(w, ps) ==> Anchored(w, ps, row)
    ensures (forall j :: 0 <= j < |ps| ==> ps[j].binding.Free? || Exact(ps[j])) ==> States(w, ps) == Specified(w, ps)
  {
    PrunedProductIsSievedPairs(w, ps);
    SieveIs(w, ps, States(w, ps));
  }

  // ---- membership and distinctness ----

  /** A completed row is enumerated exactly when each of its entities was a candidate at its turn. */
  ghost predicate Enumerated(w: WorldState, ps: seq<Query>, row: seq<Entity>, from: nat, mode: Mode)
    requires WellBound(ps)
  {
    |row| == |ps| && forall j :: from <= j < |ps| ==> row[j] in Candidates(w, ps, row[..j], mode)
  }

  lemma {:induction false} BuildMembers(w: WorldState, ps: seq<Query>, picked: seq<Entity>, mode: Mode, row: seq<Entity>)
    requires WellBound(ps) && |picked| <= |ps|
    ensures row in Build(w, ps, picked, mode) <==>
              Enumerated(w, ps, row, |picked|, mode) && row[..|picked|] == picked
    decreases |ps| - |picked|, 1, 0
  {
    if |picked| == |ps| {
      if |row| == |ps| { assert row[..|picked|] == row; }
    } else {
      ExpandMembers(w, ps, picked, Candidates(w, ps, picked, mode), mode, row);
    }
  }

  lemma {:induction false} ExpandMembers(w: WorldState, ps: seq<Query>, picked: seq<Entity>, rows: seq<Entity>, mode: Mode, row: seq<Entity>)
    requires WellBound(ps) && |picked| < |ps|
    ensures row in Expand(w, ps, picked, rows, mode) <==>
              Enumerated(w, ps, row, |picked| + 1, mode) && row[..|picked|] == picked && row[|picked|] in rows
    decreases |ps| - |picked|, 0, |rows|
  {
    if rows != [] {
      var next := picked + [rows[0]];
      BuildMembers(w, ps, next, mode, row);
      ExpandMembers(w, ps, picked, rows[1..], mode, row);
      if |row| == |ps| {
        PrefixSplits(row, picked, rows[0]);
        assert row[|picked|] in rows <==> row[|picked|] == rows[0] || row[|picked|] in rows[1..];
      }
    }
  }

  lemma PrefixSplits(row: seq<Entity>, picked: seq<Entity>, e: Entity)
    requires |picked| < |row|
    ensures row[..|picked| + 1] == picked + [e] <==> row[..|picked|] == picked && row[|picked|] == e
  {
    assert row[..|picked| + 1] == row[..|picked|] + [row[|picked|]];
  }

  ghost predicate Distinct(rows: seq<seq<Entity>>) {
    forall a, b :: 0 <= a < b < |rows| ==> rows[a] != rows[b]
  }

  lemma {:induction false} ExpandDistinct(w: WorldState, ps: seq<Query>, picked: seq<Entity>, rows: seq<Entity>, mode: Mode)
    requires WellBound(ps) && |picked| < |ps| && Readable(w, ps) && StrictlySorted(rows)
    ensures Distinct(Expand(w, ps, picked, rows, mode))
    decreases |ps| - |picked|, 0, |rows|
  {
    if rows != [] {
      var next := picked + [rows[0]];
      var front, back := Build(w, ps, next, mode), Expand(w, ps, picked, rows[1..], mode);
      BuildDistinct(w, ps, next, mode);
      ExpandDistinct(w, ps, picked, rows[1..], mode);
      forall a, b | 0 <= a < |front| && 0 <= b < |back| ensures front[a] != back[b] {
        BuildExtends(w, ps, next, mode);
        ExpandMembers(w, ps, picked, rows[1..], mode, back[b]);
        assert back[b] in back;
        assert front[a][..|next|] == next;
        assert front[a][|picked|] == next[|picked|];
        assert back[b][|picked|] in rows[1..];
      }
    }
  }

  lemma CandidatesSorted(w: WorldState, ps: seq<Query>, picked: seq<Entity>, mode: Mode)
    requires |picked| < |ps| && Required(ps[|picked|]) != [] && Readable(w, ps)
    ensures StrictlySorted(Candidates(w, ps, picked, mode))
  {
    RowsAre(w, ps[|picked|]);
    PairRowsSorted(w, ps, picked, ProviderFrom(ps, |picked|, 0));
  }

  lemma {:induction false} BuildDistinct(w: WorldState, ps: seq<Query>, picked: seq<Entity>, mode: Mode)
    requires WellBound(ps) && |picked| <= |ps| && Readable(w, ps)
    ensures Distinct(Build(w, ps, picked, mode))
    decreases |ps| - |picked|, 1, 0
  {
    if |picked| < |ps| {
      CandidatesSorted(w, ps, picked, mode);
      ExpandDistinct(w, ps, picked, Candidates(w, ps, picked, mode), mode);
    }
  }

  /** No row is planned twice. */
  lemma PlannedOnce(w: WorldState, ps: seq<Query>, mode: Mode)
    requires WellBound(ps) && Readable(w, ps)
    ensures Distinct(Build(w, ps, [], mode))
  {
    BuildDistinct(w, ps, [], mode);
  }
}
