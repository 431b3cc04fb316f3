/**
 Presence bitmaps: one bit per (entity, component) over a closed component universe.

 The words are stored row-major, `stride` words to an entity. A 64-bit word is modelled as the set
 of positions of its one bits, so `|`, `& !` and `& mask == mask` are union, difference and subset.
 */
module Presence {
  import opened Ids
  import opened Ascending

  type Word = set<nat>

  datatype Bitmap = Bitmap(bitFor: map<TypeId, nat>, stride: nat, words: seq<Word>) {

    ghost predicate Valid() {
      && stride > 0
      && |words| % stride == 0
      && (forall t :: t in bitFor ==> bitFor[t] / 64 < stride)
      && (forall t, u :: t in bitFor && u in bitFor && bitFor[t] == bitFor[u] ==> t == u)
    }

    /** Whether `entity` carries component `t`, as the stored bits have it. */
    predicate Bit(t: TypeId, entity: Entity)
      requires stride > 0
    {
      t in bitFor && bitFor[t] / 64 < stride && entity * stride + bitFor[t] / 64 < |words|
      && bitFor[t] % 64 in words[entity * stride + bitFor[t] / 64]
    }

    /** Sets or clears one bit; clearing a bit of a row that was never allocated allocates nothing. */
    function Set(t: TypeId, entity: Entity, present: bool): (r: Bitmap)
      requires Valid()
      ensures r.Valid() && r.stride == stride && r.bitFor == bitFor
    {
      GrownValid(stride, entity, |words|);
      if t !in bitFor then this
      else
        var row := entity * stride;
        if |words| < row + stride && !present then this
        else
          var grown := Grow(words, row + stride);
          var at := row + bitFor[t] / 64;
          var flag := {bitFor[t] % 64};
          this.(words := grown[at := if present then grown[at] + flag else grown[at] - flag])
    }

    /** Clears the whole row of an entity. */
    function ClearEntity(entity: Entity): (r: Bitmap)
      requires Valid()
      ensures r.Valid() && r.stride == stride && r.bitFor == bitFor
    {
      var row := entity * stride;
      if row >= |words| then this
      else
        RowFits(entity, |words|, stride);
        this.(words := words[..row] + seq(stride, _ => {}) + words[row + stride..])
    }
  }

  /** A laid-out presence index. */
  type PresenceIndex = b: Bitmap | b.Valid() witness Bitmap(map[], 1, [])

  /** Zero-fills up to `n` words. */
  function Grow(words: seq<Word>, n: nat): (r: seq<Word>)
    ensures |r| == Max(|words|, n)
    ensures forall i :: 0 <= i < |r| ==> r[i] == if i < |words| then words[i] else {}
  {
    if |words| < n then words + seq(n - |words|, _ => {}) else words
  }

  lemma RowFits(entity: nat, len: nat, stride: nat)
    requires stride > 0 && len % stride == 0 && entity * stride < len
    ensures entity * stride + stride <= len
  {
    var rows := len / stride;
    assert len == rows * stride;
    if entity >= rows {
      MulMonotone(rows, entity, stride);
      assert false;
    }
    MulMonotone(entity + 1, rows, stride);
    assert (entity + 1) * stride == entity * stride + stride;
  }

  lemma MulMonotone(a: nat, b: nat, k: nat)
    requires a <= b
    ensures a * k <= b * k
  {
    assert b * k == a * k + (b - a) * k;
  }

  /** Two cells of the row-major layout coincide only when row and column do. */
  lemma CellUnique(stride: nat, e: nat, i: nat, f: nat, j: nat)
    requires i < stride && j < stride
    ensures e * stride + i == f * stride + j <==> e == f && i == j
  {
    if e < f {
      MulMonotone(e + 1, f, stride);
      assert (e + 1) * stride == e * stride + stride;
    } else if f < e {
      MulMonotone(f + 1, e, stride);
      assert (f + 1) * stride == f * stride + stride;
    }
  }

  lemma GrownValid(stride: nat, entity: nat, len: nat)
    requires stride > 0 && len % stride == 0
    ensures Max(len, entity * stride + stride) % stride == 0
  {
    assert entity * stride + stride == (entity + 1) * stride;
    MultipleMod(entity + 1, stride);
  }

  lemma MultipleMod(k: nat, stride: nat)
    requires stride > 0
    ensures (k * stride) % stride == 0
  {
    var x := k * stride;
    MulMonotone(0, k, stride);
    var q, r := x / stride, x % stride;
    assert x == q * stride + r;
    CellUnique(stride, k, 0, q, r);
  }

  /** `Set` changes exactly the one bit it names. */
  lemma SetChangesOneBit(p: PresenceIndex, t: TypeId, entity: Entity, present: bool)
    ensures forall u: TypeId, e: Entity :: p.Set(t, entity, present).Bit(u, e) <==>
              if u == t && e == entity then present && t in p.bitFor else p.Bit(u, e)
  {
    var r := p.Set(t, entity, present);
    forall u: TypeId, e: Entity
      ensures r.Bit(u, e) <==> if u == t && e == entity then present && t in p.bitFor else p.Bit(u, e)
    {
      if t in p.bitFor && u in p.bitFor {
        SetAt(p, t, entity, present, u, e);
      }
    }
  }

  lemma SetAt(p: PresenceIndex, t: TypeId, entity: Entity, present: bool, u: TypeId, e: Entity)
    requires t in p.bitFor && u in p.bitFor
    ensures p.Set(t, entity, present).Bit(u, e) <==> if u == t && e == entity then present else p.Bit(u, e)
  {
    var r := p.Set(t, entity, present);
    var i, j := p.bitFor[t] / 64, p.bitFor[u] / 64;
    var at, probe := entity * p.stride + i, e * p.stride + j;
    CellUnique(p.stride, entity, i, e, j);
    var row := entity * p.stride;
    if |p.words| < row + p.stride && !present {
      if u == t && e == entity && row < |p.words| {
        RowFits(entity, |p.words|, p.stride);
      }
    } else {
      var grown := Grow(p.words, row + p.stride);
      assert r.words == grown[at := if present then grown[at] + {p.bitFor[t] % 64} else grown[at] - {p.bitFor[t] % 64}];
      if probe != at && probe < |r.words| {
        assert r.words[probe] == grown[probe];
      }
      if probe == at {
        assert e == entity && i == j;
        assert p.bitFor[t] % 64 == p.bitFor[u] % 64 <==> t == u by {
          if p.bitFor[t] % 64 == p.bitFor[u] % 64 { assert p.bitFor[t] == p.bitFor[u]; }
        }
      }
    }
  }

  /** `ClearEntity` clears exactly the bits of its entity. */
  lemma ClearEntityClearsRow(p: PresenceIndex, entity: Entity)
    ensures forall u: TypeId, e: Entity :: p.ClearEntity(entity).Bit(u, e) <==> p.Bit(u, e) && e != entity
  {
    var r := p.ClearEntity(entity);
    var row := entity * p.stride;
    if row < |p.words| {
      RowFits(entity, |p.words|, p.stride);
      assert |r.words| == |p.words|;
      forall u: TypeId, e: Entity ensures r.Bit(u, e) <==> p.Bit(u, e) && e != entity {
        if u in p.bitFor {
          var col := p.bitFor[u] / 64;
          var at := e * p.stride + col;
          if e < entity {
            MulMonotone(e + 1, entity, p.stride);
            assert (e + 1) * p.stride == e * p.stride + p.stride;
            assert at < row;
          } else if entity < e {
            MulMonotone(entity + 1, e, p.stride);
            assert (entity + 1) * p.stride == row + p.stride;
            assert at >= row + p.stride;
          }
        }
      }
    }
  }

  ghost predicate AllPresent(p: PresenceIndex, types: seq<TypeId>, entity: Entity)
  {
    forall i :: 0 <= i < |types| ==> p.Bit(types[i], entity)
  }

  /** What a mask of a conjunction of components must hold: exactly their bits, word by word. */
  ghost predicate IsMask(p: PresenceIndex, types: seq<TypeId>, mask: seq<Word>) {
    && |mask| == p.stride
    && (forall i :: 0 <= i < |types| ==> types[i] in p.bitFor)
    && (forall w, b :: 0 <= w < |mask| && b in mask[w] ==>
          exists i :: 0 <= i < |types| && types[i] in p.bitFor
                      && p.bitFor[types[i]] / 64 == w && p.bitFor[types[i]] % 64 == b)
    && (forall i :: 0 <= i < |types| ==>
          types[i] in p.bitFor && p.bitFor[types[i]] / 64 < |mask|
          && p.bitFor[types[i]] % 64 in mask[p.bitFor[types[i]] / 64])
  }

  /** The mask of a conjunction; `None` as soon as one component lies outside the universe. */
  method MaskOf(p: PresenceIndex, types: seq<TypeId>) returns (r: Option<seq<Word>>)
    ensures r.None? <==> exists i :: 0 <= i < |types| && types[i] !in p.bitFor
    ensures r.Some? ==> IsMask(p, types, r.value)
  {
    var mask: seq<Word> := seq(p.stride, _ => {});
    var n := 0;
    while n < |types|
      invariant 0 <= n <= |types|
      invariant IsMask(p, types[..n], mask)
    {
      if types[n] !in p.bitFor {
        return None;
      }
      var t := types[n];
      var bit := p.bitFor[t];
      assert t in p.bitFor && p.bitFor[t] / 64 < p.stride;
      ghost var before := mask;
      mask := mask[bit / 64 := mask[bit / 64] + {bit % 64}];
      MaskExtends(p, types, n, before, mask);
      n := n + 1;
    }
    assert types[..n] == types;
    r := Some(mask);
  }

  lemma MaskExtends(p: PresenceIndex, types: seq<TypeId>, n: nat, before: seq<Word>, after: seq<Word>)
    requires n < |types| && types[n] in p.bitFor
    requires IsMask(p, types[..n], before) && p.bitFor[types[n]] / 64 < |before|
    requires after == before[p.bitFor[types[n]] / 64 := before[p.bitFor[types[n]] / 64] + {p.bitFor[types[n]] % 64}]
    ensures IsMask(p, types[..n + 1], after)
  {
    var old_, new_ := types[..n], types[..n + 1];
    assert forall i :: 0 <= i < n ==> new_[i] == old_[i];
    assert new_[n] == types[n];
    forall w, b | 0 <= w < |after| && b in after[w]
      ensures exists i :: 0 <= i < |new_| && new_[i] in p.bitFor && p.bitFor[new_[i]] / 64 == w && p.bitFor[new_[i]] % 64 == b
    {
      if b in before[w] {
        var i :| 0 <= i < |old_| && old_[i] in p.bitFor && p.bitFor[old_[i]] / 64 == w && p.bitFor[old_[i]] % 64 == b;
        assert new_[i] == old_[i];
      } else {
        assert new_[n] in p.bitFor;
      }
    }
    forall i | 0 <= i < |new_|
      ensures new_[i] in p.bitFor && p.bitFor[new_[i]] / 64 < |after| && p.bitFor[new_[i]] % 64 in after[p.bitFor[new_[i]] / 64]
    {
      if i < n { assert new_[i] == old_[i]; }
    }
  }

  /** Word-parallel test of one row; an unallocated row matches only the empty mask. */
  predicate Matches(p: PresenceIndex, entity: Entity, mask: seq<Word>)
    requires |mask| == p.stride
  {
    var row := entity * p.stride;
    if row + p.stride > |p.words| then forall i :: 0 <= i < |mask| ==> mask[i] == {}
    else forall i :: 0 <= i < |mask| ==> mask[i] <= p.words[row + i]
  }

  /** One mask test decides the whole conjunction of store probes. */
  lemma MaskDecidesConjunction(p: PresenceIndex, types: seq<TypeId>, mask: seq<Word>, entity: Entity)
    requires IsMask(p, types, mask)
    ensures Matches(p, entity, mask) <==> AllPresent(p, types, entity)
  {
    var row := entity * p.stride;
    if row < |p.words| { RowFits(entity, |p.words|, p.stride); }
    if Matches(p, entity, mask) {
      forall i | 0 <= i < |types| ensures p.Bit(types[i], entity) {
        var bit := p.bitFor[types[i]];
        assert bit % 64 in mask[bit / 64];
      }
    }
    if AllPresent(p, types, entity) {
      forall w, b | 0 <= w < |mask| && b in mask[w]
        ensures row + p.stride <= |p.words| && b in p.words[row + w]
      {
        var i :| 0 <= i < |types| && types[i] in p.bitFor && p.bitFor[types[i]] / 64 == w && p.bitFor[types[i]] % 64 == b;
        assert p.Bit(types[i], entity);
      }
    }
  }

  /** Row scan for a non-empty conjunction: every matching entity, once, ascending. */
  method EntitiesMatching(p: PresenceIndex, types: seq<TypeId>, mask: seq<Word>) returns (out: seq<Entity>)
    requires IsMask(p, types, mask) && types != []
    ensures StrictlySorted(out)
    ensures forall e: Entity :: e in out <==> AllPresent(p, types, e)
  {
    var rows := |p.words| / p.stride;
    out := [];
    var row := 0;
    while row < rows
      invariant 0 <= row <= rows
      invariant StrictlySorted(out)
      invariant forall e: Entity :: e in out <==> e < row && AllPresent(p, types, e)
    {
      RowBounds(|p.words|, p.stride, row);
      var start := row * p.stride;
      var hit := forall i :: 0 <= i < |mask| ==> mask[i] <= p.words[start + i];
      HitDecides(p, types, mask, row, hit);
      if hit {
        Append(out, row);
        out := out + [row];
      }
      row := row + 1;
    }
    forall e: Entity | AllPresent(p, types, e) ensures e < rows {
      PresentInRange(p, types, e);
    }
  }

  lemma HitDecides(p: PresenceIndex, types: seq<TypeId>, mask: seq<Word>, row: Entity, hit: bool)
    requires IsMask(p, types, mask) && row * p.stride + p.stride <= |p.words|
    requires hit == forall i :: 0 <= i < |mask| ==> mask[i] <= p.words[row * p.stride + i]
    ensures hit <==> AllPresent(p, types, row)
  {
    MaskDecidesConjunction(p, types, mask, row);
    assert Matches(p, row, mask) == hit;
  }

  lemma PresentInRange(p: PresenceIndex, types: seq<TypeId>, e: Entity)
    requires types != [] && AllPresent(p, types, e)
    ensures e < |p.words| / p.stride
  {
    assert p.Bit(types[0], e);
    RowBounds(|p.words|, p.stride, e);
  }

  lemma RowBounds(len: nat, stride: nat, row: nat)
    requires stride > 0 && len % stride == 0
    ensures row < len / stride ==> row * stride + stride <= len
    ensures row >= len / stride ==> row * stride >= len
  {
    var rows := len / stride;
    assert len == rows * stride;
    if row < rows {
      MulMonotone(row + 1, rows, stride);
      assert (row + 1) * stride == row * stride + stride;
    } else {
      MulMonotone(rows, row, stride);
    }
  }
}
