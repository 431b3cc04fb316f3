/** What a running invocation may touch, and when two of them may not run together. */
module Accesses {
  import opened Ids

  datatype AccessKind = Read | Write

  /** Access to one component row, or to a whole store when `entity` is `None`. */
  datatype Access = Access(kind: AccessKind, component: TypeId, entity: Option<Entity>)

  /** The pairwise rule. */
  predicate Conflicts(a: Access, b: Access) {
    && a.component == b.component
    && (a.kind.Write? || b.kind.Write?)
    && (a.entity.Some? && b.entity.Some? ==> a.entity == b.entity)
  }

  /** Some access of one invocation conflicts with some access of another. */
  predicate Clash(xs: seq<Access>, ys: seq<Access>) {
    exists i, j :: 0 <= i < |xs| && 0 <= j < |ys| && Conflicts(xs[i], ys[j])
  }

  predicate Writes(xs: seq<Access>) {
    exists i :: 0 <= i < |xs| && xs[i].kind.Write?
  }
}
