/** What the other modules share. */
module Basics {

  datatype Option<+T> = None | Some(value: T)

  /** The comparisons and the reductions of a graph and of its tape. */
  datatype CmpOp = Gt | Ge | Lt | Le | Eq | Ne
  datatype ReduceOp = Sum | Product | Min | Max

  predicate Distinct<T(==)>(s: seq<T>) { forall i, j :: 0 <= i < j < |s| ==> s[i] != s[j] }

  function Least(a: nat, b: nat): nat { if a < b then a else b }

  /** A product whose factors the proofs that hide it keep apart. */
  function Prod(x: real, y: real): real { x * y }
}
