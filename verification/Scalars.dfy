/** The scalar every evaluator computes in, and the reference order of its
    reductions. Nothing is assumed of the operations: two computations are equal
    here only where they perform the same operations on the same operands. */
module Scalars {
  import opened Basics

  /** A constant is the bit pattern of an `f64`. */
  type Bits = bv64

  const ZERO_BITS: Bits := 0
  const ONE_BITS: Bits := 0x3FF0_0000_0000_0000
  const MINUS_ONE_BITS: Bits := 0xBFF0_0000_0000_0000
  const INF_BITS: Bits := 0x7FF0_0000_0000_0000
  const NEG_INF_BITS: Bits := 0xFFF0_0000_0000_0000

  /** How many partial folds `Fold` keeps. */
  const FOLD_LANES: nat := 4

  datatype Arith = FAdd | FSub | FMul | FDiv
  datatype UnaryOp = Sqrt | Floor | Ceil | Trunc | Abs | Sign | Exp | Ln | Coded(code: nat)

  /** What one instruction computes of one operand. */
  datatype Prim = PNeg | PAbs | PSqrt | PFloor | PCeil | PTrunc

  /** Names the function behind a host call: a bundle's phase, or a kernel's shape
      with its fold codes. */
  datatype Routine =
    | BundleRun(bundle: nat, phase: nat, groups: nat, nArgs: nat, nOut: nat, positions: Option<seq<nat>>)
    | KernelRun(kind: nat, m: nat, k: nat, n: nat, codes: Option<seq<nat>>)

  /** The operations of an execution scalar, uninterpreted. */
  datatype Alg<!V> = Alg(
    konst: Bits -> V,
    arith: (Arith, V, V) -> V,
    prim: (Prim, V) -> V,
    extremum: (bool, V, V) -> V,
    cmpSelect: (CmpOp, V, V, V, V) -> V,
    selectNz: (V, V, V) -> V,
    unary: (UnaryOp, V) -> V,
    binary: (nat, V, V) -> V,
    routine: (Routine, seq<seq<V>>, nat) -> V)

  // --- the reference semantics of one op ---------------------------------------

  /** A unary op, its guards written with the comparisons the reference makes. */
  function UnaryVal<V>(A: Alg<V>, op: UnaryOp, x: V): V {
    var zero := A.konst(ZERO_BITS);
    match op
    case Sqrt => A.cmpSelect(Le, x, zero, zero, A.prim(PSqrt, x))
    case Floor => A.prim(PFloor, x)
    case Ceil => A.prim(PCeil, x)
    case Trunc => A.prim(PTrunc, x)
    case Abs => A.prim(PAbs, x)
    case Sign =>
      A.cmpSelect(Gt, x, zero, A.konst(ONE_BITS), A.cmpSelect(Lt, x, zero, A.konst(MINUS_ONE_BITS), x))
    case _ => A.unary(op, x)
  }

  /** Square and multiply from the low bit: the loop of the reference power. */
  function PowiLoop<V>(A: Alg<V>, base: V, acc: Option<V>, e: nat): Option<V>
    decreases e
  {
    if e == 0 then acc
    else
      var acc' := if e % 2 == 1 then
                    Some(match acc case None => base case Some(a) => A.arith(FMul, a, base))
                  else acc;
      PowiLoop(A, if e / 2 > 0 then A.arith(FMul, base, base) else base, acc', e / 2)
  }

  function AbsNat(n: int): nat { if n < 0 then -n else n }

  function PowiVal<V>(A: Alg<V>, x: V, n: int): V {
    var one := A.konst(ONE_BITS);
    var r := match PowiLoop(A, x, None, AbsNat(n)) case None => one case Some(a) => a;
    if n < 0 then A.arith(FDiv, one, r) else r
  }

  /** The power `-1` is one division. */
  lemma PowiOne<V>(A: Alg<V>, x: V)
    ensures PowiVal(A, x, -1) == A.arith(FDiv, A.konst(ONE_BITS), x)
    ensures PowiVal(A, x, 2) == A.arith(FMul, x, x)
  {
    assert PowiLoop(A, x, None, 1) == PowiLoop(A, x, Some(x), 0);
    var xx := A.arith(FMul, x, x);
    assert PowiLoop(A, x, None, 2) == PowiLoop(A, xx, None, 1);
    assert PowiLoop(A, xx, None, 1) == PowiLoop(A, xx, Some(xx), 0);
  }

  /** Accumulator `l` after `c` rounds of four terms. */
  function Lane<V>(A: Alg<V>, op: Arith, ident: V, terms: seq<V>, l: nat, c: nat): V
    requires l < FOLD_LANES && FOLD_LANES * c <= |terms|
  {
    if c == 0 then ident
    else A.arith(op, Lane(A, op, ident, terms, l, c - 1), terms[FOLD_LANES * (c - 1) + l])
  }

  /** The four accumulators merged. */
  function Merge<V>(A: Alg<V>, op: Arith, ident: V, terms: seq<V>): V {
    var c := |terms| / FOLD_LANES;
    A.arith(op,
            A.arith(op, Lane(A, op, ident, terms, 0, c), Lane(A, op, ident, terms, 1, c)),
            A.arith(op, Lane(A, op, ident, terms, 2, c), Lane(A, op, ident, terms, 3, c)))
  }

  /** `start` with the terms from `from` up to `to` folded in, in order. */
  function Tail<V>(A: Alg<V>, op: Arith, start: V, terms: seq<V>, from: nat, to: nat): V
    requires from <= to <= |terms|
  {
    if from == to then start
    else A.arith(op, Tail(A, op, start, terms, from, to - 1), terms[to - 1])
  }

  /** The fold every evaluator has to reproduce: `Merge` of the whole rounds of four, the leftover
      terms folded in one at a time. */
  function Fold<V>(A: Alg<V>, op: Arith, ident: V, terms: seq<V>): V {
    Tail(A, op, Merge(A, op, ident, terms), terms, FOLD_LANES * (|terms| / FOLD_LANES), |terms|)
  }

  /** The fold as emitted code performs it: under four terms it starts at the
      identity itself. */
  function ShortFold<V>(A: Alg<V>, op: Arith, ident: V, terms: seq<V>): V {
    if |terms| < FOLD_LANES then Tail(A, op, ident, terms, 0, |terms|) else Fold(A, op, ident, terms)
  }

  /** The two folds agree on a scalar whose identity is idempotent (`0 + 0 = 0`,
      `1 * 1 = 1`), whatever the other operations are. */
  lemma ShortFoldIsFold<V>(A: Alg<V>, op: Arith, ident: V, terms: seq<V>)
    requires A.arith(op, ident, ident) == ident
    ensures ShortFold(A, op, ident, terms) == Fold(A, op, ident, terms)
  {
    if |terms| < FOLD_LANES {
      assert |terms| / FOLD_LANES == 0;
      assert Merge(A, op, ident, terms) == ident;
    }
  }

  function Products<V>(A: Alg<V>, xs: seq<V>, ys: seq<V>): (r: seq<V>)
    requires |xs| == |ys|
    ensures |r| == |xs|
  {
    seq(|xs|, k requires 0 <= k < |xs| => A.arith(FMul, xs[k], ys[k]))
  }

  /** The left fold of a min or max; an empty one is the neutral infinity. */
  function Extremum<V>(A: Alg<V>, max: bool, xs: seq<V>): V {
    if |xs| == 0 then A.konst(if max then NEG_INF_BITS else INF_BITS)
    else ExtremumUpTo(A, max, xs, |xs|)
  }

  function ExtremumUpTo<V>(A: Alg<V>, max: bool, xs: seq<V>, n: nat): V
    requires 0 < n <= |xs|
  {
    if n == 1 then xs[0] else A.extremum(max, ExtremumUpTo(A, max, xs, n - 1), xs[n - 1])
  }

  /** A reduction; `short` says whether the additive folds start at the identity
      under four terms, as emitted code does. */
  function ReduceVal<V>(A: Alg<V>, short: bool, op: ReduceOp, xs: seq<V>): V {
    match op
    case Sum => FoldOf(A, short, FAdd, A.konst(ZERO_BITS), xs)
    case Product => FoldOf(A, short, FMul, A.konst(ONE_BITS), xs)
    case Min => Extremum(A, false, xs)
    case Max => Extremum(A, true, xs)
  }

  function FoldOf<V>(A: Alg<V>, short: bool, op: Arith, ident: V, xs: seq<V>): V {
    if short then ShortFold(A, op, ident, xs) else Fold(A, op, ident, xs)
  }

  function DotVal<V>(A: Alg<V>, short: bool, xs: seq<V>, ys: seq<V>): V
    requires |xs| == |ys|
  {
    FoldOf(A, short, FAdd, A.konst(ZERO_BITS), Products(A, xs, ys))
  }

  /** What the reference fold needs of the scalar for emitted code to agree with
      it to the bit. */
  ghost predicate IdempotentIdentities<V>(A: Alg<V>) {
    && A.arith(FAdd, A.konst(ZERO_BITS), A.konst(ZERO_BITS)) == A.konst(ZERO_BITS)
    && A.arith(FMul, A.konst(ONE_BITS), A.konst(ONE_BITS)) == A.konst(ONE_BITS)
  }
}
