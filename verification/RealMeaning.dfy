/** What the reference operations mean where a scalar is the exact reals: each is the
    arithmetic it is named after, stated without the order it is computed in. */
module RealMeanings {
  import opened Basics
  import opened OpStream
  import opened Scalars

  predicate Compared(op: CmpOp, x: real, y: real) {
    match op
    case Gt => x > y
    case Ge => x >= y
    case Lt => x < y
    case Le => x <= y
    case Eq => x == y
    case Ne => x != y
  }

  function Magnitude(x: real): real { if x < 0.0 then -x else x }

  function Truncated(x: real): real { if x < 0.0 then -((-x).Floor as real) else x.Floor as real }

  /** The operations of `A` are those of the reals; a quotient by zero and a root of a negative
      number are anything. */
  ghost predicate RealArith(A: Alg<real>) {
    && A.konst(ZERO_BITS) == 0.0 && A.konst(ONE_BITS) == 1.0 && A.konst(MINUS_ONE_BITS) == -1.0
    && (forall x, y :: A.arith(FAdd, x, y) == x + y)
    && (forall x, y :: A.arith(FSub, x, y) == x - y)
    && (forall x, y :: A.arith(FMul, x, y) == Prod(x, y))
    && (forall x, y :: y != 0.0 ==> A.arith(FDiv, x, y) == x / y)
    && (forall x :: A.prim(PNeg, x) == -x && A.prim(PAbs, x) == Magnitude(x))
    && (forall x :: x >= 0.0 ==> A.prim(PSqrt, x) >= 0.0 && Prod(A.prim(PSqrt, x), A.prim(PSqrt, x)) == x)
    && (forall x :: A.prim(PFloor, x) == x.Floor as real && A.prim(PCeil, x) == -((-x).Floor as real))
    && (forall x :: A.prim(PTrunc, x) == Truncated(x))
    && (forall x, y :: A.extremum(true, x, y) == if x < y then y else x)
    && (forall x, y :: A.extremum(false, x, y) == if y < x then y else x)
    && (forall c, x, y, t, e :: A.cmpSelect(c, x, y, t, e) == if Compared(c, x, y) then t else e)
    && (forall c, t, e :: A.selectNz(c, t, e) == if c != 0.0 then t else e)
  }

  lemma ProdLaws(x: real, y: real, z: real)
    ensures Prod(x, y) == Prod(y, x) && Prod(Prod(x, y), z) == Prod(x, Prod(y, z)) && Prod(1.0, x) == x
  {
  }

  // --- integer powers ----------------------------------------------------------------------------------

  /** `x` multiplied by itself `n` times. */
  function Power(x: real, n: nat): real { if n == 0 then 1.0 else Power(x, n - 1) * x }

  lemma PowerNext(x: real, n: nat)
    ensures Power(x, 0) == 1.0 && Power(x, n + 1) == Prod(Power(x, n), x)
  {
  }

  lemma {:induction false} PowerSquare(x: real, n: nat)
    ensures Power(Prod(x, x), n) == Power(x, n + n)
  {
    hide Power, Prod;
    PowerNext(x, 0);
    PowerNext(Prod(x, x), 0);
    if n > 0 {
      PowerSquare(x, n - 1);
      PowerNext(Prod(x, x), n - 1);
      PowerNext(x, n + n - 2);
      PowerNext(x, n + n - 1);
      ProdLaws(Power(x, n + n - 2), x, x);
    }
  }

  lemma {:induction false} PowerNonzero(x: real, n: nat)
    requires x != 0.0
    ensures Power(x, n) != 0.0
  {
    if n > 0 { PowerNonzero(x, n - 1); }
  }

  function Held(acc: Option<real>): real { match acc case None => 1.0 case Some(a) => a }

  /** The loop multiplies what it holds by the power. */
  lemma {:induction false} LoopIs(A: Alg<real>, base: real, acc: Option<real>, e: nat)
    requires RealArith(A)
    ensures Held(PowiLoop(A, base, acc, e)) == Prod(Held(acc), Power(base, e))
    decreases e
  {
    hide Power, Prod;
    ProdLaws(Held(acc), 1.0, 1.0);
    PowerNext(base, 0);
    ProdLaws(1.0, Held(acc), 1.0);
    if e > 0 {
      var half := e / 2;
      var acc' := if e % 2 == 1 then Some(match acc case None => base case Some(a) => A.arith(FMul, a, base)) else acc;
      var base' := if half > 0 then A.arith(FMul, base, base) else base;
      LoopIs(A, base', acc', half);
      ProdLaws(base, 1.0, 1.0);
      PowerNext(base', 0);
      PowerSquare(base, half);
      assert Power(base', half) == Power(base, half + half);
      if e % 2 == 1 {
        assert Held(acc') == Prod(Held(acc), base);
        PowerNext(base, half + half);
        ProdLaws(Held(acc), base, Power(base, half + half));
        ProdLaws(base, Power(base, half + half), 1.0);
        assert e == half + half + 1;
      } else {
        assert e == half + half;
      }
    }
  }

  /** An integer power is what it is named: repeated multiplication, and for a negative exponent
      one over that. */
  lemma PowiMeans(A: Alg<real>, x: real, n: int)
    requires RealArith(A)
    ensures n >= 0 ==> PowiVal(A, x, n) == Power(x, n)
    ensures n < 0 && x != 0.0 ==> Power(x, -n) != 0.0 && PowiVal(A, x, n) == 1.0 / Power(x, -n)
  {
    hide Power, PowiLoop;
    LoopIs(A, x, None, AbsNat(n));
    ProdLaws(Power(x, AbsNat(n)), 1.0, 1.0);
    if n < 0 && x != 0.0 { PowerNonzero(x, -n); }
  }

  // --- reductions ----------------------------------------------------------------------------------------

  /** The first `n` terms added up, or multiplied. */
  function SumTo(xs: seq<real>, n: nat): real
    requires n <= |xs|
  { if n == 0 then 0.0 else SumTo(xs, n - 1) + xs[n - 1] }

  function ProductTo(xs: seq<real>, n: nat): real
    requires n <= |xs|
  { if n == 0 then 1.0 else ProductTo(xs, n - 1) * xs[n - 1] }

  /** The two at once, for the folds that differ in the operation only. */
  function Unit(op: Arith): real { if op.FMul? then 1.0 else 0.0 }

  function Join(op: Arith, x: real, y: real): real { if op.FMul? then Prod(x, y) else x + y }

  function JoinTo(op: Arith, xs: seq<real>, n: nat): real
    requires n <= |xs|
  { if n == 0 then Unit(op) else Join(op, JoinTo(op, xs, n - 1), xs[n - 1]) }

  lemma JoinLaws(op: Arith, x: real, y: real, z: real)
    ensures Join(op, x, y) == Join(op, y, x) && Join(op, Join(op, x, y), z) == Join(op, x, Join(op, y, z))
    ensures Join(op, Unit(op), x) == x == Join(op, x, Unit(op))
  {
    ProdLaws(x, y, z);
  }

  /** Two joined pairs, their second parts joined last. */
  lemma JoinPairs(op: Arith, a: real, b: real, x: real, y: real)
    ensures Join(op, Join(op, a, x), Join(op, b, y)) == Join(op, Join(op, Join(op, a, b), x), y)
  {
    hide Join;
    JoinLaws(op, a, x, Join(op, b, y));
    JoinLaws(op, x, b, y);
    JoinLaws(op, b, x, y);
    JoinLaws(op, a, b, Join(op, x, y));
    JoinLaws(op, Join(op, a, b), x, y);
  }

  /** Four lanes after one more round: what they had joined, then the round's terms. */
  lemma Round(op: Arith, a0: real, a1: real, a2: real, a3: real, x0: real, x1: real, x2: real, x3: real)
    ensures Join(op, Join(op, Join(op, a0, x0), Join(op, a1, x1)), Join(op, Join(op, a2, x2), Join(op, a3, x3)))
         == Join(op, Join(op, Join(op, Join(op, Join(op, Join(op, a0, a1), Join(op, a2, a3)), x0), x1), x2), x3)
  {
    hide Join;
    JoinPairs(op, a0, a1, x0, x1);
    JoinPairs(op, a2, a3, x2, x3);
    var a, b := Join(op, a0, a1), Join(op, a2, a3);
    JoinLaws(op, a, x0, x1);
    JoinLaws(op, b, x2, x3);
    JoinPairs(op, a, b, Join(op, x0, x1), Join(op, x2, x3));
    JoinLaws(op, Join(op, a, b), x0, x1);
    JoinLaws(op, Join(op, Join(op, Join(op, a, b), x0), x1), x2, x3);
  }

  lemma {:induction false} LanesAre(A: Alg<real>, op: Arith, xs: seq<real>, c: nat)
    requires RealArith(A) && (op.FAdd? || op.FMul?) && FOLD_LANES * c <= |xs|
    ensures Join(op, Join(op, Lane(A, op, Unit(op), xs, 0, c), Lane(A, op, Unit(op), xs, 1, c)),
                 Join(op, Lane(A, op, Unit(op), xs, 2, c), Lane(A, op, Unit(op), xs, 3, c)))
         == JoinTo(op, xs, FOLD_LANES * c)
  {
    hide Join, Prod, RealArith;
    ArithJoins(A, op);
    if c == 0 {
      JoinLaws(op, Unit(op), Unit(op), Unit(op));
    } else {
      LanesAre(A, op, xs, c - 1);
      var at := FOLD_LANES * (c - 1);
      Round(op, Lane(A, op, Unit(op), xs, 0, c - 1), Lane(A, op, Unit(op), xs, 1, c - 1),
            Lane(A, op, Unit(op), xs, 2, c - 1), Lane(A, op, Unit(op), xs, 3, c - 1),
            xs[at], xs[at + 1], xs[at + 2], xs[at + 3]);
      JoinFour(op, xs, at);
    }
  }

  lemma JoinFour(op: Arith, xs: seq<real>, at: nat)
    requires at + 4 <= |xs|
    ensures JoinTo(op, xs, at + 4)
         == Join(op, Join(op, Join(op, Join(op, JoinTo(op, xs, at), xs[at]), xs[at + 1]), xs[at + 2]), xs[at + 3])
  {
    hide Join;
    assert JoinTo(op, xs, at + 3) == Join(op, JoinTo(op, xs, at + 2), xs[at + 2]);
    assert JoinTo(op, xs, at + 2) == Join(op, JoinTo(op, xs, at + 1), xs[at + 1]);
    assert JoinTo(op, xs, at + 1) == Join(op, JoinTo(op, xs, at), xs[at]);
  }

  lemma ArithJoins(A: Alg<real>, op: Arith)
    requires RealArith(A) && (op.FAdd? || op.FMul?)
    ensures forall x, y :: A.arith(op, x, y) == Join(op, x, y)
  {
  }

  lemma {:induction false} TailIs(A: Alg<real>, op: Arith, start: real, xs: seq<real>, from: nat, end: nat)
    requires RealArith(A) && (op.FAdd? || op.FMul?) && from <= end <= |xs| && start == JoinTo(op, xs, from)
    ensures Tail(A, op, start, xs, from, end) == JoinTo(op, xs, end)
    decreases end
  {
    hide Join;
    ArithJoins(A, op);
    if from < end { TailIs(A, op, start, xs, from, end - 1); }
  }

  lemma FoldIs(A: Alg<real>, short: bool, op: Arith, xs: seq<real>)
    requires RealArith(A) && (op.FAdd? || op.FMul?)
    ensures FoldOf(A, short, op, Unit(op), xs) == JoinTo(op, xs, |xs|)
  {
    hide Lane, Tail, Join, Prod;
    ArithJoins(A, op);
    var c := |xs| / FOLD_LANES;
    LanesAre(A, op, xs, c);
    TailIs(A, op, Merge(A, op, Unit(op), xs), xs, FOLD_LANES * c, |xs|);
    TailIs(A, op, Unit(op), xs, 0, |xs|);
  }

  lemma {:induction false} JoinIs(xs: seq<real>, n: nat)
    requires n <= |xs|
    ensures JoinTo(FAdd, xs, n) == SumTo(xs, n) && JoinTo(FMul, xs, n) == ProductTo(xs, n)
  {
    if n > 0 { JoinIs(xs, n - 1); }
  }

  /** `r` is one of the terms and no term is past it. */
  ghost predicate IsExtremum(max: bool, xs: seq<real>, r: real) {
    r in xs && forall i :: 0 <= i < |xs| ==> if max then xs[i] <= r else r <= xs[i]
  }

  lemma {:induction false} ExtremumIs(A: Alg<real>, max: bool, xs: seq<real>, n: nat)
    requires RealArith(A) && 0 < n <= |xs|
    ensures IsExtremum(max, xs[..n], ExtremumUpTo(A, max, xs, n))
  {
    hide Prod;
    if n > 1 {
      ExtremumIs(A, max, xs, n - 1);
      var r, m := ExtremumUpTo(A, max, xs, n), ExtremumUpTo(A, max, xs, n - 1);
      var x := xs[n - 1];
      assert r == A.extremum(max, m, x) == if max then if m < x then x else m else if x < m then x else m;
      assert xs[..n] == xs[..n - 1] + [x];
      forall i | 0 <= i < n ensures if max then xs[i] <= r else r <= xs[i] {
        if i < n - 1 { assert xs[..n - 1][i] == xs[i]; }
      }
    }
  }

  ghost predicate ReduceMeaning(A: Alg<real>, op: ReduceOp, xs: seq<real>, r: real) {
    match op
    case Sum => r == SumTo(xs, |xs|)
    case Product => r == ProductTo(xs, |xs|)
    case Min => if xs == [] then r == A.konst(INF_BITS) else IsExtremum(false, xs, r)
    case Max => if xs == [] then r == A.konst(NEG_INF_BITS) else IsExtremum(true, xs, r)
  }

  /** A reduction is the sum, the product, the least or the greatest of its terms, whichever way
      the fold starts; of no terms, the infinity every term would replace. */
  lemma ReduceMeans(A: Alg<real>, short: bool, op: ReduceOp, xs: seq<real>)
    requires RealArith(A)
    ensures ReduceMeaning(A, op, xs, ReduceVal(A, short, op, xs))
  {
    hide FoldOf, ExtremumUpTo;
    FoldIs(A, short, FAdd, xs);
    FoldIs(A, short, FMul, xs);
    JoinIs(xs, |xs|);
    if xs != [] {
      ExtremumIs(A, false, xs, |xs|);
      ExtremumIs(A, true, xs, |xs|);
      assert xs[..|xs|] == xs;
    }
  }

  /** The first `n` products of two lists added up. */
  function DotTo(xs: seq<real>, ys: seq<real>, n: nat): real
    requires n <= |xs| && n <= |ys|
  { if n == 0 then 0.0 else DotTo(xs, ys, n - 1) + xs[n - 1] * ys[n - 1] }

  lemma {:induction false} ProductsAdd(A: Alg<real>, xs: seq<real>, ys: seq<real>, n: nat)
    requires RealArith(A) && n <= |xs| == |ys|
    ensures SumTo(Products(A, xs, ys), n) == DotTo(xs, ys, n)
  {
    if n > 0 { ProductsAdd(A, xs, ys, n - 1); }
  }

  lemma DotMeans(A: Alg<real>, short: bool, xs: seq<real>, ys: seq<real>)
    requires RealArith(A) && |xs| == |ys|
    ensures DotVal(A, short, xs, ys) == DotTo(xs, ys, |xs|)
  {
    hide FoldOf;
    FoldIs(A, short, FAdd, Products(A, xs, ys));
    JoinIs(Products(A, xs, ys), |xs|);
    ProductsAdd(A, xs, ys, |xs|);
  }

  /** A root is nonnegative and squares to its argument, and is zero below zero; a sign is minus
      one, zero or one. */
  ghost predicate UnaryMeaning(A: Alg<real>, op: UnaryOp, x: real, r: real) {
    match op
    case Sqrt => if x <= 0.0 then r == 0.0 else r >= 0.0 && r * r == x
    case Floor => r == x.Floor as real
    case Ceil => r == -((-x).Floor as real)
    case Trunc => r == Truncated(x)
    case Abs => r == Magnitude(x)
    case Sign => r == if x > 0.0 then 1.0 else if x < 0.0 then -1.0 else 0.0
    case _ => r == A.unary(op, x)
  }

  lemma UnaryMeans(A: Alg<real>, op: UnaryOp, x: real)
    requires RealArith(A)
    ensures UnaryMeaning(A, op, x, UnaryVal(A, op, x))
  {
    if op.Sqrt? && x > 0.0 {
      var r := A.prim(PSqrt, x);
      assert Prod(r, r) == x;
    }
  }

  // --- ops -----------------------------------------------------------------------------------------------

  /** What an operand holds: a slot's value, or an input's; zero where there is none. */
  function At(env: seq<real>, inputs: seq<real>, o: Operand): real {
    match o
    case Slot(s) => if s < |env| then env[s] else 0.0
    case Input(k) => if k < |inputs| then inputs[k] else 0.0
  }

  function AllAt(env: seq<real>, inputs: seq<real>, os: seq<Operand>): (r: seq<real>)
    ensures |r| == |os|
  { seq(|os|, i requires 0 <= i < |os| => At(env, inputs, os[i])) }

  /** What a one-slot op is named after, in plain arithmetic of what its operands hold. */
  ghost predicate OpMeaning(A: Alg<real>, env: seq<real>, inputs: seq<real>, op: ROp, r: real)
    requires !HostWrites(op) && (op.ODot? ==> |op.xs| == |op.ys|)
  {
    match op
    case OConst(_, b) => r == A.konst(b)
    case OAdd(_, a, b) => r == At(env, inputs, a) + At(env, inputs, b)
    case OMul(_, a, b) => r == At(env, inputs, a) * At(env, inputs, b)
    case OSub(_, a, b) => r == At(env, inputs, a) - At(env, inputs, b)
    case OMulAdd(_, a, b, c) => r == At(env, inputs, a) * At(env, inputs, b) + At(env, inputs, c)
    case ONeg(_, a) => r == -At(env, inputs, a)
    case OPowi(_, a, n) =>
      && (n >= 0 ==> r == Power(At(env, inputs, a), n))
      && (n < 0 && At(env, inputs, a) != 0.0 ==>
            Power(At(env, inputs, a), -n) != 0.0 && r == 1.0 / Power(At(env, inputs, a), -n))
    case OUnary(_, u, a) => UnaryMeaning(A, u, At(env, inputs, a), r)
    case OBinary(_, b2, a, b) => r == A.binary(b2, At(env, inputs, a), At(env, inputs, b))
    case OCmp(_, c, a, b) => r == if Compared(c, At(env, inputs, a), At(env, inputs, b)) then 1.0 else 0.0
    case OSelect(_, c, t, e) => r == if At(env, inputs, c) != 0.0 then At(env, inputs, t) else At(env, inputs, e)
    case OReduce(_, rop, args) => ReduceMeaning(A, rop, AllAt(env, inputs, args), r)
    case ODot(_, xs, ys) => r == DotTo(AllAt(env, inputs, xs), AllAt(env, inputs, ys), |xs|)
  }

  lemma ValIs(env: seq<real>, inputs: seq<real>, os: seq<Operand>, o: Operand)
    requires AllOk(os, |env|, |inputs|) && o in os
    ensures OperandOk(o, |env|, |inputs|) && Val(env, inputs, o) == At(env, inputs, o)
  {
  }

  lemma ValsAre(env: seq<real>, inputs: seq<real>, os: seq<Operand>)
    requires AllOk(os, |env|, |inputs|)
    ensures Vals(env, inputs, os) == AllAt(env, inputs, os)
  {
    forall i | 0 <= i < |os| ensures Vals(env, inputs, os)[i] == At(env, inputs, os[i]) {
      ValIs(env, inputs, os, os[i]);
    }
  }

  /** What a one-slot op writes over the reals. */
  lemma OpMeans(A: Alg<real>, short: bool, env: seq<real>, inputs: seq<real>, op: ROp)
    requires RealArith(A) && !HostWrites(op) && AllOk(Operands(op), |env|, |inputs|)
             && (op.ODot? ==> |op.xs| == |op.ys|)
    ensures OpMeaning(A, env, inputs, op, OpVal(A, short, env, inputs, op))
  {
    hide Power, PowiVal, UnaryVal, ReduceVal, DotVal, UnaryMeaning, ReduceMeaning, DotTo, AllAt, Vals;
    match op
    case OPowi(_, a, n) =>
      hide *;
      PowiOp(A, short, env, inputs, op);
    case OReduce(_, rop, args) =>
      hide *;
      ListOp(A, short, env, inputs, op);
    case ODot(_, xs, ys) =>
      hide *;
      ListOp(A, short, env, inputs, op);
    case OUnary(_, u, a) =>
      hide RealArith;
      ValIs(env, inputs, Operands(op), a);
      UnaryMeans(A, u, At(env, inputs, a));
    case OConst(_, _) =>
    case ONeg(_, a) => ValIs(env, inputs, Operands(op), a);
    case OAdd(_, a, b) => ValsOfTwo(env, inputs, Operands(op), a, b);
    case OMul(_, a, b) => ValsOfTwo(env, inputs, Operands(op), a, b);
    case OSub(_, a, b) => ValsOfTwo(env, inputs, Operands(op), a, b);
    case OBinary(_, _, a, b) => ValsOfTwo(env, inputs, Operands(op), a, b);
    case OCmp(_, _, a, b) => ValsOfTwo(env, inputs, Operands(op), a, b);
    case OMulAdd(_, a, b, c) =>
      ValsOfTwo(env, inputs, Operands(op), a, b);
      ValIs(env, inputs, Operands(op), c);
    case OSelect(_, c, t, e) =>
      ValsOfTwo(env, inputs, Operands(op), t, e);
      ValIs(env, inputs, Operands(op), c);
  }

  lemma ValsOfTwo(env: seq<real>, inputs: seq<real>, os: seq<Operand>, a: Operand, b: Operand)
    requires AllOk(os, |env|, |inputs|) && a in os && b in os
    ensures OperandOk(a, |env|, |inputs|) && Val(env, inputs, a) == At(env, inputs, a)
    ensures OperandOk(b, |env|, |inputs|) && Val(env, inputs, b) == At(env, inputs, b)
  {
  }

  lemma PowiOp(A: Alg<real>, short: bool, env: seq<real>, inputs: seq<real>, op: ROp)
    requires RealArith(A) && op.OPowi? && AllOk(Operands(op), |env|, |inputs|)
    ensures OpMeaning(A, env, inputs, op, OpVal(A, short, env, inputs, op))
  {
    hide RealArith, PowiVal, Power;
    ValIs(env, inputs, Operands(op), op.a);
    PowiMeans(A, At(env, inputs, op.a), op.n);
  }

  lemma ListOp(A: Alg<real>, short: bool, env: seq<real>, inputs: seq<real>, op: ROp)
    requires RealArith(A) && (op.OReduce? || (op.ODot? && |op.xs| == |op.ys|)) && AllOk(Operands(op), |env|, |inputs|)
    ensures OpMeaning(A, env, inputs, op, OpVal(A, short, env, inputs, op))
  {
    hide RealArith, ReduceVal, DotVal, ReduceMeaning, DotTo, Vals, AllAt;
    if op.OReduce? {
      ValsAre(env, inputs, op.args);
      ReduceMeans(A, short, op.rop, AllAt(env, inputs, op.args));
    } else {
      assert forall o :: o in op.xs || o in op.ys ==> o in Operands(op);
      ValsAre(env, inputs, op.xs);
      ValsAre(env, inputs, op.ys);
      DotMeans(A, short, AllAt(env, inputs, op.xs), AllAt(env, inputs, op.ys));
    }
  }

  /** The order of a fold, over any scalar: nine terms into four accumulators, joined in pairs,
      and the ninth last; three terms from the identity where the fold is short. */
  lemma FoldOrder<V>(A: Alg<V>, op: Arith, i: V, t: seq<V>)
    requires |t| == 9
    ensures var l0, l1 := A.arith(op, A.arith(op, i, t[0]), t[4]), A.arith(op, A.arith(op, i, t[1]), t[5]);
            var l2, l3 := A.arith(op, A.arith(op, i, t[2]), t[6]), A.arith(op, A.arith(op, i, t[3]), t[7]);
            Fold(A, op, i, t) == A.arith(op, A.arith(op, A.arith(op, l0, l1), A.arith(op, l2, l3)), t[8])
    ensures ShortFold(A, op, i, t[..3]) == A.arith(op, A.arith(op, A.arith(op, i, t[0]), t[1]), t[2])
  {
    forall l: nat | l < FOLD_LANES
      ensures Lane(A, op, i, t, l, 2) == A.arith(op, A.arith(op, i, t[l]), t[4 + l]) {
      assert Lane(A, op, i, t, l, 1) == A.arith(op, Lane(A, op, i, t, l, 0), t[l]);
    }
    var s := Merge(A, op, i, t);
    assert Tail(A, op, s, t, 8, 9) == A.arith(op, Tail(A, op, s, t, 8, 8), t[8]);
    var u := t[..3];
    assert Tail(A, op, i, u, 0, 1) == A.arith(op, i, u[0]);
    assert Tail(A, op, i, u, 0, 2) == A.arith(op, A.arith(op, i, u[0]), u[1]);
  }
}
