/** A small product as the ops it stands for: its entries' dots, then their folds. The ops
    leave what the folding kernel leaves. */
module InlineProducts {
  import opened Basics
  import opened DenseProducts
  import opened Elimination
  import opened OpStream
  import opened ProductFolds
  import opened Scalars

  /** Where a dense operand of a product lives. */
  datatype Src = FromInputs(i: nat) | FromPool(list: seq<Operand>) | FromSlots(s: nat)

  datatype Accum = Accum(c: Option<Src>, codes: seq<FoldCode>)

  /** The product of `m` rows of `k` at `a` by `n` rows of `k` at `b`, its entries from slot
      `dst`; a matrix-vector product has `n` 1. */
  datatype Product = Product(dst: nat, m: nat, k: nat, n: nat, a: Src, b: Src, acc: Option<Accum>) {
    function Width(): nat { m * n }
    predicate InBlock(o: Operand) { o.Slot? && dst <= o.s < dst + Width() }
  }

  ghost predicate SrcOk(src: Src, len: nat, slots: nat, inputs: nat) {
    match src
    case FromInputs(i) => i + len <= inputs
    case FromPool(list) => |list| == len && forall e :: 0 <= e < len ==> OperandOk(list[e], slots, inputs)
    case FromSlots(s) => s + len <= slots
  }

  function Elem(src: Src, e: nat): Operand
    requires src.FromPool? ==> e < |src.list|
  {
    match src
    case FromInputs(i) => Input(i + e)
    case FromPool(list) => list[e]
    case FromSlots(s) => Slot(s + e)
  }

  /** What the tape promises of a product: its operands exist and lie outside its block. */
  ghost predicate ProductOk(p: Product, slots: nat, inputs: nat) {
    && SrcOk(p.a, p.m * p.k, slots, inputs) && SrcOk(p.b, p.n * p.k, slots, inputs)
    && p.dst + p.Width() <= slots
    && (forall e :: 0 <= e < p.m * p.k ==> !p.InBlock(Elem(p.a, e)))
    && (forall e :: 0 <= e < p.n * p.k ==> !p.InBlock(Elem(p.b, e)))
    && (p.acc.Some? ==>
          && FoldsOk<int>(p.acc.value.codes, None, p.Width())
          && (p.acc.value.c.Some? ==>
                && SrcOk(p.acc.value.c.value, p.Width(), slots, inputs)
                && forall e :: 0 <= e < p.Width() && p.acc.value.codes[e].ReadsOperand() ==>
                     !p.InBlock(Elem(p.acc.value.c.value, e))))
  }

  // --- the ops ---------------------------------------------------------------------------------------------

  ghost predicate Indexed(p: Product) {
    && (p.a.FromPool? ==> |p.a.list| == p.m * p.k) && (p.b.FromPool? ==> |p.b.list| == p.n * p.k)
    && (p.acc.Some? ==> |p.acc.value.codes| >= p.Width())
    && (p.acc.Some? && p.acc.value.c.Some? && p.acc.value.c.value.FromPool? ==> |p.acc.value.c.value.list| == p.Width())
  }

  function DotOp(p: Product, e: nat): ROp
    requires Indexed(p) && e < p.Width()
  {
    PartsAt(e, p.m, p.n);
    var i, j := HiOf(e, p.n), LoOf(e, p.n);
    ODot(p.dst + e, seq(p.k, l requires 0 <= l < p.k => Elem(p.a, At(i, p.k, l, p.m))),
         seq(p.k, l requires 0 <= l < p.k => Elem(p.b, At(j, p.k, l, p.n))))
  }

  function DotOps(p: Product, upto: nat): (r: seq<ROp>)
    requires Indexed(p) && upto <= p.Width()
    ensures |r| == upto && forall e :: 0 <= e < upto ==> r[e] == DotOp(p, e)
  {
    seq(upto, e requires 0 <= e < upto => DotOp(p, e))
  }

  /** The accumulator entry `e` folds against. */
  function AccumOf(p: Product, e: nat): Operand
    requires Indexed(p) && e < p.Width() && p.acc.Some?
  {
    var f := p.acc.value.codes[e];
    if f.IsSelf() then Slot(p.dst + f.SelfIndex())
    else if p.acc.value.c.Some? then Elem(p.acc.value.c.value, e) else Slot(p.dst + e)
  }

  function FoldOp(p: Product, e: nat): seq<ROp>
    requires Indexed(p) && e < p.Width() && p.acc.Some?
  {
    var f, d := p.acc.value.codes[e], p.dst + e;
    if f.Kind() == 0 then []
    else if f.Kind() == 1 then [OSub(d, AccumOf(p, e), Slot(d))]
    else if f.Kind() == 2 then [OAdd(d, AccumOf(p, e), Slot(d))]
    else [ONeg(d, Slot(d))]
  }

  function FoldOps(p: Product, upto: nat): seq<ROp>
    requires Indexed(p) && upto <= p.Width() && p.acc.Some?
  {
    if upto == 0 then [] else FoldOps(p, upto - 1) + FoldOp(p, upto - 1)
  }

  function InlineOps(p: Product): seq<ROp>
    requires Indexed(p)
  {
    DotOps(p, p.Width()) + if p.acc.Some? then FoldOps(p, p.Width()) else []
  }

  /** The ops recorded one by one. */
  method Inline(p: Product) returns (ops: seq<ROp>)
    requires Indexed(p)
    ensures ops == InlineOps(p)
  {
    hide DotOp, FoldOp;
    ops := [];
    for e := 0 to p.Width()
      invariant ops == DotOps(p, e)
    {
      ops := ops + [DotOp(p, e)];
    }
    if p.acc.Some? {
      for e := 0 to p.Width()
        invariant ops == DotOps(p, p.Width()) + FoldOps(p, e)
      {
        ops := ops + FoldOp(p, e);
      }
    }
  }

  // --- what they leave -------------------------------------------------------------------------------------

  /** The operations of the interpreter's scalar. */
  function OpsOf<V>(A: Alg<V>, mag: V -> V, gt: (V, V) -> bool): Ops<V> {
    Ops(A.konst(ZERO_BITS), (x, y) => A.arith(FAdd, x, y), (x, y) => A.arith(FSub, x, y), (x, y) => A.arith(FMul, x, y),
        (x, y) => A.arith(FDiv, x, y), mag, gt)
  }

  function NegOf<V>(A: Alg<V>): V -> V { x => A.prim(PNeg, x) }

  lemma {:induction false} LaneIs<V>(A: Alg<V>, O: Ops<V>, mag: V -> V, gt: (V, V) -> bool, xs: seq<V>, ys: seq<V>,
                                     l: nat, c: nat)
    requires O == OpsOf(A, mag, gt) && |xs| == |ys| && l < FOLD_LANES && FOLD_LANES * c <= |xs|
    ensures DotLane(O, xs, ys, l, c) == Lane(A, FAdd, A.konst(ZERO_BITS), Scalars.Products(A, xs, ys), l, c)
    decreases c
  {
    if c > 0 { LaneIs(A, O, mag, gt, xs, ys, l, c - 1); }
  }

  lemma {:induction false} TailIs<V>(A: Alg<V>, O: Ops<V>, mag: V -> V, gt: (V, V) -> bool, s: V, xs: seq<V>,
                                     ys: seq<V>, from: nat, end: nat)
    requires O == OpsOf(A, mag, gt) && |xs| == |ys| && from <= end <= |xs|
    ensures DotTail(O, s, xs, ys, from, end) == Tail(A, FAdd, s, Scalars.Products(A, xs, ys), from, end)
    decreases end
  {
    if from < end { TailIs(A, O, mag, gt, s, xs, ys, from, end - 1); }
  }

  /** The kernels' dot is the interpreter's. */
  lemma DotIs<V>(A: Alg<V>, mag: V -> V, gt: (V, V) -> bool, xs: seq<V>, ys: seq<V>)
    requires |xs| == |ys|
    ensures DenseProducts.Dot(OpsOf(A, mag, gt), xs, ys) == DotVal(A, false, xs, ys)
  {
    hide DotLane, Lane, DotTail, Tail;
    var O, c := OpsOf(A, mag, gt), |xs| / FOLD_LANES;
    LaneIs(A, O, mag, gt, xs, ys, 0, c);
    LaneIs(A, O, mag, gt, xs, ys, 1, c);
    LaneIs(A, O, mag, gt, xs, ys, 2, c);
    LaneIs(A, O, mag, gt, xs, ys, 3, c);
    var s := Merge(A, FAdd, A.konst(ZERO_BITS), Scalars.Products(A, xs, ys));
    TailIs(A, O, mag, gt, s, xs, ys, FOLD_LANES * c, |xs|);
  }

  /** The values of a dense operand. */
  function SrcVals<V>(env: seq<V>, inputs: seq<V>, src: Src, len: nat): (r: seq<V>)
    requires SrcOk(src, len, |env|, |inputs|)
    ensures |r| == len && forall e :: 0 <= e < len ==>
              OperandOk(Elem(src, e), |env|, |inputs|) && r[e] == Val(env, inputs, Elem(src, e))
  {
    seq(len, e requires 0 <= e < len => Val(env, inputs, Elem(src, e)))
  }

  function Plain<V>(A: Alg<V>, mag: V -> V, gt: (V, V) -> bool, p: Product, env: seq<V>, inputs: seq<V>): (r: seq<V>)
    requires SrcOk(p.a, p.m * p.k, |env|, |inputs|) && SrcOk(p.b, p.n * p.k, |env|, |inputs|)
    ensures |r| == p.Width()
  {
    Block(OpsOf(A, mag, gt), SrcVals(env, inputs, p.a, p.m * p.k), SrcVals(env, inputs, p.b, p.n * p.k), p.m, p.k,
          p.n, Kept())
  }

  function AccumVals<V>(p: Product, env: seq<V>, inputs: seq<V>): (r: Option<seq<V>>)
    requires p.acc.Some? && (p.acc.value.c.Some? ==> SrcOk(p.acc.value.c.value, p.Width(), |env|, |inputs|))
    ensures r.Some? ==> |r.value| == p.Width()
  {
    if p.acc.value.c.Some? then Some(SrcVals(env, inputs, p.acc.value.c.value, p.Width())) else None
  }

  lemma CodesOk<V>(p: Product, env: seq<V>, inputs: seq<V>)
    requires ProductOk(p, |env|, |inputs|) && p.acc.Some?
    ensures FoldsOk(p.acc.value.codes, AccumVals(p, env, inputs), p.Width())
  {
  }

  /** What the folding kernel leaves in the product's block, see `GemmFold`. */
  function KernelBlock<V>(A: Alg<V>, mag: V -> V, gt: (V, V) -> bool, p: Product, env: seq<V>,
                          inputs: seq<V>): (r: seq<V>)
    requires ProductOk(p, |env|, |inputs|)
    ensures |r| == p.Width()
  {
    var plain := Plain(A, mag, gt, p, env, inputs);
    if p.acc.None? then plain
    else
      CodesOk(p, env, inputs);
      FoldedBlock(OpsOf(A, mag, gt), NegOf(A), p.acc.value.codes, AccumVals(p, env, inputs), plain)
  }

  /** Every slot as it was but the block's, the first `e` of them `first`, the rest `rest`. */
  ghost predicate Left<V>(st: seq<V>, env: seq<V>, dst: nat, first: seq<V>, e: nat, rest: seq<V>) {
    && |st| == |env| && |first| == |rest| && e <= |first| && dst + |first| <= |env|
    && forall s :: 0 <= s < |env| ==>
         st[s] == if s < dst || s >= dst + |first|
             then env[s] else if s < dst + e then first[s - dst] else rest[s - dst]
  }

  lemma DotsOk(p: Product, lay: Layout, inputs: nat, e: nat)
    requires ProductOk(p, lay.slots, inputs) && Indexed(p) && e < p.Width()
    ensures OpOk(DotOp(p, e), lay, inputs)
  {
    PartsAt(e, p.m, p.n);
    var i, j, op := HiOf(e, p.n), LoOf(e, p.n), DotOp(p, e);
    forall l | 0 <= l < p.k
      ensures OperandOk(op.xs[l], lay.slots, inputs) && OperandOk(op.ys[l], lay.slots, inputs) {
      ElemOk(p.a, p.m * p.k, At(i, p.k, l, p.m), lay.slots, inputs);
      ElemOk(p.b, p.n * p.k, At(j, p.k, l, p.n), lay.slots, inputs);
    }
    forall o | o in Operands(op) ensures OperandOk(o, lay.slots, inputs) {}
  }

  lemma ElemOk(src: Src, len: nat, e: nat, slots: nat, inputs: nat)
    requires SrcOk(src, len, slots, inputs) && e < len
    ensures OperandOk(Elem(src, e), slots, inputs)
  {
  }

  lemma FoldsAreOk(p: Product, lay: Layout, inputs: nat, e: nat)
    requires ProductOk(p, lay.slots, inputs) && Indexed(p) && e < p.Width() && p.acc.Some?
    ensures forall op :: op in FoldOp(p, e) ==> OpOk(op, lay, inputs) && Dst(op) == p.dst + e && Width(op) == 1
  {
    var f := p.acc.value.codes[e];
    if p.acc.value.c.Some? { ElemOk(p.acc.value.c.value, p.Width(), e, lay.slots, inputs); }
    forall op | op in FoldOp(p, e) ensures OpOk(op, lay, inputs) && Dst(op) == p.dst + e && Width(op) == 1 {
      if f.Kind() != 3 { assert OperandOk(AccumOf(p, e), lay.slots, inputs); }
    }
  }

  lemma {:induction false} InlineOk(p: Product, lay: Layout, inputs: nat, upto: nat)
    requires ProductOk(p, lay.slots, inputs) && Indexed(p) && upto <= p.Width()
    ensures forall i :: 0 <= i < |DotOps(p, upto)| ==> OpOk(DotOps(p, upto)[i], lay, inputs)
    ensures p.acc.Some? ==> forall i :: 0 <= i < |FoldOps(p, upto)| ==> OpOk(FoldOps(p, upto)[i], lay, inputs)
    decreases upto
  {
    hide ProductOk, OpOk, DotOp, FoldOp, Indexed;
    forall i | 0 <= i < upto ensures OpOk(DotOps(p, upto)[i], lay, inputs) { DotsOk(p, lay, inputs, i); }
    if upto > 0 {
      InlineOk(p, lay, inputs, upto - 1);
      if p.acc.Some? {
        FoldsAreOk(p, lay, inputs, upto - 1);
        var a, b := FoldOps(p, upto - 1), FoldOp(p, upto - 1);
        forall i | 0 <= i < |a + b| ensures OpOk((a + b)[i], lay, inputs) {
          if i >= |a| { assert (a + b)[i] in b; }
        }
      }
    }
  }

  /** One dot reads its row and its column as they were before the product. */
  lemma {:induction false} DotStep<V>(A: Alg<V>, mag: V -> V, gt: (V, V) -> bool, p: Product, lay: Layout,
                                      env: seq<V>, st: seq<V>, inputs: seq<V>, e: nat)
    requires ProductOk(p, |env|, |inputs|) && |env| == lay.slots && Indexed(p) && e < p.Width()
    requires Left(st, env, p.dst, Plain(A, mag, gt, p, env, inputs), e, env[p.dst..p.dst + p.Width()])
    ensures OpOk(DotOp(p, e), lay, |inputs|)
    ensures Left(OpEval(A, false, lay, st, inputs, DotOp(p, e)), env, p.dst, Plain(A, mag, gt, p, env, inputs), e + 1,
                 env[p.dst..p.dst + p.Width()])
  {
    hide DotVal, DenseProducts.Dot, Block, OpOk;
    DotsOk(p, lay, |inputs|, e);
    PartsAt(e, p.m, p.n);
    var i, j, op := HiOf(e, p.n), LoOf(e, p.n), DotOp(p, e);
    var O, a, b := OpsOf(A, mag, gt), SrcVals(env, inputs, p.a, p.m * p.k), SrcVals(env, inputs, p.b, p.n * p.k);
    DotReads(p, lay, env, st, inputs, e);
    var xs, ys := RowAt(a, p.m, p.k, i), RowAt(b, p.n, p.k, j);
    DotIs(A, mag, gt, xs, ys);
    BlockAt(O, a, b, p.m, p.k, p.n, Kept(), i, j);
    assert OpEval(A, false, lay, st, inputs, op) == st[p.dst + e := DotVal(A, false, xs, ys)] by {
      assert forall o :: o in op.xs ==> o in Operands(op);
      assert forall o :: o in op.ys ==> o in Operands(op);
    }
  }

  lemma DotReads<V>(p: Product, lay: Layout, env: seq<V>, st: seq<V>, inputs: seq<V>, e: nat)
    requires ProductOk(p, |env|, |inputs|) && |env| == lay.slots == |st| && Indexed(p) && e < p.Width()
    requires forall s :: 0 <= s < |env| && !(p.dst <= s < p.dst + p.Width()) ==> st[s] == env[s]
    ensures var op := DotOp(p, e);
            && p.n > 0 && HiOf(e, p.n) < p.m && LoOf(e, p.n) < p.n
            && AllOk(op.xs, |st|, |inputs|) && AllOk(op.ys, |st|, |inputs|)
            && Vals(st, inputs, op.xs) == RowAt(SrcVals(env, inputs, p.a, p.m * p.k), p.m, p.k, HiOf(e, p.n))
            && Vals(st, inputs, op.ys) == RowAt(SrcVals(env, inputs, p.b, p.n * p.k), p.n, p.k, LoOf(e, p.n))
  {
    PartsAt(e, p.m, p.n);
    var i, j, op := HiOf(e, p.n), LoOf(e, p.n), DotOp(p, e);
    forall l | 0 <= l < p.k
      ensures OperandOk(op.xs[l], |st|, |inputs|) && Val(st, inputs, op.xs[l]) ==
              Val(env, inputs, Elem(p.a, At(i, p.k, l, p.m)))
      ensures OperandOk(op.ys[l], |st|, |inputs|) && Val(st, inputs, op.ys[l]) ==
              Val(env, inputs, Elem(p.b, At(j, p.k, l, p.n))) {
      ElemOk(p.a, p.m * p.k, At(i, p.k, l, p.m), |st|, |inputs|);
      ElemOk(p.b, p.n * p.k, At(j, p.k, l, p.n), |st|, |inputs|);
    }
  }

  lemma {:induction false} DotsRun<V>(A: Alg<V>, mag: V -> V, gt: (V, V) -> bool, p: Product, lay: Layout,
                                      env: seq<V>, inputs: seq<V>, e: nat)
    requires ProductOk(p, |env|, |inputs|) && |env| == lay.slots && Indexed(p) && e <= p.Width()
    requires forall i :: 0 <= i < |InlineOps(p)| ==> OpOk(InlineOps(p)[i], lay, |inputs|)
    ensures Left(Interp(A, false, lay, env, inputs, InlineOps(p), e), env, p.dst, Plain(A, mag, gt, p, env, inputs), e,
                 env[p.dst..p.dst + p.Width()])
    decreases e
  {
    hide Plain, DotOp, OpOk, OpEval;
    if e > 0 {
      DotsRun(A, mag, gt, p, lay, env, inputs, e - 1);
      var st := Interp(A, false, lay, env, inputs, InlineOps(p), e - 1);
      DotStep(A, mag, gt, p, lay, env, st, inputs, e - 1);
      assert InlineOps(p)[e - 1] == DotOp(p, e - 1);
    }
  }

  /** One fold reads a product that is still plain. */
  lemma {:induction false} FoldStep<V>(A: Alg<V>, mag: V -> V, gt: (V, V) -> bool, p: Product, lay: Layout,
                                       env: seq<V>, st: seq<V>, inputs: seq<V>, e: nat)
    requires ProductOk(p, |env|, |inputs|) && |env| == lay.slots && Indexed(p) && e < p.Width() && p.acc.Some?
    requires Left(st, env, p.dst, KernelBlock(A, mag, gt, p, env, inputs), e, Plain(A, mag, gt, p, env, inputs))
    ensures var ops := FoldOp(p, e);
            && (ops == [] ==>
                Left(st, env, p.dst, KernelBlock(A, mag, gt, p, env, inputs), e + 1, Plain(A, mag, gt, p, env, inputs)))
            && (ops != [] ==>
                  && ops == [ops[0]] && OpOk(ops[0], lay, |inputs|)
                  && Left(OpEval(A, false, lay, st, inputs, ops[0]), env, p.dst,
                          KernelBlock(A, mag, gt, p, env, inputs), e + 1,
                          Plain(A, mag, gt, p, env, inputs)))
  {
    hide OpOk, Plain, KernelBlock;
    FoldsAreOk(p, lay, |inputs|, e);
    KernelBlockAt(A, mag, gt, p, env, inputs, e);
    var f, codes, plain, k := p.acc.value.codes[e], p.acc.value.codes, Plain(A, mag, gt, p, env, inputs),
        KernelBlock(A, mag, gt, p, env, inputs);
    if FoldOp(p, e) != [] {
      var op := FoldOp(p, e)[0];
      assert op in FoldOp(p, e);
      if f.Kind() != 3 {
        assert AccumOf(p, e) in Operands(op);
        assert OperandOk(AccumOf(p, e), |st|, |inputs|) by { FoldReadsOk(p, lay, |inputs|, e); }
        if f.IsSelf() && f.SelfIndex() < e { KernelBlockAt(A, mag, gt, p, env, inputs, f.SelfIndex()); }
        assert Val(st, inputs, AccumOf(p, e)) ==
               if f.IsSelf() then plain[f.SelfIndex()]
                   else if p.acc.value.c.Some? then AccumVals(p, env, inputs).value[e] else plain[e];
      }
      assert Slot(p.dst + e) in Operands(op);
      assert OpEval(A, false, lay, st, inputs, op) == st[p.dst + e := k[e]];
    }
  }

  lemma FoldReadsOk(p: Product, lay: Layout, inputs: nat, e: nat)
    requires ProductOk(p, lay.slots, inputs) && Indexed(p) && e < p.Width() && p.acc.Some?
             && !p.acc.value.codes[e].IsPlain()
    ensures OperandOk(AccumOf(p, e), lay.slots, inputs)
  {
    if p.acc.value.c.Some? { ElemOk(p.acc.value.c.value, p.Width(), e, lay.slots, inputs); }
  }

  lemma KernelBlockAt<V>(A: Alg<V>, mag: V -> V, gt: (V, V) -> bool, p: Product, env: seq<V>, inputs: seq<V>, e: nat)
    requires ProductOk(p, |env|, |inputs|) && e < p.Width() && p.acc.Some?
    ensures FoldsOk(p.acc.value.codes, AccumVals(p, env, inputs), p.Width())
    ensures KernelBlock(A, mag, gt, p, env, inputs)[e] ==
            Folded(OpsOf(A, mag, gt), NegOf(A), p.acc.value.codes, AccumVals(p, env, inputs),
                   Plain(A, mag, gt, p, env, inputs), e)
  {
    hide Plain;
  }

  lemma {:induction false} FoldsRun<V>(A: Alg<V>, mag: V -> V, gt: (V, V) -> bool, p: Product, lay: Layout,
                                       env: seq<V>, inputs: seq<V>, e: nat)
    requires ProductOk(p, |env|, |inputs|) && |env| == lay.slots && Indexed(p) && e <= p.Width() && p.acc.Some?
    requires forall i :: 0 <= i < |InlineOps(p)| ==> OpOk(InlineOps(p)[i], lay, |inputs|)
    ensures p.Width() + |FoldOps(p, e)| <= |InlineOps(p)| && FoldOps(p, e) <= FoldOps(p, p.Width())
    ensures Left(Interp(A, false, lay, env, inputs, InlineOps(p), p.Width() + |FoldOps(p, e)|), env, p.dst,
                 KernelBlock(A, mag, gt, p, env, inputs), e, Plain(A, mag, gt, p, env, inputs))
    decreases e
  {
    hide Plain, KernelBlock, DotOp, FoldOp, OpOk, OpEval;
    FoldsPrefix(p, e, p.Width());
    if e == 0 {
      DotsRun(A, mag, gt, p, lay, env, inputs, p.Width());
    } else {
      FoldsRun(A, mag, gt, p, lay, env, inputs, e - 1);
      var at := p.Width() + |FoldOps(p, e - 1)|;
      var st := Interp(A, false, lay, env, inputs, InlineOps(p), at);
      FoldStep(A, mag, gt, p, lay, env, st, inputs, e - 1);
      if FoldOp(p, e - 1) != [] {
        assert FoldOps(p, e) == FoldOps(p, e - 1) + [FoldOp(p, e - 1)[0]];
        assert InlineOps(p)[at] == FoldOps(p, p.Width())[at - p.Width()] == FoldOps(p, e)[at - p.Width()];
      }
    }
  }

  lemma {:induction false} FoldsPrefix(p: Product, e: nat, upto: nat)
    requires Indexed(p) && e <= upto <= p.Width() && p.acc.Some?
    ensures FoldOps(p, e) <= FoldOps(p, upto)
    decreases upto
  {
    hide FoldOp;
    if e < upto { FoldsPrefix(p, e, upto - 1); }
  }

  lemma LeftWhole<V>(st: seq<V>, env: seq<V>, dst: nat, first: seq<V>, rest: seq<V>)
    requires Left(st, env, dst, first, |first|, rest)
    ensures dst + |first| <= |env| && st == env[..dst] + first + env[dst + |first|..]
  {
  }

  /** The ops of an inlined product leave the slots as the folding kernel leaves them: its
      block the folded product, every other slot as it was. */
  lemma {:induction false} InlineIsKernel<V>(A: Alg<V>, mag: V -> V, gt: (V, V) -> bool, p: Product, lay: Layout,
                                             env: seq<V>, inputs: seq<V>)
    requires ProductOk(p, |env|, |inputs|) && |env| == lay.slots
    ensures Indexed(p) && forall i :: 0 <= i < |InlineOps(p)| ==> OpOk(InlineOps(p)[i], lay, |inputs|)
    ensures Interp(A, false, lay, env, inputs, InlineOps(p), |InlineOps(p)|) ==
            env[..p.dst] + KernelBlock(A, mag, gt, p, env, inputs) + env[p.dst + p.Width()..]
  {
    hide Plain, DotOp, FoldOp, OpOk, OpEval, Interp, Left, FoldOps, DotOps;
    assert Indexed(p);
    InlineOk(p, lay, |inputs|, p.Width());
    var ops, plain, block := InlineOps(p), Plain(A, mag, gt, p, env, inputs), KernelBlock(A, mag, gt, p, env, inputs);
    if p.acc.Some? {
      FoldsRun(A, mag, gt, p, lay, env, inputs, p.Width());
      LeftWhole(Interp(A, false, lay, env, inputs, ops, |ops|), env, p.dst, block, plain);
    } else {
      DotsRun(A, mag, gt, p, lay, env, inputs, p.Width());
      LeftWhole(Interp(A, false, lay, env, inputs, ops, |ops|), env, p.dst, block, env[p.dst..p.dst + p.Width()]);
    }
  }

  /** A matrix-vector product is the product by one row. */
  lemma VectorIs<T>(O: Ops<T>, a: seq<T>, x: seq<T>, m: nat, n: nat)
    requires m * n <= |a| && |x| == n
    ensures Block(O, a, x, m, n, 1, Kept()) == RowDots(O, a, x, m, n)
  {
    hide Block, RowDots, DenseProducts.Dot, RowAt;
    assert RowAt(x, 1, n, 0) == x;
    forall i: nat | i < m ensures Block(O, a, x, m, n, 1, Kept())[i] == RowDots(O, a, x, m, n)[i] {
      BlockAt(O, a, x, m, n, 1, Kept(), i, 0);
      assert At(i, 1, 0, m) == i;
    }
  }
}
