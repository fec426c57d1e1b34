/** Code emitted once runs over any scalar, inputs and memory. Its correctness is
    established over terms, values that record how they were computed; a map of the
    terms to any scalar that respects the operations carries it over. */
module Terms {
  import opened Basics
  import opened Scalars
  import opened OpStream
  import opened LivenessTables
  import opened Machines
  import opened CacheInvariant
  import opened Stages

  // --- maps that respect the operations --------------------------------------------------------

  function Map<S, V>(h: S -> V, xs: seq<S>): (r: seq<V>)
    ensures |r| == |xs| && forall i :: 0 <= i < |xs| ==> r[i] == h(xs[i])
  {
    seq(|xs|, i requires 0 <= i < |xs| => h(xs[i]))
  }

  function MapAll<S, V>(h: S -> V, xs: seq<seq<S>>): (r: seq<seq<V>>)
    ensures |r| == |xs| && forall i :: 0 <= i < |xs| ==> r[i] == Map(h, xs[i])
  {
    seq(|xs|, i requires 0 <= i < |xs| => Map(h, xs[i]))
  }

  /** `h` maps every operation of `A` on scalars to that of `B`. */
  ghost predicate HomScalar<S(!new), V>(A: Alg<S>, B: Alg<V>, h: S -> V) {
    && (forall b :: h(A.konst(b)) == B.konst(b))
    && (forall op, x, y :: h(A.arith(op, x, y)) == B.arith(op, h(x), h(y)))
    && (forall p, x :: h(A.prim(p, x)) == B.prim(p, h(x)))
    && (forall m, x, y :: h(A.extremum(m, x, y)) == B.extremum(m, h(x), h(y)))
    && (forall c, x, y, t, e :: h(A.cmpSelect(c, x, y, t, e)) == B.cmpSelect(c, h(x), h(y), h(t), h(e)))
    && (forall c, t, e :: h(A.selectNz(c, t, e)) == B.selectNz(h(c), h(t), h(e)))
    && (forall u, x :: h(A.unary(u, x)) == B.unary(u, h(x)))
    && (forall o, x, y :: h(A.binary(o, x, y)) == B.binary(o, h(x), h(y)))
  }

  /** `h` maps every operation of `A` to that of `B`. */
  ghost predicate Hom<S(!new), V>(A: Alg<S>, B: Alg<V>, h: S -> V) {
    HomScalar(A, B, h) && forall r, xs, i :: h(A.routine(r, xs, i)) == B.routine(r, MapAll(h, xs), i)
  }

  lemma MapSlice<S, V>(h: S -> V, xs: seq<S>, lo: nat, hi: nat)
    requires lo <= hi <= |xs|
    ensures Map(h, xs[lo..hi]) == Map(h, xs)[lo..hi]
  {
  }

  function MapOpt<S, V>(h: S -> V, x: Option<S>): Option<V> {
    match x case None => None case Some(v) => Some(h(v))
  }

  lemma HomUnary<S(!new), V>(A: Alg<S>, B: Alg<V>, h: S -> V, op: UnaryOp, x: S)
    requires Hom(A, B, h)
    ensures h(UnaryVal(A, op, x)) == UnaryVal(B, op, h(x))
  {
  }

  lemma {:induction false} HomPowiLoop<S(!new), V>(A: Alg<S>, B: Alg<V>, h: S -> V, base: S, acc: Option<S>, e: nat)
    requires Hom(A, B, h)
    ensures MapOpt(h, PowiLoop(A, base, acc, e)) == PowiLoop(B, h(base), MapOpt(h, acc), e)
    decreases e
  {
    if e > 0 {
      var acc' := if e % 2 == 1 then Some(match acc case None => base case Some(a) => A.arith(FMul, a, base)) else acc;
      HomPowiLoop(A, B, h, if e / 2 > 0 then A.arith(FMul, base, base) else base, acc', e / 2);
    }
  }

  lemma HomPowi<S(!new), V>(A: Alg<S>, B: Alg<V>, h: S -> V, x: S, n: int)
    requires Hom(A, B, h)
    ensures h(PowiVal(A, x, n)) == PowiVal(B, h(x), n)
  {
    hide PowiLoop;
    HomPowiLoop(A, B, h, x, None, AbsNat(n));
  }

  lemma {:induction false} HomLane<S(!new), V>(A: Alg<S>, B: Alg<V>, h: S -> V, op: Arith, ident: S, terms: seq<S>,
                                               l: nat, c: nat)
    requires Hom(A, B, h) && l < FOLD_LANES && FOLD_LANES * c <= |terms|
    ensures h(Lane(A, op, ident, terms, l, c)) == Lane(B, op, h(ident), Map(h, terms), l, c)
  {
    if c > 0 { HomLane(A, B, h, op, ident, terms, l, c - 1); }
  }

  lemma {:induction false} HomTail<S(!new), V>(A: Alg<S>, B: Alg<V>, h: S -> V, op: Arith, start: S, terms: seq<S>,
                                               from: nat, end: nat)
    requires Hom(A, B, h) && from <= end <= |terms|
    ensures h(Tail(A, op, start, terms, from, end)) == Tail(B, op, h(start), Map(h, terms), from, end)
    decreases end
  {
    if from < end { HomTail(A, B, h, op, start, terms, from, end - 1); }
  }

  lemma HomFold<S(!new), V>(A: Alg<S>, B: Alg<V>, h: S -> V, short: bool, op: Arith, ident: S, terms: seq<S>)
    requires Hom(A, B, h)
    ensures h(FoldOf(A, short, op, ident, terms)) == FoldOf(B, short, op, h(ident), Map(h, terms))
  {
    hide Lane, Tail;
    var c := |terms| / FOLD_LANES;
    HomLane(A, B, h, op, ident, terms, 0, c);
    HomLane(A, B, h, op, ident, terms, 1, c);
    HomLane(A, B, h, op, ident, terms, 2, c);
    HomLane(A, B, h, op, ident, terms, 3, c);
    assert h(Merge(A, op, ident, terms)) == Merge(B, op, h(ident), Map(h, terms));
    HomTail(A, B, h, op, Merge(A, op, ident, terms), terms, FOLD_LANES * c, |terms|);
    HomTail(A, B, h, op, ident, terms, 0, |terms|);
  }

  lemma {:induction false} HomExtremumUpTo<S(!new), V>(A: Alg<S>, B: Alg<V>, h: S -> V, max: bool, xs: seq<S>, n: nat)
    requires Hom(A, B, h) && 0 < n <= |xs|
    ensures h(ExtremumUpTo(A, max, xs, n)) == ExtremumUpTo(B, max, Map(h, xs), n)
  {
    if n > 1 { HomExtremumUpTo(A, B, h, max, xs, n - 1); }
  }

  lemma HomExtremum<S(!new), V>(A: Alg<S>, B: Alg<V>, h: S -> V, max: bool, xs: seq<S>)
    requires Hom(A, B, h)
    ensures h(Extremum(A, max, xs)) == Extremum(B, max, Map(h, xs))
  {
    hide ExtremumUpTo;
    if xs != [] { HomExtremumUpTo(A, B, h, max, xs, |xs|); }
  }

  lemma HomReduce<S(!new), V>(A: Alg<S>, B: Alg<V>, h: S -> V, short: bool, op: ReduceOp, xs: seq<S>)
    requires Hom(A, B, h)
    ensures h(ReduceVal(A, short, op, xs)) == ReduceVal(B, short, op, Map(h, xs))
  {
    hide FoldOf, Extremum;
    match op
    case Sum => HomFold(A, B, h, short, FAdd, A.konst(ZERO_BITS), xs);
    case Product => HomFold(A, B, h, short, FMul, A.konst(ONE_BITS), xs);
    case Min => HomExtremum(A, B, h, false, xs);
    case Max => HomExtremum(A, B, h, true, xs);
  }

  lemma HomDot<S(!new), V>(A: Alg<S>, B: Alg<V>, h: S -> V, short: bool, xs: seq<S>, ys: seq<S>)
    requires Hom(A, B, h) && |xs| == |ys|
    ensures h(DotVal(A, short, xs, ys)) == DotVal(B, short, Map(h, xs), Map(h, ys))
  {
    hide FoldOf;
    assert Map(h, Products(A, xs, ys)) == Products(B, Map(h, xs), Map(h, ys));
    HomFold(A, B, h, short, FAdd, A.konst(ZERO_BITS), Products(A, xs, ys));
  }

  // --- the interpreter ----------------------------------------------------------------------------

  lemma HomVals<S, V>(h: S -> V, env: seq<S>, inputs: seq<S>, os: seq<Operand>)
    requires AllOk(os, |env|, |inputs|)
    ensures Map(h, Vals(env, inputs, os)) == Vals(Map(h, env), Map(h, inputs), os)
  {
    forall i | 0 <= i < |os| ensures h(Val(env, inputs, os[i])) == Val(Map(h, env), Map(h, inputs), os[i]) {
      assert os[i] in os;
    }
  }

  lemma HomOpVal<S(!new), V>(A: Alg<S>, B: Alg<V>, h: S -> V, short: bool, env: seq<S>, inputs: seq<S>, op: ROp)
    requires Hom(A, B, h) && !HostWrites(op) && AllOk(Operands(op), |env|, |inputs|)
             && (op.ODot? ==> |op.xs| == |op.ys|)
    ensures h(OpVal(A, short, env, inputs, op)) == OpVal(B, short, Map(h, env), Map(h, inputs), op)
  {
    hide ReduceVal, DotVal, PowiVal, UnaryVal;
    forall o | o in Operands(op) ensures h(Val(env, inputs, o)) == Val(Map(h, env), Map(h, inputs), o) {}
    match op
    case OPowi(_, a, n) => assert a in Operands(op); HomPowi(A, B, h, Val(env, inputs, a), n);
    case OUnary(_, u, a) => assert a in Operands(op); HomUnary(A, B, h, u, Val(env, inputs, a));
    case OReduce(_, r, args) =>
      HomVals(h, env, inputs, args);
      HomReduce(A, B, h, short, r, Vals(env, inputs, args));
    case ODot(_, xs, ys) =>
      assert forall o :: o in xs ==> o in Operands(op);
      assert forall o :: o in ys ==> o in Operands(op);
      HomVals(h, env, inputs, xs);
      HomVals(h, env, inputs, ys);
      HomDot(A, B, h, short, Vals(env, inputs, xs), Vals(env, inputs, ys));
    case OConst(_, _) =>
    case ONeg(_, a) => assert a in Operands(op);
    case OAdd(_, a, b) => assert a in Operands(op) && b in Operands(op);
    case OSub(_, a, b) => assert a in Operands(op) && b in Operands(op);
    case OMul(_, a, b) => assert a in Operands(op) && b in Operands(op);
    case OMulAdd(_, a, b, c) => assert a in Operands(op) && b in Operands(op) && c in Operands(op);
    case OBinary(_, _, a, b) => assert a in Operands(op) && b in Operands(op);
    case OCmp(_, _, a, b) => assert a in Operands(op) && b in Operands(op);
    case OSelect(_, c, t, e) => assert c in Operands(op) && t in Operands(op) && e in Operands(op);
  }

  lemma HomCall<S(!new), V>(A: Alg<S>, B: Alg<V>, h: S -> V, env: seq<S>, inputs: seq<S>, c: CallSite)
    requires Hom(A, B, h) && AllOk(c.args, |env|, |inputs|) && c.state + StateWidth(c) <= |env|
    ensures Map(h, CallEval(A, env, inputs, c)) == CallEval(B, Map(h, env), Map(h, inputs), c)
  {
    var args, states := Vals(env, inputs, c.args), env[c.state..c.state + StateWidth(c)];
    HomVals(h, env, inputs, c.args);
    MapSlice(h, env, c.state, c.state + StateWidth(c));
    assert MapAll(h, [args, states]) == [Map(h, args), Map(h, states)];
  }

  lemma HomDense<S, V>(h: S -> V, env: seq<S>, inputs: seq<S>, d: Dense, len: nat)
    requires DenseOk(d, len, |env|, |inputs|) && AllOk(DenseSlots(d), |env|, |inputs|)
    ensures Map(h, DenseVals(env, inputs, d, len)) == DenseVals(Map(h, env), Map(h, inputs), d, len)
  {
    match d
    case DInputs(k) => MapSlice(h, inputs, k, k + len);
    case DRun(s, n) => MapSlice(h, env, s, s + n);
    case DSlots(list) => HomVals(h, env, inputs, list);
  }

  lemma HomKernel<S(!new), V>(A: Alg<S>, B: Alg<V>, h: S -> V, env: seq<S>, inputs: seq<S>, k: KernelSite)
    requires Hom(A, B, h) && KernelOk(k.operands, |env|, |inputs|)
    ensures Map(h, KernelEval(A, env, inputs, k)) == KernelEval(B, Map(h, env), Map(h, inputs), k)
  {
    var vals, mapped := KernelVals(env, inputs, k.operands), KernelVals(Map(h, env), Map(h, inputs), k.operands);
    HomKernelVals(h, env, inputs, k.operands);
    var l, r := Map(h, KernelEval(A, env, inputs, k)), KernelEval(B, Map(h, env), Map(h, inputs), k);
    forall x | 0 <= x < |env| ensures l[x] == r[x] {
      if k.dst <= x < k.dst + KernelWidth(k.kind) {
        assert h(A.routine(KernelRoutine(k), vals, x - k.dst)) == B.routine(KernelRoutine(k), mapped, x - k.dst);
      }
    }
  }

  lemma HomKernelVals<S, V>(h: S -> V, env: seq<S>, inputs: seq<S>, ds: seq<(Dense, nat)>)
    requires KernelOk(ds, |env|, |inputs|)
    ensures MapAll(h, KernelVals(env, inputs, ds)) == KernelVals(Map(h, env), Map(h, inputs), ds)
  {
    var vals, mapped := KernelVals(env, inputs, ds), KernelVals(Map(h, env), Map(h, inputs), ds);
    forall i | 0 <= i < |ds| ensures Map(h, vals[i]) == mapped[i] { HomDense(h, env, inputs, ds[i].0, ds[i].1); }
  }

  lemma HomOp<S(!new), V>(A: Alg<S>, B: Alg<V>, h: S -> V, lay: Layout, env: seq<S>, inputs: seq<S>, op: ROp)
    requires Hom(A, B, h) && |env| == lay.slots && OpOk(op, lay, |inputs|)
    ensures Map(h, OpEval(A, true, lay, env, inputs, op)) == OpEval(B, true, lay, Map(h, env), Map(h, inputs), op)
  {
    hide OpVal, CallEval, KernelEval, Hom;
    match op
    case OCall(c) => HomCall(A, B, h, env, inputs, c);
    case OKernel(k) =>
      KernelOkFromOperands(k.operands, |env|, |inputs|);
      HomKernel(A, B, h, env, inputs, k);
    case _ => HomOpVal(A, B, h, true, env, inputs, op);
  }

  /** The interpreter commutes with the map. */
  lemma {:induction false} HomInterp<S(!new), V>(A: Alg<S>, B: Alg<V>, h: S -> V, lay: Layout, env: seq<S>,
                                                 inputs: seq<S>,
                                                 ops: seq<ROp>, n: nat)
    requires Hom(A, B, h) && |env| == lay.slots && n <= |ops|
    requires forall i :: 0 <= i < |ops| ==> OpOk(ops[i], lay, |inputs|)
    ensures Map(h, Interp(A, true, lay, env, inputs, ops, n)) ==
            Interp(B, true, lay, Map(h, env), Map(h, inputs), ops, n)
  {
    hide OpEval, Hom;
    if n > 0 {
      HomInterp(A, B, h, lay, env, inputs, ops, n - 1);
      HomOp(A, B, h, lay, Interp(A, true, lay, env, inputs, ops, n - 1), inputs, ops[n - 1]);
    }
  }

  // --- the machine ----------------------------------------------------------------------------------

  function MapMach<S, V>(h: S -> V, m: Mach<S>, clock: nat): Mach<V> {
    Mach(Map(h, m.regs), Map(h, m.work), clock)
  }

  /** World `v` is world `s` mapped, its clock `late` ahead. */
  ghost predicate WorldHom<S(!new), V>(s: World<S>, v: World<V>, h: S -> V, late: nat) {
    && Hom(s.A, v.A, h) && s.lay == v.lay && s.isa == v.isa && v.inputs == Map(h, s.inputs)
    && forall t: nat, p: nat :: h(s.junk(t, p)) == v.junk(t + late, p)
  }

  lemma HomClobbered<S(!new), V>(s: World<S>, v: World<V>, h: S -> V, late: nat, m: Mach<S>, result: S)
    requires WorldHom(s, v, h, late) && Shaped(s, m)
    ensures Map(h, Clobbered(s, m, result)) == Clobbered(v, MapMach(h, m, m.clock + late), h(result))
  {
    hide Hom;
  }

  lemma HomScratched<S(!new), V>(s: World<S>, v: World<V>, h: S -> V, late: nat, m: Mach<S>)
    requires WorldHom(s, v, h, late) && Shaped(s, m)
    ensures Map(h, Scratched(s, m)) == Scratched(v, MapMach(h, m, m.clock + late))
  {
    hide Hom;
  }

  lemma HomArgs<S(!new), V>(s: World<S>, v: World<V>, h: S -> V, late: nat, work: seq<S>, d: CallDesc)
    requires WorldHom(s, v, h, late) && |work| == s.lay.Total() && DescOk(s.lay, |s.inputs|, d)
    ensures Map(h, ArgsOf(s, work, d)) == ArgsOf(v, Map(h, work), d)
  {
    hide Hom;
    if d.table {
      HomVals(h, work[..s.lay.slots], s.inputs, d.call.args);
      MapSlice(h, work, 0, s.lay.slots);
      assert work[..s.lay.slots] == work[0..s.lay.slots] && Map(h, work)[..s.lay.slots] == Map(h, work)[0..s.lay.slots];
    }
  }

  lemma HomRunCall<S(!new), V>(s: World<S>, v: World<V>, h: S -> V, late: nat, work: seq<S>, clock: nat, d: CallDesc)
    requires WorldHom(s, v, h, late) && |work| == s.lay.Total() && DescOk(s.lay, |s.inputs|, d)
    ensures Map(h, RunCall(s, work, clock, d)) == RunCall(v, Map(h, work), clock + late, d)
  {
    hide ArgsOf, PlacesApart, CallWidth, StateWidth, CallRoutine, Hom;
    var c := d.call;
    var args, states := ArgsOf(s, work, d), work[c.state..c.state + StateWidth(c)];
    HomArgs(s, v, h, late, work, d);
    MapSlice(h, work, c.state, c.state + StateWidth(c));
    forall i: nat
      ensures h(s.A.routine(CallRoutine(c), [args, states], i)) ==
              v.A.routine(CallRoutine(c), [Map(h, args), Map(h, states)], i) {
      HomRoutine(s.A, v.A, h, CallRoutine(c), args, states, i);
    }
    var l, r := Map(h, RunCall(s, work, clock, d)), RunCall(v, Map(h, work), clock + late, d);
    forall x | 0 <= x < |work| ensures l[x] == r[x] {}
  }

  lemma HomRoutine<S(!new), V>(A: Alg<S>, B: Alg<V>, h: S -> V, r: Routine, a: seq<S>, b: seq<S>, i: nat)
    requires Hom(A, B, h)
    ensures h(A.routine(r, [a, b], i)) == B.routine(r, [Map(h, a), Map(h, b)], i)
  {
    assert MapAll(h, [a, b]) == [Map(h, a), Map(h, b)];
  }

  lemma {:induction false} HomRunCalls<S(!new), V>(s: World<S>, v: World<V>, h: S -> V, late: nat, work: seq<S>,
                                                   clock: nat, ds: seq<CallDesc>)
    requires WorldHom(s, v, h, late) && |work| == s.lay.Total() && forall d :: d in ds ==> DescOk(s.lay, |s.inputs|, d)
    ensures Map(h, RunCalls(s, work, clock, ds)) == RunCalls(v, Map(h, work), clock + late, ds)
  {
    hide Hom, RunCall;
    if ds != [] {
      var last := |ds| - 1;
      HomRunCalls(s, v, h, late, work, clock, ds[..last]);
      HomRunCall(s, v, h, late, RunCalls(s, work, clock, ds[..last]), clock, ds[last]);
    }
  }

  lemma HomHost<S(!new), V>(s: World<S>, v: World<V>, h: S -> V, late: nat, i: Instr, m: Mach<S>)
    requires WorldHom(s, v, h, late) && Shaped(s, m) && InstrOk(s.isa, s.lay, |s.inputs|, i) && ScalarHost(i)
    ensures Step(v, i, MapMach(h, m, m.clock + late)) == MapMach(h, Step(s, i, m), m.clock + late + 1)
  {
    hide UnaryVal, PowiVal, Extremum, Clobbered, Scratched;
    HomScratched(s, v, h, late, m);
    HomClobbered(s, v, h, late, m, HostResult(s, i, m));
    match i
    case HostUnary(u, x) => HomUnary(s.A, v.A, h, u, m.regs[x]);
    case HostBinary(_, _, _) =>
    case HostPowi(x, n) => HomPowi(s.A, v.A, h, m.regs[x], n);
    case HostReduce(max, off, len) =>
      HomExtremum(s.A, v.A, h, max, m.work[off..off + len]);
      MapSlice(h, m.work, off, off + len);
  }

  lemma HomCalls<S(!new), V>(s: World<S>, v: World<V>, h: S -> V, late: nat, ds: seq<CallDesc>, m: Mach<S>)
    requires WorldHom(s, v, h, late) && Shaped(s, m) && InstrOk(s.isa, s.lay, |s.inputs|, HostCalls(ds))
    ensures Step(v, HostCalls(ds), MapMach(h, m, m.clock + late)) ==
            MapMach(h, Step(s, HostCalls(ds), m), m.clock + late + 1)
  {
    hide Clobbered, Scratched, RunCalls, Hom;
    HomScratched(s, v, h, late, m);
    HomClobbered(s, v, h, late, m, s.junk(m.clock, s.isa.Result()));
    HomRunCalls(s, v, h, late, Scratched(s, m), m.clock, ds);
  }

  lemma HomKernelCall<S(!new), V>(s: World<S>, v: World<V>, h: S -> V, late: nat, i: Instr, m: Mach<S>)
    requires WorldHom(s, v, h, late) && Shaped(s, m) && InstrOk(s.isa, s.lay, |s.inputs|, i) && i.HostKernel?
    ensures Step(v, i, MapMach(h, m, m.clock + late)) == MapMach(h, Step(s, i, m), m.clock + late + 1)
  {
    hide Clobbered, Scratched;
    HomScratched(s, v, h, late, m);
    HomClobbered(s, v, h, late, m, s.junk(m.clock, s.isa.Result()));
    var n := MapMach(h, m, m.clock + late);
    var vals := seq(|i.operands|, j requires 0 <= j < |i.operands| => PlaceVals(s, m.work, i.operands[j]));
    var mapped := seq(|i.operands|, j requires 0 <= j < |i.operands| => PlaceVals(v, n.work, i.operands[j]));
    assert MapAll(h, vals) == mapped by {
      forall j | 0 <= j < |vals| ensures Map(h, vals[j]) == mapped[j] {
        assert i.operands[j] in i.operands;
        match i.operands[j]
        case InInputs(k, len) => MapSlice(h, s.inputs, k, k + len);
        case InWork(off, len) => MapSlice(h, m.work, off, off + len);
      }
    }
    var l, r := Step(s, i, m), Step(v, i, n);
    forall x | 0 <= x < s.lay.Total() ensures r.work[x] == h(l.work[x]) {
      HostKernelWork(s, i.routine, i.operands, i.dst, i.width, m, vals, x);
      HostKernelWork(v, i.routine, i.operands, i.dst, i.width, n, mapped, x);
      assert Scratched(v, n)[x] == Map(h, Scratched(s, m))[x];
    }
    assert r.work == Map(h, l.work);
  }

  /** An instruction commutes with the map. */
  lemma HomStep<S(!new), V>(s: World<S>, v: World<V>, h: S -> V, late: nat, i: Instr, m: Mach<S>)
    requires WorldHom(s, v, h, late) && Shaped(s, m) && InstrOk(s.isa, s.lay, |s.inputs|, i)
    ensures Step(v, i, MapMach(h, m, m.clock + late)) == MapMach(h, Step(s, i, m), m.clock + late + 1)
  {
    if ScalarHost(i) {
      HomHost(s, v, h, late, i, m);
    } else if i.HostCalls? {
      HomCalls(s, v, h, late, i.descs, m);
    } else if i.HostKernel? {
      HomKernelCall(s, v, h, late, i, m);
    } else {
      HomPlain(s, v, h, late, i, m);
    }
  }

  lemma HomPlain<S(!new), V>(s: World<S>, v: World<V>, h: S -> V, late: nat, i: Instr, m: Mach<S>)
    requires WorldHom(s, v, h, late) && Shaped(s, m) && InstrOk(s.isa, s.lay, |s.inputs|, i)
    requires !ScalarHost(i) && !i.HostCalls? && !i.HostKernel?
    ensures Step(v, i, MapMach(h, m, m.clock + late)) == MapMach(h, Step(s, i, m), m.clock + late + 1)
  {
    hide UnaryVal, Computed;
    if i.ExpLn? { HomUnary(s.A, v.A, h, i.uop, m.regs[i.x]); }
    if Target(i).Some? { HomComputed(s, v, h, late, i, m); }
    var l, r := Step(s, i, m), Step(v, i, MapMach(h, m, m.clock + late));
    assert r.regs == Map(h, l.regs) && r.work == Map(h, l.work);
  }

  lemma HomComputed<S(!new), V>(s: World<S>, v: World<V>, h: S -> V, late: nat, i: Instr, m: Mach<S>)
    requires WorldHom(s, v, h, late) && Shaped(s, m) && InstrOk(s.isa, s.lay, |s.inputs|, i) && Target(i).Some?
    ensures Computed(v, i, MapMach(h, m, m.clock + late)) == h(Computed(s, i, m))
  {
  }

  /** Code commutes with the map. */
  lemma {:induction false} HomRun<S(!new), V>(s: World<S>, v: World<V>, h: S -> V, late: nat, code: seq<Instr>,
                                              m: Mach<S>)
    requires WorldHom(s, v, h, late) && Shaped(s, m) && CodeOk(s.isa, s.lay, |s.inputs|, code)
    ensures Run(v, code, MapMach(h, m, m.clock + late)) == MapMach(h, Run(s, code, m), Run(s, code, m).clock + late)
  {
    hide Hom, Step, WorldHom;
    if code != [] {
      var last := |code| - 1;
      HomRun(s, v, h, late, code[..last], m);
      HomStep(s, v, h, late, code[last], Run(s, code[..last], m));
    }
  }

  // --- terms ------------------------------------------------------------------------------------------

  /** How a value was computed from the memory and registers at a chunk's start, the
      interpreter's slots there, the inputs, and what clobbered places hold. */
  datatype Term =
    | TMem(i: nat) | TReg(i: nat) | TSlot(i: nat) | TInput(i: nat) | TJunk(clock: nat, place: nat)
    | TConst(bits: Bits)
    | TArith(aop: Arith, a: Term, b: Term)
    | TPrim(prim: Prim, a: Term)
    | TExtremum(max: bool, a: Term, b: Term)
    | TCmpSelect(cop: CmpOp, a: Term, b: Term, t: Term, e: Term)
    | TSelectNz(c: Term, t: Term, e: Term)
    | TUnary(uop: UnaryOp, a: Term)
    | TBinary(bop: nat, a: Term, b: Term)
    | TRoutine(routine: Routine, args: seq<TermList>, i: nat)

  datatype TermList = TermList(ts: seq<Term>)

  function Lists(xs: seq<seq<Term>>): (r: seq<TermList>)
    ensures |r| == |xs| && forall j :: 0 <= j < |xs| ==> r[j].ts == xs[j]
  {
    seq(|xs|, j requires 0 <= j < |xs| => TermList(xs[j]))
  }

  function TermAlg(): Alg<Term> {
    Alg(b => TConst(b),
        (op, x, y) => TArith(op, x, y),
        (p, x) => TPrim(p, x),
        (m, x, y) => TExtremum(m, x, y),
        (c, x, y, t, e) => TCmpSelect(c, x, y, t, e),
        (c, t, e) => TSelectNz(c, t, e),
        (u, x) => TUnary(u, x),
        (o, x, y) => TBinary(o, x, y),
        (r, xs, i) => TRoutine(r, Lists(xs), i))
  }

  /** What the leaves of a term stand for. */
  datatype Leaves<!V> = Leaves(mem: nat -> V, reg: nat -> V, slot: nat -> V, input: nat -> V, junk: (nat, nat) -> V)

  function Value<V>(A: Alg<V>, l: Leaves<V>, t: Term): V
    decreases t
  {
    match t
    case TMem(i) => l.mem(i)
    case TReg(i) => l.reg(i)
    case TSlot(i) => l.slot(i)
    case TInput(i) => l.input(i)
    case TJunk(c, p) => l.junk(c, p)
    case TConst(b) => A.konst(b)
    case TArith(op, x, y) => A.arith(op, Value(A, l, x), Value(A, l, y))
    case TPrim(p, x) => A.prim(p, Value(A, l, x))
    case TExtremum(m, x, y) => A.extremum(m, Value(A, l, x), Value(A, l, y))
    case TCmpSelect(c, x, y, t, e) => A.cmpSelect(c, Value(A, l, x), Value(A, l, y), Value(A, l, t), Value(A, l, e))
    case TSelectNz(c, t, e) => A.selectNz(Value(A, l, c), Value(A, l, t), Value(A, l, e))
    case TUnary(u, x) => A.unary(u, Value(A, l, x))
    case TBinary(o, x, y) => A.binary(o, Value(A, l, x), Value(A, l, y))
    case TRoutine(r, xs, i) => A.routine(r, ValuesAll(A, l, xs), i)
  }

  function Values<V>(A: Alg<V>, l: Leaves<V>, ts: seq<Term>): (r: seq<V>)
    ensures |r| == |ts| && forall k :: 0 <= k < |ts| ==> r[k] == Value(A, l, ts[k])
    decreases ts
  {
    if ts == [] then [] else [Value(A, l, ts[0])] + Values(A, l, ts[1..])
  }

  function ValuesAll<V>(A: Alg<V>, l: Leaves<V>, lists: seq<TermList>): (r: seq<seq<V>>)
    ensures |r| == |lists| && forall j :: 0 <= j < |lists| ==> r[j] == Values(A, l, lists[j].ts)
    decreases lists
  {
    if lists == [] then [] else [Values(A, l, lists[0].ts)] + ValuesAll(A, l, lists[1..])
  }

  lemma RoutineHom<V>(A: Alg<V>, l: Leaves<V>, r: Routine, xs: seq<seq<Term>>, i: nat)
    ensures var h := (t: Term) => Value(A, l, t);
            h(TermAlg().routine(r, xs, i)) == A.routine(r, MapAll(h, xs), i)
  {
    var h := (t: Term) => Value(A, l, t);
    var all := ValuesAll(A, l, Lists(xs));
    forall j | 0 <= j < |xs| ensures all[j] == Map(h, xs[j]) {
      assert all[j] == Values(A, l, Lists(xs)[j].ts);
    }
    assert all == MapAll(h, xs);
  }

  lemma ValueHom<V>(A: Alg<V>, l: Leaves<V>)
    ensures Hom(TermAlg(), A, (t: Term) => Value(A, l, t))
  {
    var h := (t: Term) => Value(A, l, t);
    ScalarValues(A, l, h);
    hide Lists, MapAll, ValuesAll, Values, Value, TermAlg, HomScalar;
    forall r, xs, i: nat ensures h(TermAlg().routine(r, xs, i)) == A.routine(r, MapAll(h, xs), i) {
      RoutineHom(A, l, r, xs, i);
    }
  }

  lemma ScalarValues<V>(A: Alg<V>, l: Leaves<V>, h: Term -> V)
    requires forall t: Term :: h(t) == Value(A, l, t)
    ensures HomScalar(TermAlg(), A, h)
  {
    hide Value, Values, ValuesAll, Lists;
    forall b ensures h(TConst(b)) == A.konst(b) { ValueNext(A, l, TConst(b)); }
    forall op, x, y ensures h(TArith(op, x, y)) == A.arith(op, h(x), h(y)) { ValueNext(A, l, TArith(op, x, y)); }
    forall p, x ensures h(TPrim(p, x)) == A.prim(p, h(x)) { ValueNext(A, l, TPrim(p, x)); }
    forall m, x, y ensures h(TExtremum(m, x, y)) == A.extremum(m, h(x), h(y)) { ValueNext(A, l, TExtremum(m, x, y)); }
    forall c, x, y, t, e ensures h(TCmpSelect(c, x, y, t, e)) == A.cmpSelect(c, h(x), h(y), h(t), h(e)) {
      ValueNext(A, l, TCmpSelect(c, x, y, t, e));
    }
    forall c, t, e ensures h(TSelectNz(c, t, e)) == A.selectNz(h(c), h(t), h(e)) {
      ValueNext(A, l, TSelectNz(c, t, e));
    }
    forall u, x ensures h(TUnary(u, x)) == A.unary(u, h(x)) { ValueNext(A, l, TUnary(u, x)); }
    forall o, x, y ensures h(TBinary(o, x, y)) == A.binary(o, h(x), h(y)) { ValueNext(A, l, TBinary(o, x, y)); }
  }

  /** The value of a term of scalars. */
  lemma ValueNext<V>(A: Alg<V>, l: Leaves<V>, t: Term)
    ensures match t
            case TConst(b) => Value(A, l, t) == A.konst(b)
            case TArith(op, x, y) => Value(A, l, t) == A.arith(op, Value(A, l, x), Value(A, l, y))
            case TPrim(p, x) => Value(A, l, t) == A.prim(p, Value(A, l, x))
            case TExtremum(m, x, y) => Value(A, l, t) == A.extremum(m, Value(A, l, x), Value(A, l, y))
            case TCmpSelect(c, x, y, z, e) =>
              Value(A, l, t) == A.cmpSelect(c, Value(A, l, x), Value(A, l, y), Value(A, l, z), Value(A, l, e))
            case TSelectNz(c, x, y) => Value(A, l, t) == A.selectNz(Value(A, l, c), Value(A, l, x), Value(A, l, y))
            case TUnary(u, x) => Value(A, l, t) == A.unary(u, Value(A, l, x))
            case TBinary(o, x, y) => Value(A, l, t) == A.binary(o, Value(A, l, x), Value(A, l, y))
            case _ => true
  {
  }

  function TermWorld(isa: Isa, lay: Layout, inputs: nat): (w: World<Term>)
    ensures |w.inputs| == inputs
  {
    World(TermAlg(), lay, isa, seq(inputs, k requires 0 <= k < inputs => TInput(k)), (t: nat, p: nat) => TJunk(t, p))
  }

  function TermMach(isa: Isa, lay: Layout): (m: Mach<Term>)
    ensures |m.regs| == isa.n + 1 && |m.work| == lay.Total() && m.clock == 0
  {
    Mach(seq(isa.n + 1, i requires 0 <= i < isa.n + 1 => TReg(i)), seq(lay.Total(), i
      requires 0 <= i < lay.Total() => TMem(i)), 0)
  }

  /** The interpreter's slots at a chunk's start: memory's where something reads them. */
  ghost function TermSlots(P: Program, lay: Layout, start: nat): (env: seq<Term>)
    ensures |env| == lay.slots
  {
    seq(lay.slots, x requires 0 <= x < lay.slots => if Live(P, x, start)
        || HostLive(P, x, start) then TMem(x) else TSlot(x))
  }

  /** Code that does what a chunk's ops do, over terms. */
  ghost predicate ChunkOk(P: Program, isa: Isa, lay: Layout, inputs: nat, code: seq<Instr>, ops: seq<ROp>, start: nat) {
    && CodeOk(isa, lay, inputs, code)
    && (forall i :: 0 <= i < |ops| ==> OpOk(ops[i], lay, inputs))
    && var w := TermWorld(isa, lay, inputs);
       && Agrees(P, lay, Run(w, code, TermMach(isa, lay)).work,
                 Interp(w.A, true, lay, TermSlots(P, lay, start), w.inputs, ops, |ops|), start + |ops|)
       && Untouched(P, lay, TermMach(isa, lay).work, Run(w, code, TermMach(isa, lay)).work, start)
  }

  /** Code correct over terms is correct over every scalar, from every memory, with any
      inputs, and whatever registers and clobbered places hold. */
  lemma ChunkRuns<V>(P: Program, code: seq<Instr>, ops: seq<ROp>, start: nat, w: World<V>, m: Mach<V>, env: seq<V>)
    requires Shaped(w, m) && |env| == w.lay.slots
    requires ChunkOk(P, w.isa, w.lay, |w.inputs|, code, ops, start) && Agrees(P, w.lay, m.work, env, start)
    ensures Agrees(P, w.lay, Run(w, code, m).work, Interp(w.A, true, w.lay, env, w.inputs, ops, |ops|), start + |ops|)
    ensures Untouched(P, w.lay, m.work, Run(w, code, m).work, start)
  {
    hide Live, HostLive, OpOk, Run, Interp, Hom, CodeOk, Unwritten;
    var s, sm, slots := TermWorld(w.isa, w.lay, |w.inputs|), TermMach(w.isa, w.lay), TermSlots(P, w.lay, start);
    var l := Leaves((i: nat) => if i < |m.work| then m.work[i] else m.regs[0],
                    (i: nat) => if i < |m.regs| then m.regs[i] else m.regs[0],
                    (i: nat) => if i < |env| then env[i] else m.regs[0],
                    (i: nat) => if i < |w.inputs| then w.inputs[i] else m.regs[0],
                    (c: nat, p: nat) => w.junk(c + m.clock, p));
    var h := (t: Term) => Value(w.A, l, t);
    ValueHom(w.A, l);
    assert WorldHom(s, w, h, m.clock) by { assert Map(h, s.inputs) == w.inputs; }
    assert MapMach(h, sm, m.clock) == m by { assert Map(h, sm.regs) == m.regs && Map(h, sm.work) == m.work; }
    assert Map(h, slots) == env;
    HomRun(s, w, h, m.clock, code, sm);
    HomInterp(s.A, w.A, h, w.lay, slots, s.inputs, ops, |ops|);
  }
}
