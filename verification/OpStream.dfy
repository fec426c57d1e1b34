/** Programs as lists of ops over numbered slots, what each op reads and writes, and the
    interpreter that gives them meaning: one step an op, `Interp` for a prefix. */
module OpStream {
  import opened Basics
  import opened Scalars

  datatype Operand = Slot(s: nat) | Input(k: nat)

  /** The part of a function's body a call site executes. */
  datatype CallKind = Whole | MainPhase | Prolog

  /** How a call's host call is made: by itself, by a later call of its stage, or for itself and
      the `n - 1` waiting before it. */
  datatype StageRole = Alone | Deferred | Last(n: nat)

  datatype CallSite = CallSite(
    dst: nat, bundle: nat, args: seq<Operand>, positions: Option<seq<nat>>,
    nGroups: nat, nArgs: nat, nOut: nat, kind: CallKind, state: nat, stateLen: nat,
    gatherAt: nat, stage: StageRole)

  datatype KernelKind =
    | Gemv(m: nat, n: nat)
    | Gemm(m: nat, k: nat, n: nat)
    | Solve(n: nat, k: nat, count: nat)

  /** Where a kernel finds an operand: consecutive inputs, consecutive slots, or any list of
      operands. */
  datatype Dense = DInputs(k: nat) | DRun(s: nat, len: nat) | DSlots(list: seq<Operand>)

  datatype KernelSite = KernelSite(
    dst: nat, kind: KernelKind, operands: seq<(Dense, nat)>, codes: Option<seq<nat>>)

  datatype ROp =
    | OConst(dst: nat, bits: Bits)
    | OAdd(dst: nat, a: Operand, b: Operand)
    | OMul(dst: nat, a: Operand, b: Operand)
    | OMulAdd(dst: nat, a: Operand, b: Operand, c: Operand)
    | OSub(dst: nat, a: Operand, b: Operand)
    | ONeg(dst: nat, a: Operand)
    | OPowi(dst: nat, a: Operand, n: int)
    | OUnary(dst: nat, uop: UnaryOp, a: Operand)
    | OBinary(dst: nat, bop: nat, a: Operand, b: Operand)
    | OCmp(dst: nat, cop: CmpOp, a: Operand, b: Operand)
    | OSelect(dst: nat, c: Operand, t: Operand, e: Operand)
    | OReduce(dst: nat, rop: ReduceOp, args: seq<Operand>)
    | ODot(dst: nat, xs: seq<Operand>, ys: seq<Operand>)
    | OCall(call: CallSite)
    | OKernel(kernel: KernelSite)

  // --- reads and writes --------------------------------------------------------

  function DenseSlots(d: Dense): seq<Operand> {
    match d
    case DInputs(_) => []
    case DRun(s, len) => seq(len, i requires 0 <= i < len => Slot(s + i))
    case DSlots(list) => list
  }

  function KernelSlots(ds: seq<(Dense, nat)>): seq<Operand> {
    if ds == [] then [] else DenseSlots(ds[0].0) + KernelSlots(ds[1..])
  }

  /** Every operand an op reads, in read order (a kernel's run of inputs is read by
      address). A main phase's state block is not among them. */
  function Operands(op: ROp): seq<Operand> {
    match op
    case OConst(_, _) => []
    case ONeg(_, a) => [a]
    case OPowi(_, a, _) => [a]
    case OUnary(_, _, a) => [a]
    case OAdd(_, a, b) => [a, b]
    case OMul(_, a, b) => [a, b]
    case OSub(_, a, b) => [a, b]
    case OCmp(_, _, a, b) => [a, b]
    case OBinary(_, _, a, b) => [a, b]
    case OMulAdd(_, a, b, c) => [a, b, c]
    case OSelect(_, c, t, e) => [c, t, e]
    case OReduce(_, _, args) => args
    case OCall(c) => c.args
    case ODot(_, xs, ys) => xs + ys
    case OKernel(k) => KernelSlots(k.operands)
  }

  function KernelWidth(k: KernelKind): nat {
    match k
    case Gemv(m, _) => m
    case Gemm(m, _, n) => m * n
    case Solve(n, k, count) => count * n * k
  }

  /** What a prolog call fills: the state rows of its groups, and after them the row number of
      each instance. */
  function CallWidth(c: CallSite): nat {
    if c.kind.Prolog? then c.nGroups * (c.nOut + 1) else c.nGroups * c.nOut
  }

  function Dst(op: ROp): nat {
    match op
    case OCall(c) => c.dst
    case OKernel(k) => k.dst
    case _ => op.dst
  }

  function Width(op: ROp): nat {
    match op
    case OCall(c) => CallWidth(c)
    case OKernel(k) => KernelWidth(k.kind)
    case _ => 1
  }

  predicate WritesSlot(op: ROp, s: nat) { Dst(op) <= s < Dst(op) + Width(op) }

  /** The slots of the state block a main phase reads in memory. */
  function StateWidth(c: CallSite): nat {
    if c.kind.MainPhase? then c.nGroups * (c.stateLen + 1) else 0
  }

  predicate ReadsState(op: ROp, s: nat) {
    op.OCall? && op.call.state <= s < op.call.state + StateWidth(op.call)
  }

  /** Whether an op's results are written by a host routine, straight to memory. */
  predicate HostWrites(op: ROp) { op.OCall? || op.OKernel? }

  // --- well-formed ops ---------------------------------------------------------

  /** The work array: slots, then the gather area, then the bundles' scratch. */
  datatype Layout = Layout(slots: nat, gatherLen: nat, scratchLen: nat) {
    function Scratch(): nat { slots + gatherLen }
    function Total(): nat { slots + gatherLen + scratchLen }
  }

  /** Where operand `k` of a call goes among its groups' arguments. */
  function Place(c: CallSite, k: nat): nat {
    match c.positions
    case None => k
    case Some(p) => if |p| == 0 then 0 else (k / |p|) * c.nArgs + p[k % |p|]
  }

  function GatheredLen(d: Dense): nat { if d.DSlots? then |d.list| else 0 }

  function GatheredSum(ds: seq<(Dense, nat)>): nat {
    if ds == [] then 0 else GatheredLen(ds[0].0) + GatheredSum(ds[1..])
  }

  predicate OperandOk(o: Operand, slots: nat, inputs: nat) {
    match o case Slot(s) => s < slots case Input(k) => k < inputs
  }

  ghost predicate PlacesApart(c: CallSite) {
    && (forall k :: 0 <= k < |c.args| ==> Place(c, k) < c.nGroups * c.nArgs)
    && (forall j, k :: 0 <= j < k < |c.args| ==> Place(c, j) != Place(c, k))
  }

  predicate DenseOk(d: Dense, len: nat, slots: nat, inputs: nat) {
    match d
    case DInputs(k) => k + len <= inputs
    case DRun(s, n) => n == len && s + n <= slots
    case DSlots(list) => |list| == len
  }

  /** What the tape promises of an op: its operands exist, its block is inside the
      slots, and what a host call gathers fits the gather area. */
  ghost predicate OpOk(op: ROp, lay: Layout, inputs: nat) {
    && (forall o :: o in Operands(op) ==> OperandOk(o, lay.slots, inputs))
    && Dst(op) + Width(op) <= lay.slots
    && match op
       case OReduce(_, r, args) => (r.Min? || r.Max?) ==> |args| <= lay.gatherLen
       case ODot(_, xs, ys) => |xs| == |ys|
       case OCall(c) =>
         && c.nGroups > 0
         && c.gatherAt + c.nGroups * c.nArgs <= lay.gatherLen
         && c.state + StateWidth(c) <= lay.slots
         && PlacesApart(c)
       case OKernel(k) =>
         && GatheredSum(k.operands) <= lay.gatherLen
         && (forall i :: 0 <= i < |k.operands| ==> DenseOk(k.operands[i].0, k.operands[i].1, lay.slots, inputs))
       case _ => true
  }

  // --- the interpreter -----------------------------------------------------------

  function Val<V>(env: seq<V>, inputs: seq<V>, o: Operand): V
    requires OperandOk(o, |env|, |inputs|)
  {
    match o case Slot(s) => env[s] case Input(k) => inputs[k]
  }

  ghost predicate AllOk(os: seq<Operand>, slots: nat, inputs: nat) {
    forall o :: o in os ==> OperandOk(o, slots, inputs)
  }

  function Vals<V>(env: seq<V>, inputs: seq<V>, os: seq<Operand>): (r: seq<V>)
    requires AllOk(os, |env|, |inputs|)
    ensures |r| == |os|
  {
    seq(|os|, i requires 0 <= i < |os| => Val(env, inputs, os[i]))
  }

  function DenseVals<V>(env: seq<V>, inputs: seq<V>, d: Dense, len: nat): seq<V>
    requires DenseOk(d, len, |env|, |inputs|)
    requires AllOk(DenseSlots(d), |env|, |inputs|)
  {
    match d
    case DInputs(k) => inputs[k..k + len]
    case DRun(s, n) => env[s..s + n]
    case DSlots(list) => Vals(env, inputs, list)
  }

  ghost predicate KernelOk(ds: seq<(Dense, nat)>, slots: nat, inputs: nat) {
    forall i :: 0 <= i < |ds| ==> DenseOk(ds[i].0, ds[i].1, slots, inputs) && AllOk(DenseSlots(ds[i].0), slots, inputs)
  }

  function KernelVals<V>(env: seq<V>, inputs: seq<V>, ds: seq<(Dense, nat)>): (r: seq<seq<V>>)
    requires KernelOk(ds, |env|, |inputs|)
    ensures |r| == |ds|
  {
    seq(|ds|, i requires 0 <= i < |ds| => DenseVals(env, inputs, ds[i].0, ds[i].1))
  }

  function CallRoutine(c: CallSite): Routine {
    BundleRun(c.bundle, match c.kind case Whole => 0 case MainPhase => 1 case Prolog => 2,
              c.nGroups, c.nArgs, c.nOut, c.positions)
  }

  function KernelRoutine(k: KernelSite): Routine {
    match k.kind
    case Gemv(m, n) => KernelRun(0, m, 0, n, k.codes)
    case Gemm(m, kk, n) => KernelRun(1, m, kk, n, k.codes)
    case Solve(n, kk, count) => KernelRun(2, count, kk, n, k.codes)
  }

  /** `env` with the block of `n` slots from `dst` holding `f`. */
  function WriteBlock<V>(env: seq<V>, dst: nat, n: nat, f: nat -> V): (r: seq<V>)
    ensures |r| == |env|
    ensures forall i :: 0 <= i < |env| ==> r[i] == if dst <= i < dst + n then f(i - dst) else env[i]
  {
    seq(|env|, i requires 0 <= i < |env| => if dst <= i < dst + n then f(i - dst) else env[i])
  }

  /** The value a one-slot op writes. */
  function OpVal<V>(A: Alg<V>, short: bool, env: seq<V>, inputs: seq<V>, op: ROp): V
    requires !HostWrites(op)
    requires AllOk(Operands(op), |env|, |inputs|)
    requires op.ODot? ==> |op.xs| == |op.ys|
  {
    match op
    case OConst(_, b) => A.konst(b)
    case OAdd(_, a, b) => assert a in Operands(op) && b in Operands(op);
        A.arith(FAdd, Val(env, inputs, a), Val(env, inputs, b))
    case OMul(_, a, b) => assert a in Operands(op) && b in Operands(op);
        A.arith(FMul, Val(env, inputs, a), Val(env, inputs, b))
    case OSub(_, a, b) => assert a in Operands(op) && b in Operands(op);
        A.arith(FSub, Val(env, inputs, a), Val(env, inputs, b))
    case OMulAdd(_, a, b, c) =>
      assert a in Operands(op) && b in Operands(op) && c in Operands(op);
      A.arith(FAdd, A.arith(FMul, Val(env, inputs, a), Val(env, inputs, b)), Val(env, inputs, c))
    case ONeg(_, a) => assert a in Operands(op); A.prim(PNeg, Val(env, inputs, a))
    case OPowi(_, a, n) => assert a in Operands(op); PowiVal(A, Val(env, inputs, a), n)
    case OUnary(_, u, a) => assert a in Operands(op); UnaryVal(A, u, Val(env, inputs, a))
    case OBinary(_, b2, a, b) => assert a in Operands(op) && b in Operands(op);
        A.binary(b2, Val(env, inputs, a), Val(env, inputs, b))
    case OCmp(_, c, a, b) =>
      assert a in Operands(op) && b in Operands(op);
      A.cmpSelect(c, Val(env, inputs, a), Val(env, inputs, b), A.konst(ONE_BITS), A.konst(ZERO_BITS))
    case OSelect(_, c, t, e) =>
      assert c in Operands(op) && t in Operands(op) && e in Operands(op);
      A.selectNz(Val(env, inputs, c), Val(env, inputs, t), Val(env, inputs, e))
    case OReduce(_, r, args) => ReduceVal(A, short, r, Vals(env, inputs, args))
    case ODot(_, xs, ys) =>
      assert forall o :: o in xs ==> o in Operands(op);
      assert forall o :: o in ys ==> o in Operands(op);
      DotVal(A, short, Vals(env, inputs, xs), Vals(env, inputs, ys))
  }

  /** The slots after a call: its block the bundle's outputs on its arguments and,
      for a main phase, its states. */
  function CallEval<V>(A: Alg<V>, env: seq<V>, inputs: seq<V>, c: CallSite): (r: seq<V>)
    requires AllOk(c.args, |env|, |inputs|)
    requires c.state + StateWidth(c) <= |env|
    ensures |r| == |env|
  {
    var args := Vals(env, inputs, c.args);
    var states := env[c.state..c.state + StateWidth(c)];
    WriteBlock(env, c.dst, CallWidth(c), i => A.routine(CallRoutine(c), [args, states], i))
  }

  function KernelEval<V>(A: Alg<V>, env: seq<V>, inputs: seq<V>, k: KernelSite): (r: seq<V>)
    requires KernelOk(k.operands, |env|, |inputs|)
    ensures |r| == |env|
  {
    var vals := KernelVals(env, inputs, k.operands);
    WriteBlock(env, k.dst, KernelWidth(k.kind), i => A.routine(KernelRoutine(k), vals, i))
  }

  lemma {:induction false} KernelSlotsAt(ds: seq<(Dense, nat)>, i: nat, o: Operand)
    requires i < |ds| && o in DenseSlots(ds[i].0)
    ensures o in KernelSlots(ds)
  {
    if i > 0 {
      assert ds[i] == ds[1..][i - 1];
      KernelSlotsAt(ds[1..], i - 1, o);
    }
  }

  lemma KernelOkFromOperands(ds: seq<(Dense, nat)>, slots: nat, inputs: nat)
    requires forall i :: 0 <= i < |ds| ==> DenseOk(ds[i].0, ds[i].1, slots, inputs)
    requires AllOk(KernelSlots(ds), slots, inputs)
    ensures KernelOk(ds, slots, inputs)
  {
    hide KernelSlots, DenseSlots, DenseOk;
    forall i, o | 0 <= i < |ds| && o in DenseSlots(ds[i].0) ensures OperandOk(o, slots, inputs) {
      KernelSlotsAt(ds, i, o);
    }
  }

  /** One step of the interpreter: the slots after `op`. */
  function OpEval<V>(A: Alg<V>, short: bool, lay: Layout, env: seq<V>, inputs: seq<V>, op: ROp): (r: seq<V>)
    requires |env| == lay.slots && OpOk(op, lay, |inputs|)
    ensures |r| == |env|
  {
    match op
    case OCall(c) =>
      CallEval(A, env, inputs, c)
    case OKernel(k) =>
      KernelOkFromOperands(k.operands, |env|, |inputs|);
      KernelEval(A, env, inputs, k)
    case _ =>
      env[op.dst := OpVal(A, short, env, inputs, op)]
  }

  /** The slots after the first `n` ops: the interpreter. */
  function Interp<V>(A: Alg<V>, short: bool, lay: Layout, env: seq<V>, inputs: seq<V>, ops: seq<ROp>,
                     n: nat): (r: seq<V>)
    requires |env| == lay.slots && n <= |ops|
    requires forall i :: 0 <= i < |ops| ==> OpOk(ops[i], lay, |inputs|)
    ensures |r| == |env|
  {
    if n == 0 then env
    else OpEval(A, short, lay, Interp(A, short, lay, env, inputs, ops, n - 1), inputs, ops[n - 1])
  }

  lemma InterpNext<V>(A: Alg<V>, lay: Layout, env: seq<V>, inputs: seq<V>, ops: seq<ROp>, n: nat)
    requires |env| == lay.slots && n < |ops|
    requires forall i :: 0 <= i < |ops| ==> OpOk(ops[i], lay, |inputs|)
    ensures Interp(A, true, lay, env, inputs, ops, n + 1) ==
            OpEval(A, true, lay, Interp(A, true, lay, env, inputs, ops, n), inputs, ops[n])
  {
  }

  lemma InterpNone<V>(A: Alg<V>, lay: Layout, env: seq<V>, inputs: seq<V>, ops: seq<ROp>)
    requires |env| == lay.slots && forall i :: 0 <= i < |ops| ==> OpOk(ops[i], lay, |inputs|)
    ensures Interp(A, true, lay, env, inputs, ops, 0) == env
  {
  }
}
