/** The machine emitted code runs on: the cache's registers and the result register
    of a host call, the work array (slots, gather area, scratch), and the inputs.
    Register `i < n` is the `i`th of the cache, register `n` the result's; the first
    `saved` survive a host call, every other register holds anything after one. */
module Machines {
  import opened Basics
  import opened Scalars
  import opened OpStream

  /** The instruction layer: its cache, and what it can do in one instruction. */
  datatype Isa = Isa(
    n: nat, saved: nat, memOperands: bool, minmax: bool, roundOk: bool, expLnInline: bool)
  {
    predicate Ok() { saved <= n }
    function Result(): nat { n }
  }

  /** A call as the code hands it to the host: its descriptor, and whether the host
      gathers its operands from a table. */
  datatype CallDesc = CallDesc(call: CallSite, table: bool)

  /** A kernel operand as the host is told of it. */
  datatype PlaceAt = InInputs(k: nat, len: nat) | InWork(off: nat, len: nat)

  datatype Instr =
    | Load(r: nat, off: nat)
    | LoadInput(r: nat, k: nat)
    | Store(r: nat, off: nat)
    | FConst(r: nat, bits: Bits)
    | Mov(d: nat, a: nat)
    | ArithRR(aop: Arith, d: nat, a: nat, b: nat)
    | ArithMem(aop: Arith, d: nat, a: nat, off: nat)
    | Unop(prim: Prim, d: nat, a: nat)
    | MinMax(max: bool, d: nat, a: nat, b: nat)
    | CmpSelect(cop: CmpOp, a: nat, b: nat, t: nat, e: nat, d: nat)
    | SelectNz(c: nat, t: nat, e: nat, d: nat)
    | ExpLn(uop: UnaryOp, d: nat, x: nat, temps: seq<nat>)
    | HostUnary(uop: UnaryOp, x: nat)
    | HostBinary(bop: nat, x: nat, y: nat)
    | HostPowi(x: nat, n: int)
    | HostReduce(max: bool, off: nat, len: nat)
    | HostCalls(descs: seq<CallDesc>)
    | HostKernel(routine: Routine, operands: seq<PlaceAt>, dst: nat, width: nat)

  /** What code runs over: the inputs, and what a clobbered place holds afterwards (by
      the instruction's count and the place), any function at all. */
  datatype World<!V> = World(A: Alg<V>, lay: Layout, isa: Isa, inputs: seq<V>, junk: (nat, nat) -> V)

  datatype Mach<V> = Mach(regs: seq<V>, work: seq<V>, clock: nat)

  ghost predicate Shaped<V>(w: World<V>, m: Mach<V>) {
    |m.regs| == w.isa.n + 1 && |m.work| == w.lay.Total()
  }

  predicate RegOk(isa: Isa, r: nat) { r <= isa.n }

  ghost predicate DescOk(lay: Layout, inputs: nat, d: CallDesc) {
    && AllOk(d.call.args, lay.slots, inputs)
    && d.call.nGroups > 0 && PlacesApart(d.call)
    && d.call.gatherAt + d.call.nGroups * d.call.nArgs <= lay.gatherLen
    && d.call.state + StateWidth(d.call) <= lay.slots
    && d.call.dst + CallWidth(d.call) <= lay.slots
  }

  predicate PlaceOk(lay: Layout, inputs: nat, p: PlaceAt) {
    match p
    case InInputs(k, len) => k + len <= inputs
    case InWork(off, len) => off + len <= lay.Scratch()
  }

  /** An instruction names registers and places that exist, and its result register is
      none of its operands, except the first of an `ArithRR` or `ArithMem`. */
  ghost predicate InstrOk(isa: Isa, lay: Layout, inputs: nat, i: Instr) {
    match i
    case Load(r, off) => RegOk(isa, r) && off < lay.Total()
    case LoadInput(r, k) => RegOk(isa, r) && k < inputs
    case Store(r, off) => RegOk(isa, r) && off < lay.Scratch()
    case FConst(r, _) => RegOk(isa, r)
    case Mov(d, a) => RegOk(isa, d) && RegOk(isa, a) && d != a
    case ArithRR(_, d, a, b) => RegOk(isa, d) && RegOk(isa, a) && RegOk(isa, b) && d != b
    case ArithMem(_, d, a, off) => isa.memOperands && RegOk(isa, d) && RegOk(isa, a) && off < lay.slots
    case Unop(_, d, a) => RegOk(isa, d) && RegOk(isa, a) && d != a
    case MinMax(_, d, a, b) => isa.minmax && RegOk(isa, d) && RegOk(isa, a) && RegOk(isa, b) && d != a && d != b
    case CmpSelect(_, a, b, t, e, d) =>
      && RegOk(isa, a) && RegOk(isa, b) && RegOk(isa, t) && RegOk(isa, e) && RegOk(isa, d)
      && d != a && d != b && d != t && d != e
    case SelectNz(c, t, e, d) =>
      RegOk(isa, c) && RegOk(isa, t) && RegOk(isa, e) && RegOk(isa, d) && d != c && d != t && d != e
    case ExpLn(u, d, x, temps) =>
      && isa.expLnInline && (u.Exp? || u.Ln?) && RegOk(isa, d) && RegOk(isa, x) && d != x
      && (forall t :: t in temps ==> RegOk(isa, t) && t != d && t != x)
    case HostUnary(_, x) => RegOk(isa, x)
    case HostBinary(_, x, y) => RegOk(isa, x) && RegOk(isa, y)
    case HostPowi(x, _) => RegOk(isa, x)
    case HostReduce(_, off, len) => lay.slots <= off && off + len <= lay.Scratch()
    case HostCalls(descs) => forall d :: d in descs ==> DescOk(lay, inputs, d)
    case HostKernel(_, ops, dst, width) =>
      dst + width <= lay.slots && forall p :: p in ops ==> PlaceOk(lay, inputs, p)
  }

  /** Register `i` after a host call: a saved one's value, the result, or junk. */
  function RegAfter<V>(w: World<V>, m: Mach<V>, result: V, i: nat): V
    requires |m.regs| == w.isa.n + 1 && i < |m.regs|
  {
    if i == w.isa.Result() then result
    else if i < w.isa.saved then m.regs[i] else w.junk(m.clock, i)
  }

  function Clobbered<V>(w: World<V>, m: Mach<V>, result: V): (r: seq<V>)
    requires |m.regs| == w.isa.n + 1
    ensures |r| == |m.regs|
    ensures forall i :: 0 <= i < |r| ==> r[i] == RegAfter(w, m, result, i)
  {
    seq(|m.regs|, i requires 0 <= i < |m.regs| => RegAfter(w, m, result, i))
  }

  /** Where the work array's element `i` is scratch, junk. */
  function Scratched<V>(w: World<V>, m: Mach<V>): (r: seq<V>)
    requires |m.work| == w.lay.Total()
    ensures |r| == |m.work|
  {
    seq(|m.work|, i requires 0 <= i < |m.work| =>
          if i >= w.lay.Scratch() then w.junk(m.clock, w.isa.n + 1 + i) else m.work[i])
  }

  lemma ScratchedAt<V>(w: World<V>, m: Mach<V>, k: nat)
    requires Shaped(w, m) && k < w.lay.Scratch()
    ensures Scratched(w, m)[k] == m.work[k]
  {
  }

  /** The argument values of a call: from the gather area, or by its table. */
  function ArgsOf<V>(w: World<V>, work: seq<V>, d: CallDesc): (r: seq<V>)
    requires |work| == w.lay.Total() && DescOk(w.lay, |w.inputs|, d)
    ensures |r| == |d.call.args|
  {
    if d.table then Vals(work[..w.lay.slots], w.inputs, d.call.args)
    else seq(|d.call.args|, k requires 0 <= k < |d.call.args| =>
               work[w.lay.slots + d.call.gatherAt + Place(d.call, k)])
  }

  /** One call by the host: its outputs written from `dst`; a table's operands pass
      through the call's part of the gather area. */
  function RunCall<V>(w: World<V>, work: seq<V>, clock: nat, d: CallDesc): (r: seq<V>)
    requires |work| == w.lay.Total() && DescOk(w.lay, |w.inputs|, d)
    ensures |r| == |work|
  {
    var c := d.call;
    var args := ArgsOf(w, work, d);
    var states := work[c.state..c.state + StateWidth(c)];
    var g := w.lay.slots + c.gatherAt;
    seq(|work|, i requires 0 <= i < |work| =>
          if c.dst <= i < c.dst + CallWidth(c) then w.A.routine(CallRoutine(c), [args, states], i - c.dst)
          else if d.table && g <= i < g + c.nGroups * c.nArgs then w.junk(clock, w.isa.n + 1 + i)
          else work[i])
  }

  function RunCalls<V>(w: World<V>, work: seq<V>, clock: nat, descs: seq<CallDesc>): (r: seq<V>)
    requires |work| == w.lay.Total() && forall d :: d in descs ==> DescOk(w.lay, |w.inputs|, d)
    ensures |r| == |work|
  {
    if descs == [] then work
    else
      var last := |descs| - 1;
      RunCall(w, RunCalls(w, work, clock, descs[..last]), clock, descs[last])
  }

  function PlaceVals<V>(w: World<V>, work: seq<V>, p: PlaceAt): seq<V>
    requires |work| == w.lay.Total() && PlaceOk(w.lay, |w.inputs|, p)
  {
    match p
    case InInputs(k, len) => w.inputs[k..k + len]
    case InWork(off, len) => work[off..off + len]
  }

  /** The register an instruction computes into, where it does nothing else. */
  function Target(i: Instr): Option<nat> {
    match i
    case Load(r, _) => Some(r)
    case LoadInput(r, _) => Some(r)
    case FConst(r, _) => Some(r)
    case Mov(d, _) => Some(d)
    case ArithRR(_, d, _, _) => Some(d)
    case ArithMem(_, d, _, _) => Some(d)
    case Unop(_, d, _) => Some(d)
    case MinMax(_, d, _, _) => Some(d)
    case CmpSelect(_, _, _, _, _, d) => Some(d)
    case SelectNz(_, _, _, d) => Some(d)
    case _ => None
  }

  /** What an instruction with a target computes into it. */
  function Computed<V>(w: World<V>, i: Instr, m: Mach<V>): V
    requires Shaped(w, m) && InstrOk(w.isa, w.lay, |w.inputs|, i) && Target(i).Some?
  {
    match i
    case Load(_, off) => m.work[off]
    case LoadInput(_, k) => w.inputs[k]
    case FConst(_, b) => w.A.konst(b)
    case Mov(_, a) => m.regs[a]
    case ArithRR(op, _, a, b) => w.A.arith(op, m.regs[a], m.regs[b])
    case ArithMem(op, _, a, off) => w.A.arith(op, m.regs[a], m.work[off])
    case Unop(p, _, a) => w.A.prim(p, m.regs[a])
    case MinMax(max, _, a, b) => w.A.extremum(max, m.regs[a], m.regs[b])
    case CmpSelect(c, a, b, x, y, _) => w.A.cmpSelect(c, m.regs[a], m.regs[b], m.regs[x], m.regs[y])
    case SelectNz(c, x, y, _) => w.A.selectNz(m.regs[c], m.regs[x], m.regs[y])
  }

  /** The result of a host call that computes one value from its arguments. */
  predicate ScalarHost(i: Instr) { i.HostUnary? || i.HostBinary? || i.HostPowi? || i.HostReduce? }

  function HostResult<V>(w: World<V>, i: Instr, m: Mach<V>): V
    requires Shaped(w, m) && InstrOk(w.isa, w.lay, |w.inputs|, i) && ScalarHost(i)
  {
    match i
    case HostUnary(u, x) => UnaryVal(w.A, u, m.regs[x])
    case HostBinary(b, x, y) => w.A.binary(b, m.regs[x], m.regs[y])
    case HostPowi(x, n) => PowiVal(w.A, m.regs[x], n)
    case HostReduce(max, off, len) => Extremum(w.A, max, m.work[off..off + len])
  }

  /** One instruction. */
  function Step<V>(w: World<V>, i: Instr, m: Mach<V>): (r: Mach<V>)
    requires Shaped(w, m) && InstrOk(w.isa, w.lay, |w.inputs|, i)
    ensures Shaped(w, r) && r.clock == m.clock + 1
  {
    var t := m.clock + 1;
    if Target(i).Some? then Mach(m.regs[Target(i).value := Computed(w, i, m)], m.work, t)
    else if ScalarHost(i) then Mach(Clobbered(w, m, HostResult(w, i, m)), Scratched(w, m), t)
    else
    match i
    case Store(r, off) => Mach(m.regs, m.work[off := m.regs[r]], t)
    case ExpLn(u, d, x, temps) =>
      var regs := seq(|m.regs|, j requires 0 <= j < |m.regs| =>
                        if j == d then UnaryVal(w.A, u, m.regs[x])
                        else if j in temps then w.junk(m.clock, j) else m.regs[j]);
      Mach(regs, m.work, t)
    case HostCalls(descs) =>
      var junk := w.junk(m.clock, w.isa.Result());
      Mach(Clobbered(w, m, junk), RunCalls(w, Scratched(w, m), m.clock, descs), t)
    case HostKernel(routine, ops, dst, width) =>
      var junk := w.junk(m.clock, w.isa.Result());
      var vals := seq(|ops|, j requires 0 <= j < |ops| => PlaceVals(w, m.work, ops[j]));
      var work := Scratched(w, m);
      Mach(Clobbered(w, m, junk), WriteBlock(work, dst, width, j => w.A.routine(routine, vals, j)), t)
  }

  ghost predicate CodeOk(isa: Isa, lay: Layout, inputs: nat, code: seq<Instr>) {
    forall i :: 0 <= i < |code| ==> InstrOk(isa, lay, inputs, code[i])
  }

  /** The machine after `code`. */
  function Run<V>(w: World<V>, code: seq<Instr>, m: Mach<V>): (r: Mach<V>)
    requires Shaped(w, m) && CodeOk(w.isa, w.lay, |w.inputs|, code)
    ensures Shaped(w, r)
  {
    if code == [] then m
    else
      var last := |code| - 1;
      Step(w, code[last], Run(w, code[..last], m))
  }

  lemma RunAppend<V>(w: World<V>, code: seq<Instr>, i: Instr, m: Mach<V>)
    requires Shaped(w, m) && CodeOk(w.isa, w.lay, |w.inputs|, code) && InstrOk(w.isa, w.lay, |w.inputs|, i)
    ensures CodeOk(w.isa, w.lay, |w.inputs|, code + [i])
    ensures Run(w, code + [i], m) == Step(w, i, Run(w, code, m))
  {
    assert (code + [i])[..|code + [i]| - 1] == code;
  }

  lemma HostStep<V>(w: World<V>, i: Instr, m: Mach<V>)
    requires Shaped(w, m) && InstrOk(w.isa, w.lay, |w.inputs|, i) && ScalarHost(i) && w.isa.Ok()
    ensures var r := Step(w, i, m);
            && r.regs[w.isa.n] == HostResult(w, i, m)
            && (forall j :: 0 <= j < w.isa.saved ==> r.regs[j] == m.regs[j])
            && (forall k :: 0 <= k < w.lay.Scratch() ==> r.work[k] == m.work[k])
  {
    hide Clobbered, Scratched, UnaryVal, PowiVal, Extremum;
    assert Step(w, i, m) == Mach(Clobbered(w, m, HostResult(w, i, m)), Scratched(w, m), m.clock + 1);
    forall k | 0 <= k < w.lay.Scratch() ensures Scratched(w, m)[k] == m.work[k] { ScratchedAt(w, m, k); }
  }

  lemma HostKernelWork<V>(w: World<V>, routine: Routine, ps: seq<PlaceAt>, dst: nat, n: nat, m: Mach<V>,
                          vals: seq<seq<V>>, x: nat)
    requires Shaped(w, m) && InstrOk(w.isa, w.lay, |w.inputs|, HostKernel(routine, ps, dst, n)) && x < w.lay.Total()
    requires |vals| == |ps| && forall j :: 0 <= j < |ps| ==> vals[j] == PlaceVals(w, m.work, ps[j])
    ensures Step(w, HostKernel(routine, ps, dst, n), m).work[x] ==
            if dst <= x < dst + n then w.A.routine(routine, vals, x - dst) else Scratched(w, m)[x]
  {
    assert vals == seq(|ps|, j requires 0 <= j < |ps| => PlaceVals(w, m.work, ps[j]));
  }
}
