/** Stages of independent calls: a call of a stage hands its operands over where it
    stands in the stream, and the stage's last makes the host call for all of them. */
module Stages {
  import opened Basics
  import opened Scalars
  import opened OpStream
  import opened LivenessTables
  import opened Machines
  import opened CacheInvariant

  predicate InBlock(c: CallSite, x: nat) { c.dst <= x < c.dst + CallWidth(c) }

  function BlockOf(c: CallSite): (r: set<nat>)
    ensures forall x: nat :: x in r <==> InBlock(c, x)
  {
    set x: nat | c.dst <= x < c.dst + CallWidth(c) && InBlock(c, x)
  }

  predicate InState(c: CallSite, x: nat) { c.state <= x < c.state + StateWidth(c) }

  /** What the tape promises of two calls of one stage: neither reads what the other
      writes, and their arguments are gathered apart. */
  ghost predicate CallsApart(c: CallSite, d: CallSite) {
    && (forall x: nat :: InBlock(c, x) ==> Slot(x) !in d.args && !InState(d, x) && !InBlock(d, x))
    && (forall x: nat :: InBlock(d, x) ==> Slot(x) !in c.args && !InState(c, x))
    && (c.gatherAt + c.nGroups * c.nArgs <= d.gatherAt || d.gatherAt + d.nGroups * d.nArgs <= c.gatherAt)
  }

  predicate IsDeferred(op: ROp) { op.OCall? && op.call.stage.Deferred? }

  /** How many calls deferred to the stage's last come right before op `q`. */
  function Trail(ops: seq<ROp>, q: nat): (t: nat)
    requires q <= |ops|
    ensures t <= q
  {
    if q > 0 && IsDeferred(ops[q - 1]) then Trail(ops, q - 1) + 1 else 0
  }

  /** What the tape promises of its calls: a deferred call is followed by another call
      of its stage, a last one counts them, and the calls of a stage are apart. */
  ghost predicate StagesOk(ops: seq<ROp>) {
    forall q :: 0 <= q < |ops| ==>
      && (Trail(ops, q) > 0 ==> ops[q].OCall? && !ops[q].call.stage.Alone?)
      && (ops[q].OCall? && ops[q].call.stage.Last? ==> ops[q].call.stage.n == Trail(ops, q) + 1)
      && (ops[q].OCall? ==> forall j :: q - Trail(ops, q) <= j < q && ops[j].OCall? ==>
          CallsApart(ops[j].call, ops[q].call))
  }

  /** The states a main phase reads were written by a host call, and nothing but a main
      phase reads which row each instance has. */
  ghost predicate StatesOk(P: Program) {
    && (forall q: nat, x: nat :: q < |P.ops| && !HostWrites(P.ops[q]) && WriteAt(P, x, q) ==> !HostLive(P, x, q + 1))
    && (forall q: nat, x: nat :: q < |P.ops| && InRows(P.ops[q], x) ==> !Live(P, x, q + 1))
  }

  /** The rows a prolog writes after its states. */
  predicate InRows(op: ROp, x: nat) {
    && op.OCall? && op.call.kind.Prolog?
    && op.call.dst + op.call.nGroups * op.call.nOut <= x < op.call.dst + CallWidth(op.call)
  }

  // --- the host's calls against the interpreter's ------------------------------------------

  ghost predicate DescsOk(lay: Layout, inputs: nat, ds: seq<CallDesc>) {
    forall i :: 0 <= i < |ds| ==> DescOk(lay, inputs, ds[i])
  }

  ghost predicate Apart(ds: seq<CallDesc>) {
    forall i, j :: 0 <= i < j < |ds| ==> CallsApart(ds[i].call, ds[j].call)
  }

  ghost predicate InBlocks(ds: seq<CallDesc>, x: nat) {
    exists i :: 0 <= i < |ds| && InBlock(ds[i].call, x)
  }

  /** The interpreter over the calls, one after the other. */
  function CallsEval<V>(A: Alg<V>, lay: Layout, env: seq<V>, inputs: seq<V>, ds: seq<CallDesc>): (r: seq<V>)
    requires |env| == lay.slots && DescsOk(lay, |inputs|, ds)
    ensures |r| == |env|
  {
    if ds == [] then env
    else
      var last := |ds| - 1;
      assert DescOk(lay, |inputs|, ds[last]);
      CallEval(A, CallsEval(A, lay, env, inputs, ds[..last]), inputs, ds[last].call)
  }

  /** A call's operands and states are in memory as the interpreter has them in `env`. */
  ghost predicate HandedOver<V>(w: World<V>, work: seq<V>, env: seq<V>, d: CallDesc)
    requires |work| == w.lay.Total() && |env| == w.lay.slots && DescOk(w.lay, |w.inputs|, d)
  {
    && ArgsOf(w, work, d) == Vals(env, w.inputs, d.call.args)
    && (forall x :: 0 <= x < w.lay.slots && InState(d.call, x) ==> work[x] == env[x])
  }

  /** Calls apart from `d` leave what it reads. */
  lemma {:induction false} CallsEvalApart<V>(w: World<V>, env: seq<V>, ds: seq<CallDesc>, d: CallDesc)
    requires |env| == w.lay.slots && DescsOk(w.lay, |w.inputs|, ds) && DescOk(w.lay, |w.inputs|, d)
    requires forall i :: 0 <= i < |ds| ==> CallsApart(ds[i].call, d.call)
    ensures var e := CallsEval(w.A, w.lay, env, w.inputs, ds);
            && Vals(e, w.inputs, d.call.args) == Vals(env, w.inputs, d.call.args)
            && (forall x :: 0 <= x < w.lay.slots && InState(d.call, x) ==> e[x] == env[x])
  {
    if ds != [] {
      var last := |ds| - 1;
      CallsEvalApart(w, env, ds[..last], d);
      var e0 := CallsEval(w.A, w.lay, env, w.inputs, ds[..last]);
      var c := ds[last].call;
      assert CallsApart(c, d.call);
      forall k | 0 <= k < |d.call.args|
        ensures Val(CallEval(w.A, e0, w.inputs, c), w.inputs, d.call.args[k]) == Val(env, w.inputs, d.call.args[k])
      {
        var o := d.call.args[k];
        assert o in d.call.args;
        assert Val(e0, w.inputs, o) == Val(env, w.inputs, o) by {
          assert Vals(e0, w.inputs, d.call.args)[k] == Vals(env, w.inputs, d.call.args)[k];
        }
        if o.Slot? { assert !InBlock(c, o.s); }
      }
    }
  }

  lemma {:induction false} CallsEvalElse<V>(w: World<V>, env: seq<V>, ds: seq<CallDesc>, x: nat)
    requires |env| == w.lay.slots && DescsOk(w.lay, |w.inputs|, ds) && x < w.lay.slots && !InBlocks(ds, x)
    ensures CallsEval(w.A, w.lay, env, w.inputs, ds)[x] == env[x]
  {
    if ds != [] {
      var last := |ds| - 1;
      assert !InBlock(ds[last].call, x);
      forall i | 0 <= i < last ensures !InBlock(ds[..last][i].call, x) { assert !InBlock(ds[i].call, x); }
      CallsEvalElse(w, env, ds[..last], x);
    }
  }

  ghost predicate StageReady<V>(w: World<V>, work: seq<V>, env: seq<V>, ds: seq<CallDesc>) {
    && |work| == w.lay.Total() && |env| == w.lay.slots
    && DescsOk(w.lay, |w.inputs|, ds) && Apart(ds)
    && forall i :: 0 <= i < |ds| ==> HandedOver(w, work, env, ds[i])
  }

  /** The memory after one more of the stage's calls. */
  lemma {:induction false} RunCallApart<V>(w: World<V>, a: seq<V>, clock: nat, c: CallDesc, env: seq<V>, d: CallDesc)
    requires |a| == w.lay.Total() && |env| == w.lay.slots
    requires DescOk(w.lay, |w.inputs|, c) && DescOk(w.lay, |w.inputs|, d) && CallsApart(c.call, d.call)
    requires HandedOver(w, a, env, d)
    ensures HandedOver(w, RunCall(w, a, clock, c), env, d)
  {
    var b := RunCall(w, a, clock, c);
    forall k | 0 <= k < |d.call.args| ensures ArgsOf(w, b, d)[k] == ArgsOf(w, a, d)[k] {
      if d.table {
        var o := d.call.args[k];
        assert o in d.call.args;
        if o.Slot? { assert !InBlock(c.call, o.s); }
      } else {
        assert Place(d.call, k) < d.call.nGroups * d.call.nArgs;
      }
    }
  }

  lemma {:induction false} RunCallsApart<V>(w: World<V>, a: seq<V>, clock: nat, ds: seq<CallDesc>, env: seq<V>,
                                            d: CallDesc)
    requires |a| == w.lay.Total() && |env| == w.lay.slots && DescsOk(w.lay, |w.inputs|, ds)
    requires DescOk(w.lay, |w.inputs|, d) && HandedOver(w, a, env, d)
    requires forall i :: 0 <= i < |ds| ==> CallsApart(ds[i].call, d.call)
    ensures HandedOver(w, RunCalls(w, a, clock, ds), env, d)
  {
    if ds != [] {
      var last := |ds| - 1;
      RunCallsApart(w, a, clock, ds[..last], env, d);
      assert CallsApart(ds[last].call, d.call);
      RunCallApart(w, RunCalls(w, a, clock, ds[..last]), clock, ds[last], env, d);
    }
  }

  /** A stage's last call comes after a stage, apart from its calls. */
  lemma StageFront<V>(w: World<V>, work: seq<V>, env: seq<V>, ds: seq<CallDesc>)
    requires StageReady(w, work, env, ds) && ds != []
    ensures var d, rest := ds[|ds| - 1], ds[..|ds| - 1];
            && StageReady(w, work, env, rest) && DescOk(w.lay, |w.inputs|, d) && HandedOver(w, work, env, d)
            && (forall i :: 0 <= i < |rest| ==> CallsApart(rest[i].call, d.call))
  {
    hide HandedOver, CallsApart, DescOk;
  }

  lemma StageNext<V>(w: World<V>, work: seq<V>, clock: nat, env: seq<V>, ds: seq<CallDesc>)
    requires |work| == w.lay.Total() && |env| == w.lay.slots && DescsOk(w.lay, |w.inputs|, ds) && ds != []
    ensures var d, rest := ds[|ds| - 1], ds[..|ds| - 1];
            && DescOk(w.lay, |w.inputs|, d) && DescsOk(w.lay, |w.inputs|, rest)
            && RunCalls(w, work, clock, ds) == RunCall(w, RunCalls(w, work, clock, rest), clock, d)
            && CallsEval(w.A, w.lay, env, w.inputs, ds) ==
               CallEval(w.A, CallsEval(w.A, w.lay, env, w.inputs, rest), w.inputs, d.call)
  {
    hide DescOk, RunCall, CallEval;
  }

  /** The host's calls, one after the other, leave every block as the interpreter's
      calls do, and every other slot as it was. */
  lemma {:induction false} StageRuns<V>(w: World<V>, work: seq<V>, clock: nat, env: seq<V>, ds: seq<CallDesc>, x: nat)
    requires StageReady(w, work, env, ds) && x < w.lay.slots
    ensures RunCalls(w, work, clock, ds)[x] ==
            if InBlocks(ds, x) then CallsEval(w.A, w.lay, env, w.inputs, ds)[x] else work[x]
  {
    hide HandedOver, CallsApart, DescOk, RunCall, CallEval, InBlock, InState, Apart;
    if ds != [] {
      var last := |ds| - 1;
      var d, rest := ds[last], ds[..last];
      StageFront(w, work, env, ds);
      StageNext(w, work, clock, env, ds);
      hide RunCalls, CallsEval, DescsOk, InBlocks;
      StageRuns(w, work, clock, env, rest, x);
      RunCallsApart(w, work, clock, rest, env, d);
      CallsEvalApart(w, env, rest, d);
      LastCall(w, RunCalls(w, work, clock, rest), clock, env, CallsEval(w.A, w.lay, env, w.inputs, rest), d, x);
      BlocksJoin(rest, d, x);
      assert rest + [d] == ds;
    }
  }

  /** One call by the host against the interpreter's. */
  lemma LastCall<V>(w: World<V>, mid: seq<V>, clock: nat, env: seq<V>, e0: seq<V>, d: CallDesc, x: nat)
    requires |mid| == w.lay.Total() && |env| == |e0| == w.lay.slots && DescOk(w.lay, |w.inputs|, d) && x < w.lay.slots
    requires HandedOver(w, mid, env, d)
    requires Vals(e0, w.inputs, d.call.args) == Vals(env, w.inputs, d.call.args)
    requires forall y :: 0 <= y < w.lay.slots && InState(d.call, y) ==> e0[y] == env[y]
    ensures RunCall(w, mid, clock, d)[x] ==
            if InBlock(d.call, x) then CallEval(w.A, e0, w.inputs, d.call)[x] else mid[x]
    ensures !InBlock(d.call, x) ==> CallEval(w.A, e0, w.inputs, d.call)[x] == e0[x]
  {
    var c := d.call;
    assert mid[c.state..c.state + StateWidth(c)] == e0[c.state..c.state + StateWidth(c)] by {
      forall y | c.state <= y < c.state + StateWidth(c) ensures mid[y] == e0[y] {
        assert InState(c, y);
      }
    }
  }

  /** What a call handed over reads is untouched by steps that keep what memory agrees on
      with the interpreter, the pending blocks, and the call's part of the gather area. */
  lemma {:induction false} HandedKept<V>(w: World<V>, a: Snap<V>, b: Snap<V>, base: seq<V>, wait: seq<CallDesc>,
                                         d: CallDesc)
    requires Sizes(w, a) && Sizes(w, b) && |base| == w.lay.slots && DescsOk(w.lay, |w.inputs|, wait)
    requires DescOk(w.lay, |w.inputs|, d) && HandedOver(w, a.m.work, base, d)
    requires a.env == CallsEval(w.A, w.lay, base, w.inputs, wait)
    requires forall x: nat :: x in a.pend <==> InBlocks(wait, x)
    requires forall x :: 0 <= x < w.lay.slots && a.m.work[x] == a.env[x] ==> b.m.work[x] == a.env[x]
    requires forall x :: 0 <= x < w.lay.slots && x in a.pend ==> b.m.work[x] == a.m.work[x]
    requires var g := w.lay.slots + d.call.gatherAt;
             forall k :: g <= k < g + d.call.nGroups * d.call.nArgs ==> b.m.work[k] == a.m.work[k]
    ensures HandedOver(w, b.m.work, base, d)
  {
    forall x | 0 <= x < w.lay.slots && a.m.work[x] == base[x] ensures b.m.work[x] == base[x] {
      if !InBlocks(wait, x) { CallsEvalElse(w, base, wait, x); }
    }
    forall k | 0 <= k < |d.call.args| ensures ArgsOf(w, b.m.work, d)[k] == Vals(base, w.inputs, d.call.args)[k] {
      assert ArgsOf(w, a.m.work, d)[k] == Vals(base, w.inputs, d.call.args)[k];
      if d.table {
        assert d.call.args[k] in d.call.args;
      } else {
        assert Place(d.call, k) < d.call.nGroups * d.call.nArgs;
      }
    }
  }

  /** The whole stage handed over stays so. */
  lemma {:induction false} StageKept<V>(w: World<V>, a: Snap<V>, b: Snap<V>, base: seq<V>, wait: seq<CallDesc>,
                                        all: seq<CallDesc>)
    requires Sizes(w, a) && Sizes(w, b) && StageReady(w, a.m.work, base, all) && DescsOk(w.lay, |w.inputs|, wait)
    requires a.env == CallsEval(w.A, w.lay, base, w.inputs, wait)
    requires forall x: nat :: x in a.pend <==> InBlocks(wait, x)
    requires b.env == a.env && KeepsMem(w, a, b)
    ensures StageReady(w, b.m.work, base, all)
  {
    hide HandedOver, CallsEval;
    forall i | 0 <= i < |all| ensures HandedOver(w, b.m.work, base, all[i]) {
      HandedKept(w, a, b, base, wait, all[i]);
    }
  }

  lemma {:induction false} StageScratched<V>(w: World<V>, m: Mach<V>, base: seq<V>, ds: seq<CallDesc>)
    requires Shaped(w, m) && StageReady(w, m.work, base, ds)
    ensures StageReady(w, Scratched(w, m), base, ds)
  {
    hide HandedOver, Scratched;
    forall i | 0 <= i < |ds| ensures HandedOver(w, Scratched(w, m), base, ds[i]) { CallScratched(w, m, base, ds[i]); }
  }

  lemma CallScratched<V>(w: World<V>, m: Mach<V>, base: seq<V>, d: CallDesc)
    requires Shaped(w, m) && |base| == w.lay.slots && DescOk(w.lay, |w.inputs|, d) && HandedOver(w, m.work, base, d)
    ensures HandedOver(w, Scratched(w, m), base, d)
  {
    hide Scratched;
    var work := Scratched(w, m);
    forall k | 0 <= k < w.lay.Scratch() ensures work[k] == m.work[k] { ScratchedAt(w, m, k); }
    forall k | 0 <= k < |d.call.args| ensures ArgsOf(w, work, d)[k] == ArgsOf(w, m.work, d)[k] {
      if d.table {
        assert d.call.args[k] in d.call.args;
      } else {
        assert Place(d.call, k) < d.call.nGroups * d.call.nArgs;
      }
    }
  }

  predicate InOutputs(c: CallSite, x: nat) { c.dst <= x < c.dst + c.nGroups * c.nOut }

  lemma OutputsInBlock(c: CallSite, x: nat)
    requires InOutputs(c, x)
    ensures InBlock(c, x)
  {
    if c.kind.Prolog? { assert c.nGroups * (c.nOut + 1) == c.nGroups * c.nOut + c.nGroups; }
  }

  /** The calls of a stage are the ops up to `pos`. */
  ghost predicate Placed(P: Program, pos: nat, all: seq<CallDesc>) {
    && 0 < |all| <= pos + 1 && pos < |P.ops|
    && forall k :: 0 <= k < |all| ==> P.ops[pos + 1 - |all| + k] == OCall(all[k].call)
  }

  /** What a stage writes past its calls' outputs nothing reads after it. */
  lemma RowsOfStage(P: Program, pos: nat, all: seq<CallDesc>, j: nat, x: nat)
    requires StatesOk(P) && Placed(P, pos, all) && Apart(all) && j < |all|
    requires InBlock(all[j].call, x) && !InOutputs(all[j].call, x)
    ensures !Live(P, x, pos + 1)
  {
    hide StatesOk;
    var first := pos + 1 - |all|;
    assert InRows(P.ops[first + j], x);
    forall q | first + j < q <= pos ensures !WriteAt(P, x, q) {
      assert P.ops[first + (q - first)] == OCall(all[q - first].call);
      assert CallsApart(all[j].call, all[q - first].call);
    }
    RowsDead(P, first + j, pos, x);
  }

  /** A call handed over now joins the stage. */
  lemma {:induction false} HandedJoins<V>(w: World<V>, work: seq<V>, env: seq<V>, base: seq<V>, wait: seq<CallDesc>,
                                          d: CallDesc)
    requires StageReady(w, work, base, wait) && |env| == w.lay.slots
    requires env == CallsEval(w.A, w.lay, base, w.inputs, wait)
    requires DescOk(w.lay, |w.inputs|, d) && HandedOver(w, work, env, d)
    requires forall i :: 0 <= i < |wait| ==> CallsApart(wait[i].call, d.call)
    ensures StageReady(w, work, base, wait + [d])
    ensures CallsEval(w.A, w.lay, base, w.inputs, wait + [d]) == CallEval(w.A, env, w.inputs, d.call)
  {
    CallsEvalApart(w, base, wait, d);
    var all := wait + [d];
    forall i | 0 <= i < |all| ensures DescOk(w.lay, |w.inputs|, all[i]) && HandedOver(w, work, base, all[i]) {
      if i < |wait| { assert all[i] == wait[i]; }
    }
    forall i, j | 0 <= i < j < |all| ensures CallsApart(all[i].call, all[j].call) {
      if j < |wait| { assert all[i] == wait[i] && all[j] == wait[j]; }
    }
    assert all[..|all| - 1] == wait;
  }

  lemma BlocksJoin(wait: seq<CallDesc>, d: CallDesc, x: nat)
    ensures InBlocks(wait + [d], x) <==> InBlocks(wait, x) || InBlock(d.call, x)
  {
    var all := wait + [d];
    if InBlocks(wait, x) {
      var i :| 0 <= i < |wait| && InBlock(wait[i].call, x);
      assert all[i] == wait[i];
    }
    if InBlock(d.call, x) { assert all[|wait|] == d; }
  }

  /** Slots the calls of a stage write that something reads after it are outputs, not
      the rows after a prolog's states. */
  lemma {:induction false} RowsDead(P: Program, q: nat, end: nat, x: nat)
    requires StatesOk(P) && q <= end < |P.ops| && InRows(P.ops[q], x)
    requires forall j :: q < j <= end ==> !WriteAt(P, x, j)
    ensures !Live(P, x, end + 1)
    decreases end - q
  {
    if q == end {
      assert !Live(P, x, q + 1);
    } else {
      RowsDead(P, q, end - 1, x);
      LiveLater(P, x, end);
    }
  }

  lemma HandedIs<V>(w: World<V>, work: seq<V>, env: seq<V>, d: CallDesc)
    requires |work| == w.lay.Total() && |env| == w.lay.slots && DescOk(w.lay, |w.inputs|, d)
    requires ArgsOf(w, work, d) == Vals(env, w.inputs, d.call.args)
    requires forall x :: 0 <= x < w.lay.slots && InState(d.call, x) ==> work[x] == env[x]
    ensures HandedOver(w, work, env, d)
  {
  }

  /** What the stage's last call writes, with what waited: every block. */
  lemma StageWrites(P: Program, pos: nat, wait: seq<CallDesc>, all: seq<CallDesc>, pend: set<nat>)
    requires Placed(P, pos, all) && all[..|all| - 1] == wait
    requires forall x: nat :: x in pend <==> InBlocks(wait, x)
    ensures forall x: nat :: InBlocks(all, x) <==> x in pend || WriteAt(P, x, pos)
  {
    var d := all[|all| - 1];
    assert all == wait + [d];
    assert P.ops[pos + 1 - |all| + (|all| - 1)] == OCall(d.call);
    forall x: nat ensures InBlocks(all, x) <==> x in pend || WriteAt(P, x, pos) {
      BlocksJoin(wait, d, x);
    }
  }

  /** A slot of a block still held is no call's output, and dead. */
  lemma RowsOnly(P: Program, pos: nat, all: seq<CallDesc>, held: set<Operand>, x: nat)
    requires StatesOk(P) && Placed(P, pos, all) && Apart(all) && InBlocks(all, x) && Slot(x) in held
    requires forall j, y :: 0 <= j < |all| && InOutputs(all[j].call, y) ==> Slot(y) !in held
    ensures !Live(P, x, pos + 1)
  {
    hide StatesOk, Apart, Placed, InOutputs, Live;
    var j :| 0 <= j < |all| && InBlock(all[j].call, x);
    RowsOfStage(P, pos, all, j, x);
  }

  lemma ReadyParts<V>(w: World<V>, work: seq<V>, env: seq<V>, ds: seq<CallDesc>)
    requires StageReady(w, work, env, ds)
    ensures |env| == w.lay.slots && DescsOk(w.lay, |w.inputs|, ds) && Apart(ds)
    ensures forall d :: d in ds ==> DescOk(w.lay, |w.inputs|, d)
  {
  }

  // --- after the host call ---------------------------------------------------------------

  /** Register `i` is as it was, or what it held was in the block. */
  ghost predicate DropsOnly<V>(w: World<V>, a: Snap<V>, b: Snap<V>, i: nat, dst: nat, n: nat)
    requires Sizes(w, a) && Sizes(w, b) && i < w.isa.n
  {
    || (b.held[i] == a.held[i] && b.dirty[i] == a.dirty[i])
    || (b.held[i].None? && !b.dirty[i] && a.held[i].Some? && a.held[i].value.Slot?
        && dst <= a.held[i].value.s < dst + n)
  }

  /** Register `i` is as it was, or what it held was in some call's block. */
  ghost predicate DropsIn<V>(w: World<V>, a: Snap<V>, b: Snap<V>, i: nat, ds: seq<CallDesc>)
    requires Sizes(w, a) && Sizes(w, b) && i < w.isa.n
  {
    || (b.held[i] == a.held[i] && b.dirty[i] == a.dirty[i])
    || (b.held[i].None? && !b.dirty[i] && a.held[i].Some? && a.held[i].value.Slot? && InBlocks(ds, a.held[i].value.s))
  }

  lemma InvalidatedMore<V>(w: World<V>, a: Snap<V>, b: Snap<V>, c: Snap<V>, ds: seq<CallDesc>, k: nat)
    requires Sizes(w, a) && Sizes(w, b) && Sizes(w, c) && k < |ds|
    requires forall i :: 0 <= i < w.isa.n ==> DropsIn(w, a, b, i, ds)
    requires forall i :: 0 <= i < w.isa.n ==>
             DropsOnly(w, b, c, i, ds[k].call.dst, ds[k].call.nGroups * ds[k].call.nOut)
    ensures forall i :: 0 <= i < w.isa.n ==> DropsIn(w, a, c, i, ds)
  {
    forall i | 0 <= i < w.isa.n ensures DropsIn(w, a, c, i, ds) {
      assert DropsIn(w, a, b, i, ds);
      assert DropsOnly(w, b, c, i, ds[k].call.dst, ds[k].call.nGroups * ds[k].call.nOut);
      if c.held[i] != b.held[i] || c.dirty[i] != b.dirty[i] { OutputsInBlock(ds[k].call, b.held[i].value.s); }
    }
  }

  /** An operand not held stays so while registers are only forgotten. */
  lemma NotAtKept<V>(w: World<V>, a: Snap<V>, b: Snap<V>, dst: nat, n: nat)
    requires Sizes(w, a) && Sizes(w, b) && Inverse(w, a) && Inverse(w, b)
    requires forall i :: 0 <= i < w.isa.n ==> DropsOnly(w, a, b, i, dst, n)
    ensures forall o :: o in b.at ==> o in a.at
  {
    forall o | o in b.at ensures o in a.at {
      assert DropsOnly(w, a, b, b.at[o], dst, n);
    }
  }

  /** Slot `x` after the host call: the interpreter's `e` where the stage's calls write. */
  ghost predicate StageWrote<V>(w: World<V>, all: seq<CallDesc>, e: seq<V>, a: Snap<V>, b: Snap<V>, x: nat)
    requires Sizes(w, a) && Sizes(w, b) && |e| == w.lay.slots && x < w.lay.slots
  {
    b.m.work[x] == if InBlocks(all, x) then e[x] else a.m.work[x]
  }

  /** The stage's blocks against the interpreter before it (`base`), before its last call
      (snapshot `a`) and after it (`e`). */
  ghost predicate StageEnds<V>(P: Program, w: World<V>, pos: nat, wait: seq<CallDesc>, all: seq<CallDesc>, base: seq<V>,
                               a: Snap<V>, e: seq<V>)
  {
    && Sizes(w, a) && |base| == w.lay.slots && 0 < |all| && all[..|all| - 1] == wait && Placed(P, pos, all)
    && DescsOk(w.lay, |w.inputs|, all) && DescsOk(w.lay, |w.inputs|, wait) && Apart(all)
    && a.env == CallsEval(w.A, w.lay, base, w.inputs, wait)
    && e == CallsEval(w.A, w.lay, base, w.inputs, all)
    && (forall x: nat :: x in a.pend <==> InBlocks(wait, x))
  }

  /** What the host call, and forgetting what it wrote, leave of snapshot `a`. */
  ghost predicate StageRan<V>(w: World<V>, all: seq<CallDesc>, e: seq<V>, a: Snap<V>, b: Snap<V>)
  {
    && Sizes(w, a) && Sizes(w, b) && |e| == w.lay.slots && Inverse(w, b)
    && (forall i :: 0 <= i < w.isa.n && b.held[i].Some? ==> b.m.regs[i] == a.m.regs[i])
    && (forall i :: 0 <= i < w.isa.n ==> DropsIn(w, a, b, i, all))
    && (forall j, x :: 0 <= j < |all| && InOutputs(all[j].call, x) ==> Slot(x) !in b.at)
    && (forall x :: 0 <= x < w.lay.slots ==> StageWrote(w, all, e, a, b, x))
    && b.death == a.death && b.kept == a.kept
  }

  lemma StageRegOk<V>(P: Program, w: World<V>, a: Snap<V>, b: Snap<V>, lp: nat, all: seq<CallDesc>, W: iset<nat>,
                      i: nat)
    requires Sizes(w, a) && Sizes(w, b) && Inv(P, w, a, lp) && i < w.isa.n && W == iset x: nat | InBlocks(all, x)
    requires DropsIn(w, a, b, i, all) && (b.held[i].Some? ==> b.m.regs[i] == a.m.regs[i])
    ensures if b.held[i].None? then !b.dirty[i] && (a.held[i].Some? ==> a.held[i].value.Slot? && a.held[i].value.s in W)
            else b.held[i] == a.held[i] && b.dirty[i] == a.dirty[i] && b.m.regs[i] == a.m.regs[i]
  {
    hide Inverse, InBlocks, SlotReg;
    RegOf(P, w, a, lp, i);
  }

  lemma StageSlotOk<V>(P: Program, w: World<V>, pos: nat, wait: seq<CallDesc>, all: seq<CallDesc>, base: seq<V>,
                       a: Snap<V>, e: seq<V>, x: nat)
    requires StageEnds(P, w, pos, wait, all, base, a, e) && x < w.lay.slots && !InBlocks(all, x)
    ensures e[x] == a.env[x]
  {
    hide CallsEval, InBlocks;
    CallsEvalElse(w, base, all, x);
    assert all == wait + [all[|all| - 1]];
    BlocksJoin(wait, all[|all| - 1], x);
    CallsEvalElse(w, base, wait, x);
  }

  lemma StageHostWrote<V>(P: Program, w: World<V>, pos: nat, wait: seq<CallDesc>, all: seq<CallDesc>, base: seq<V>,
                          a: Snap<V>, e: seq<V>, b: Snap<V>, W: iset<nat>)
    requires StageEnds(P, w, pos, wait, all, base, a, e) && StageRan(w, all, e, a, b) && Inv(P, w, a, pos)
    requires W == iset x: nat | InBlocks(all, x)
    ensures HostWrote(w, a, b.(env := e, pend := {}), W)
  {
    hide Inv, InBlocks, Placed, CallsEval, DescsOk, Apart, DropsIn, InOutputs, Inverse;
    var c := b.(env := e, pend := {});
    InverseSame(w, b, c);
    forall x | 0 <= x < w.lay.slots
      ensures if x in W then c.m.work[x] == e[x] else c.m.work[x] == a.m.work[x] && e[x] == a.env[x]
    {
      assert StageWrote(w, all, e, a, b, x);
      if x !in W { StageSlotOk(P, w, pos, wait, all, base, a, e, x); }
    }
    forall i | 0 <= i < w.isa.n
      ensures if c.held[i].None? then !c.dirty[i]
              && (a.held[i].Some? ==> a.held[i].value.Slot? && a.held[i].value.s in W)
              else c.held[i] == a.held[i] && c.dirty[i] == a.dirty[i] && c.m.regs[i] == a.m.regs[i]
    {
      StageRegOk(P, w, a, b, pos, all, W, i);
    }
  }

  /** After the stage's host call, and what it wrote forgotten, the op is done. */
  lemma StageDone<V>(P: Program, w: World<V>, pos: nat, wait: seq<CallDesc>, all: seq<CallDesc>, base: seq<V>,
                     a: Snap<V>, e: seq<V>, b: Snap<V>)
    requires StageEnds(P, w, pos, wait, all, base, a, e) && StageRan(w, all, e, a, b) && Inv(P, w, a, pos)
             && StatesOk(P)
    ensures Inv(P, w, b.(env := e, pend := {}), pos + 1)
  {
    hide Inv, StatesOk, CallsEval, InOutputs, RegInv, MemInv, Live, InBlocks, Placed, Apart, DescsOk, WriteAt,
         HostWrote, DropsIn,
         StageWrote, InOutputs;
    var W := iset x: nat | InBlocks(all, x);
    var c := b.(env := e, pend := {});
    StageWrites(P, pos, wait, all, a.pend);
    StageHostWrote(P, w, pos, wait, all, base, a, e, b, W);
    forall i | 0 <= i < w.isa.n && c.held[i].Some? && c.held[i].value.Slot? && c.held[i].value.s in W
      ensures !Live(P, c.held[i].value.s, pos + 1)
    {
      RowsOnly(P, pos, all, b.at.Keys, c.held[i].value.s);
    }
    WroteKeeps(P, w, a, c, pos, W);
  }

  /** The calls `wait` are the ops right before op `pos`. */
  ghost predicate CallsBefore(P: Program, pos: nat, wait: seq<CallDesc>) {
    && |wait| <= pos <= |P.ops|
    && forall k :: 0 <= k < |wait| ==> P.ops[pos - |wait| + k] == OCall(wait[k].call)
  }

  lemma {:induction false} EndsOf<V>(P: Program, w: World<V>, pos: nat, c: CallSite, wait: seq<CallDesc>,
                                     all: seq<CallDesc>, base: seq<V>, a: Snap<V>)
    requires Sizes(w, a) && |base| == w.lay.slots && pos < |P.ops| && P.ops[pos] == OCall(c)
             && CallsBefore(P, pos, wait)
    requires 0 < |all| && all[..|all| - 1] == wait && all[|all| - 1].call == c
    requires DescsOk(w.lay, |w.inputs|, all) && DescsOk(w.lay, |w.inputs|, wait) && Apart(all)
    requires AllOk(c.args, |a.env|, |w.inputs|) && c.state + StateWidth(c) <= w.lay.slots
    requires a.env == CallsEval(w.A, w.lay, base, w.inputs, wait)
    requires CallsEval(w.A, w.lay, base, w.inputs, all) == CallEval(w.A, a.env, w.inputs, c)
    requires forall x: nat :: x in a.pend <==> InBlocks(wait, x)
    ensures StageEnds(P, w, pos, wait, all, base, a, CallEval(w.A, a.env, w.inputs, c))
  {
    hide CallEval, CallsEval, Apart, DescsOk, InBlocks, AllOk;
    PlacedOf(P, pos, c, wait, all);
    hide Placed, CallsBefore;
  }

  lemma PlacedOf(P: Program, pos: nat, c: CallSite, wait: seq<CallDesc>, all: seq<CallDesc>)
    requires pos < |P.ops| && P.ops[pos] == OCall(c) && CallsBefore(P, pos, wait)
    requires 0 < |all| && all[..|all| - 1] == wait && all[|all| - 1].call == c
    ensures Placed(P, pos, all)
  {
    forall k | 0 <= k < |all| ensures P.ops[pos + 1 - |all| + k] == OCall(all[k].call) {
      if k < |wait| {
        assert all[k] == wait[k];
        assert P.ops[pos - |wait| + k] == OCall(wait[k].call);
      }
    }
  }

  /** Forgetting registers after the host call. */
  lemma RanAfter<V>(w: World<V>, all: seq<CallDesc>, e: seq<V>, a: Snap<V>, b: Snap<V>, c: Snap<V>)
    requires Sizes(w, a) && Sizes(w, b) && Sizes(w, c) && |e| == w.lay.slots && Inverse(w, c)
    requires b == a.(m := b.m) && c == b.(held := c.held, dirty := c.dirty, at := c.at)
    requires forall x :: 0 <= x < w.lay.slots ==> StageWrote(w, all, e, a, b, x)
    requires forall i :: 0 <= i < w.isa.n && a.held[i].Some? ==> b.m.regs[i] == a.m.regs[i]
    requires forall i :: 0 <= i < w.isa.n ==> DropsIn(w, b, c, i, all)
    requires forall j, x :: 0 <= j < |all| && InOutputs(all[j].call, x) ==> Slot(x) !in c.at
    ensures StageRan(w, all, e, a, c)
  {
    hide InBlocks, InOutputs, Inverse;
    forall x | 0 <= x < w.lay.slots ensures StageWrote(w, all, e, a, c, x) { assert StageWrote(w, all, e, a, b, x); }
    forall i | 0 <= i < w.isa.n ensures DropsIn(w, a, c, i, all) { assert DropsIn(w, b, c, i, all); }
    forall i | 0 <= i < w.isa.n && c.held[i].Some? ensures c.m.regs[i] == a.m.regs[i] {
      assert DropsIn(w, b, c, i, all);
    }
  }

  // --- kernels -----------------------------------------------------------------------------

  /** What a kernel's host call, and forgetting its block, leave of snapshot `a`. */
  ghost predicate KernelRan<V>(w: World<V>, dst: nat, n: nat, e: seq<V>, a: Snap<V>, b: Snap<V>) {
    && Sizes(w, a) && Sizes(w, b) && |e| == w.lay.slots && Inverse(w, b) && b.death == a.death && b.kept == a.kept
    && (forall i :: 0 <= i < w.isa.n && b.held[i].Some? ==> b.m.regs[i] == a.m.regs[i])
    && (forall i :: 0 <= i < w.isa.n ==> DropsOnly(w, a, b, i, dst, n))
    && (forall x :: dst <= x < dst + n ==> Slot(x) !in b.at)
    && (forall x :: 0 <= x < w.lay.slots ==> b.m.work[x] == if dst <= x < dst + n then e[x] else a.m.work[x])
  }

  lemma KernelReg<V>(P: Program, w: World<V>, a: Snap<V>, b: Snap<V>, lp: nat, dst: nat, n: nat, i: nat)
    requires Sizes(w, a) && Sizes(w, b) && Inv(P, w, a, lp) && i < w.isa.n
    requires DropsOnly(w, a, b, i, dst, n) && (b.held[i].Some? ==> b.m.regs[i] == a.m.regs[i])
    ensures if b.held[i].None? then !b.dirty[i]
            && (a.held[i].Some? ==> a.held[i].value.Slot? && dst <= a.held[i].value.s < dst + n)
            else b.held[i] == a.held[i] && b.dirty[i] == a.dirty[i] && b.m.regs[i] == a.m.regs[i]
  {
    hide Inverse, SlotReg;
    RegOf(P, w, a, lp, i);
  }

  /** A host call that wrote the op's block to memory, the op is done. */
  lemma KernelDone<V>(P: Program, w: World<V>, pos: nat, dst: nat, n: nat, e: seq<V>, a: Snap<V>, b: Snap<V>)
    requires KernelRan(w, dst, n, e, a, b) && Inv(P, w, a, pos) && a.pend == {}
    requires pos < |P.ops| && Dst(P.ops[pos]) == dst && Width(P.ops[pos]) == n
    requires forall x :: 0 <= x < w.lay.slots && !(dst <= x < dst + n) ==> e[x] == a.env[x]
    ensures Inv(P, w, b.(env := e, pend := {}), pos + 1)
  {
    hide Inv, RegInv, MemInv, Live, DropsOnly;
    var W := iset x: nat | WriteAt(P, x, pos);
    var c := b.(env := e, pend := {});
    assert HostWrote(w, a, c, W) by {
      InverseSame(w, b, c);
      forall i | 0 <= i < w.isa.n
        ensures if c.held[i].None? then !c.dirty[i]
                && (a.held[i].Some? ==> a.held[i].value.Slot? && a.held[i].value.s in W)
                else c.held[i] == a.held[i] && c.dirty[i] == a.dirty[i] && c.m.regs[i] == a.m.regs[i]
      {
        KernelReg(P, w, a, b, pos, dst, n, i);
      }
    }
    forall i | 0 <= i < w.isa.n && c.held[i].Some? && c.held[i].value.Slot? ensures c.held[i].value.s !in W {
      assert c.held[i].value in c.at;
    }
    forall x: nat ensures x in W <==> x in a.pend || WriteAt(P, x, pos) {}
    WroteKeeps(P, w, a, c, pos, W);
  }

  /** Where a kernel's operand is holds its values, and nothing but slots in memory or the
      gather area before `top` is part of it. */
  ghost predicate DenseAt<V>(w: World<V>, s: Snap<V>, p: PlaceAt, vals: seq<V>, top: nat)
    requires Sizes(w, s)
  {
    && PlaceOk(w.lay, |w.inputs|, p) && PlaceVals(w, s.m.work, p) == vals
    && (p.InWork? ==>
          || (p.off + p.len <= w.lay.slots && forall x :: p.off <= x < p.off + p.len ==> s.m.work[x] == s.env[x])
          || (w.lay.slots <= p.off && p.off + p.len <= w.lay.slots + top))
  }

  /** An operand in place stays so while memory only gains values and the gather area is
      written past it. */
  lemma DenseKept<V>(w: World<V>, a: Snap<V>, b: Snap<V>, p: PlaceAt, vals: seq<V>, top: nat, next: nat)
    requires Sizes(w, a) && Sizes(w, b) && b.env == a.env && top <= next <= w.lay.gatherLen
             && DenseAt(w, a, p, vals, top)
    requires forall x :: 0 <= x < w.lay.slots && a.m.work[x] == a.env[x] ==> b.m.work[x] == b.env[x]
    requires forall k :: w.lay.slots <= k < w.lay.slots + top ==> b.m.work[k] == a.m.work[k]
    ensures DenseAt(w, b, p, vals, next)
  {
    if p.InWork? {
      forall x | p.off <= x < p.off + p.len ensures b.m.work[x] == a.m.work[x] {}
      assert b.m.work[p.off..p.off + p.len] == a.m.work[p.off..p.off + p.len];
    }
  }

  lemma {:induction false} KernelOkAt<V>(w: World<V>, env: seq<V>, ds: seq<(Dense, nat)>, i: nat)
    requires |env| == w.lay.slots && KernelOk(ds, w.lay.slots, |w.inputs|) && i < |ds|
    ensures DenseOk(ds[i].0, ds[i].1, w.lay.slots, |w.inputs|) && AllOk(DenseSlots(ds[i].0), w.lay.slots, |w.inputs|)
    ensures forall o :: o in DenseSlots(ds[i].0) ==> o in KernelSlots(ds)
    ensures KernelVals(env, w.inputs, ds)[i] == DenseVals(env, w.inputs, ds[i].0, ds[i].1)
    ensures GatheredSum(ds[i..]) == GatheredLen(ds[i].0) + GatheredSum(ds[i..][1..])
  {
    forall o | o in DenseSlots(ds[i].0) ensures o in KernelSlots(ds) { KernelSlotsAt(ds, i, o); }
  }

  lemma DensesKept<V>(w: World<V>, a: Snap<V>, b: Snap<V>, ds: seq<(Dense, nat)>, ps: seq<PlaceAt>, top: nat, next: nat)
    requires Sizes(w, a) && Sizes(w, b) && b.env == a.env && |ps| <= |ds| && top <= next <= w.lay.gatherLen
    requires KernelOk(ds, w.lay.slots, |w.inputs|)
    requires forall j :: 0 <= j < |ps| ==> DenseAt(w, a, ps[j], KernelVals(a.env, w.inputs, ds)[j], top)
    requires forall x :: 0 <= x < w.lay.slots && a.m.work[x] == a.env[x] ==> b.m.work[x] == b.env[x]
    requires forall k :: w.lay.slots <= k < w.lay.slots + top ==> b.m.work[k] == a.m.work[k]
    ensures forall j :: 0 <= j < |ps| ==> DenseAt(w, b, ps[j], KernelVals(b.env, w.inputs, ds)[j], next)
  {
    hide KernelVals, KernelOk, DenseAt;
    forall j | 0 <= j < |ps| ensures DenseAt(w, b, ps[j], KernelVals(b.env, w.inputs, ds)[j], next) {
      DenseKept(w, a, b, ps[j], KernelVals(a.env, w.inputs, ds)[j], top, next);
    }
  }

  lemma DenseTop<V>(w: World<V>, s: Snap<V>, ds: seq<(Dense, nat)>, ps: seq<PlaceAt>, top: nat)
    requires Sizes(w, s) && |ps| == |ds| && top <= w.lay.gatherLen && KernelOk(ds, w.lay.slots, |w.inputs|)
    requires forall j :: 0 <= j < |ps| ==> DenseAt(w, s, ps[j], KernelVals(s.env, w.inputs, ds)[j], top)
    ensures forall j :: 0 <= j < |ps| ==> DenseAt(w, s, ps[j], KernelVals(s.env, w.inputs, ds)[j], w.lay.gatherLen)
  {
    hide KernelVals, KernelOk, DenseAt;
    forall j | 0 <= j < |ps| ensures DenseAt(w, s, ps[j], KernelVals(s.env, w.inputs, ds)[j], w.lay.gatherLen) {
      DenseKept(w, s, s, ps[j], KernelVals(s.env, w.inputs, ds)[j], top, w.lay.gatherLen);
    }
  }

  /** A kernel's host call leaves its block the interpreter's, and every other slot. */
  lemma KernelStep<V>(w: World<V>, a: Snap<V>, b: Snap<V>, k: KernelSite, ps: seq<PlaceAt>, e: seq<V>)
    requires Sizes(w, a) && Sizes(w, b) && KernelOk(k.operands, w.lay.slots, |w.inputs|)
    requires e == KernelEval(w.A, a.env, w.inputs, k) && |ps| == |k.operands|
    requires forall j :: 0 <= j < |ps| ==>
             DenseAt(w, a, ps[j], KernelVals(a.env, w.inputs, k.operands)[j], w.lay.gatherLen)
    requires var i := HostKernel(KernelRoutine(k), ps, k.dst, KernelWidth(k.kind));
             InstrOk(w.isa, w.lay, |w.inputs|, i) && b == a.(m := Step(w, i, a.m))
    ensures forall i :: 0 <= i < w.isa.saved && i < w.isa.n ==> b.m.regs[i] == a.m.regs[i]
    ensures forall x :: 0 <= x < w.lay.slots ==>
              b.m.work[x] == if k.dst <= x < k.dst + KernelWidth(k.kind) then e[x] else a.m.work[x]
  {
    hide KernelVals, KernelOk;
    var vals := seq(|ps|, j requires 0 <= j < |ps| => PlaceVals(w, a.m.work, ps[j]));
    assert vals == KernelVals(a.env, w.inputs, k.operands) by {
      forall j | 0 <= j < |ps| ensures vals[j] == KernelVals(a.env, w.inputs, k.operands)[j] {
        assert DenseAt(w, a, ps[j], KernelVals(a.env, w.inputs, k.operands)[j], w.lay.gatherLen);
      }
    }
    var i := HostKernel(KernelRoutine(k), ps, k.dst, KernelWidth(k.kind));
    forall x | 0 <= x < w.lay.slots
      ensures b.m.work[x] == if k.dst <= x < k.dst + KernelWidth(k.kind) then e[x] else a.m.work[x]
    {
      ScratchedAt(w, a.m, x);
      HostKernelWork(w, KernelRoutine(k), ps, k.dst, KernelWidth(k.kind), a.m, vals, x);
    }
  }

  lemma KernelAfter<V>(w: World<V>, dst: nat, n: nat, e: seq<V>, a: Snap<V>, b: Snap<V>, c: Snap<V>)
    requires Sizes(w, a) && Sizes(w, b) && Sizes(w, c) && |e| == w.lay.slots && Inverse(w, c)
    requires b == a.(m := b.m) && c == b.(held := c.held, dirty := c.dirty, at := c.at)
    requires forall i :: 0 <= i < w.isa.n ==> DropsOnly(w, b, c, i, dst, n)
    requires forall x :: dst <= x < dst + n ==> Slot(x) !in c.at
    requires forall i :: w.isa.saved <= i < w.isa.n ==> a.held[i].None?
    requires forall i :: 0 <= i < w.isa.saved && i < w.isa.n ==> b.m.regs[i] == a.m.regs[i]
    requires forall x :: 0 <= x < w.lay.slots ==> b.m.work[x] == if dst <= x < dst + n then e[x] else a.m.work[x]
    ensures KernelRan(w, dst, n, e, a, c)
  {
    hide Inverse;
    forall i | 0 <= i < w.isa.n ensures DropsOnly(w, a, c, i, dst, n)
        && (c.held[i].Some? ==> c.m.regs[i] == a.m.regs[i]) {
      assert DropsOnly(w, b, c, i, dst, n);
    }
  }

  lemma KernelReadyAfter<V>(w: World<V>, a: Snap<V>, b: Snap<V>, k: KernelSite, ps: seq<PlaceAt>)
    requires Sizes(w, a) && Sizes(w, b) && b.env == a.env && KeepsMem(w, a, b)
             && KernelOk(k.operands, w.lay.slots, |w.inputs|)
    requires |ps| == |k.operands|
    requires forall j :: 0 <= j < |ps| ==>
             DenseAt(w, a, ps[j], KernelVals(a.env, w.inputs, k.operands)[j], w.lay.gatherLen)
    ensures forall j :: 0 <= j < |ps| ==>
            DenseAt(w, b, ps[j], KernelVals(b.env, w.inputs, k.operands)[j], w.lay.gatherLen)
  {
    hide KernelVals, KernelOk, DenseAt;
    DensesKept(w, a, b, k.operands, ps, w.lay.gatherLen, w.lay.gatherLen);
  }

  lemma KernelEvalElse<V>(w: World<V>, a: Snap<V>, k: KernelSite, e: seq<V>)
    requires Sizes(w, a) && KernelOk(k.operands, w.lay.slots, |w.inputs|) && e == KernelEval(w.A, a.env, w.inputs, k)
    ensures forall x :: 0 <= x < w.lay.slots && !(k.dst <= x < k.dst + KernelWidth(k.kind)) ==> e[x] == a.env[x]
  {
    hide KernelVals, KernelOk;
  }

  // --- programs --------------------------------------------------------------------------------

  /** What the tape promises of a program: ops that exist, stages and states as they must
      be, positions a liveness table can name. */
  ghost predicate ProgramOk(P: Program, lay: Layout, inputs: nat) {
    && |P.ops| < END && StagesOk(P.ops) && StatesOk(P)
    && forall k :: 0 <= k < |P.ops| ==> OpOk(P.ops[k], lay, inputs)
  }

  /** Memory has every value an op from `q` on, or an output, still reads. */
  ghost predicate Agrees<V>(P: Program, lay: Layout, work: seq<V>, env: seq<V>, q: nat)
    requires |work| == lay.Total() && |env| == lay.slots
  {
    forall x :: 0 <= x < lay.slots && (Live(P, x, q) || HostLive(P, x, q)) ==> work[x] == env[x]
  }

  /** Slots no op from `q` on writes are as they were. */
  ghost predicate Untouched<V>(P: Program, lay: Layout, before: seq<V>, after: seq<V>, q: nat)
    requires |before| == |after| == lay.Total()
  {
    forall x :: 0 <= x < lay.slots && Unwritten(P, x, q) ==> after[x] == before[x]
  }
}
