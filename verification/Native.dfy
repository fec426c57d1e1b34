/** A program in native code: its stream cut into chunks, each emitted on its own with
    an empty cache, run one after the other over one work array. */
module Native {
  import opened Scalars
  import opened OpStream
  import opened LivenessTables
  import opened Machines
  import opened CacheInvariant
  import opened Stages
  import opened Terms
  import opened Emission

  // --- chunks ------------------------------------------------------------------------------------

  function Flatten(jobs: seq<seq<ROp>>): seq<ROp> {
    if jobs == [] then [] else Flatten(jobs[..|jobs| - 1]) + jobs[|jobs| - 1]
  }

  /** Where chunk `i` starts. */
  function Offset(jobs: seq<seq<ROp>>, i: nat): nat
    requires i <= |jobs|
  {
    if i == 0 then 0 else Offset(jobs, i - 1) + |jobs[i - 1]|
  }

  lemma {:induction false} OffsetPrefix(a: seq<seq<ROp>>, b: seq<seq<ROp>>, i: nat)
    requires i <= |a|
    ensures Offset(a + b, i) == Offset(a, i)
  {
    if i > 0 { OffsetPrefix(a, b, i - 1); }
  }

  lemma {:induction false} OffsetFlatten(jobs: seq<seq<ROp>>)
    ensures Offset(jobs, |jobs|) == |Flatten(jobs)|
  {
    if jobs != [] {
      var rest := jobs[..|jobs| - 1];
      OffsetFlatten(rest);
      assert jobs == rest + [jobs[|rest|]];
      OffsetPrefix(rest, [jobs[|rest|]], |rest|);
    }
  }

  lemma {:induction false} FlattenAppend(a: seq<seq<ROp>>, b: seq<seq<ROp>>)
    ensures Flatten(a + b) == Flatten(a) + Flatten(b)
    decreases |b|
  {
    if b == [] {
      assert a + b == a;
    } else {
      var rest := b[..|b| - 1];
      assert (a + b)[..|a + b| - 1] == a + rest;
      FlattenAppend(a, rest);
      assert Flatten(a) + Flatten(rest) + b[|rest|] == Flatten(a) + (Flatten(rest) + b[|rest|]);
    }
  }

  lemma {:induction false} OffsetAppend(a: seq<seq<ROp>>, b: seq<seq<ROp>>, i: nat)
    requires i <= |b|
    ensures Offset(a + b, |a| + i) == |Flatten(a)| + Offset(b, i)
  {
    if i == 0 {
      OffsetPrefix(a, b, |a|);
      OffsetFlatten(a);
    } else {
      OffsetAppend(a, b, i - 1);
    }
  }

  /** Chunk `i` is the stretch of the stream from its offset. */
  lemma {:induction false} ChunkIs(jobs: seq<seq<ROp>>, i: nat)
    requires i < |jobs|
    ensures Offset(jobs, i) + |jobs[i]| <= |Flatten(jobs)|
    ensures Flatten(jobs)[Offset(jobs, i)..Offset(jobs, i) + |jobs[i]|] == jobs[i]
    decreases |jobs|
  {
    var last := |jobs| - 1;
    var rest := jobs[..last];
    assert jobs == rest + [jobs[last]];
    if i == last {
      OffsetPrefix(rest, [jobs[last]], last);
      OffsetFlatten(rest);
    } else {
      OffsetPrefix(rest, [jobs[last]], i);
      ChunkIs(rest, i);
    }
  }

  /** A chunk starts at op `c`. */
  ghost predicate Boundary(jobs: seq<seq<ROp>>, c: nat) {
    exists i :: 0 <= i <= |jobs| && Offset(jobs, i) == c
  }

  predicate Ascends(cuts: seq<nat>) { forall i, j :: 0 <= i < j < |cuts| ==> cuts[i] <= cuts[j] }

  predicate EndsInside(job: seq<ROp>) { job != [] && IsDeferred(job[|job| - 1]) }

  /** The chunks are the stream in order, none empty, and none but the last ends on a
      deferred call, the last only where the stream does. */
  ghost predicate Partition(ops: seq<ROp>, jobs: seq<seq<ROp>>) {
    && Flatten(jobs) == ops
    && forall i :: 0 <= i < |jobs| ==> jobs[i] != [] && (EndsInside(jobs[i]) ==> i == |jobs| - 1 && EndsInside(ops))
  }

  lemma BoundaryMore(jobs: seq<seq<ROp>>, job: seq<ROp>, c: nat)
    requires Boundary(jobs, c)
    ensures Boundary(jobs + [job], c)
  {
    var i :| 0 <= i <= |jobs| && Offset(jobs, i) == c;
    OffsetPrefix(jobs, [job], i);
  }

  /** The stream in chunks of about `chunkOps`: a partition in order, a chunk ending before
      every cut and never on a deferred call, unless the stream or the cut does. */
  method Chunked(ops: seq<ROp>, chunkOps: nat, cuts: seq<nat>) returns (out: seq<seq<ROp>>)
    requires Ascends(cuts)
    ensures Partition(ops, out)
    ensures forall c :: c in cuts && 0 < c < |ops| && !IsDeferred(ops[c - 1]) ==> Boundary(out, c)
  {
    out := [];
    var start, cut := 0, 0;
    for k := 0 to |ops|
      invariant 0 <= start <= k && 0 <= cut <= |cuts| && Flatten(out) == ops[..start]
      invariant forall i :: 0 <= i < |out| ==> out[i] != [] && !EndsInside(out[i])
      invariant forall i :: 0 <= i < cut ==> cuts[i] <= k
      invariant forall c :: c in cuts && 0 < c <= k && !IsDeferred(ops[c - 1]) ==> Boundary(out, c)
    {
      var inside := IsDeferred(ops[k]);
      while cut < |cuts| && cuts[cut] <= k
        invariant 0 <= cut <= |cuts| && forall i :: 0 <= i < cut ==> cuts[i] <= k
      {
        cut := cut + 1;
      }
      var beforeCut := cut < |cuts| && cuts[cut] == k + 1;
      if (k + 1 - start >= (if chunkOps > 1 then chunkOps else 1) || beforeCut) && !inside {
        var job := ops[start..k + 1];
        assert ops[..start] + job == ops[..k + 1];
        forall c | c in cuts && 0 < c <= k && !IsDeferred(ops[c - 1]) ensures Boundary(out + [job], c) {
          BoundaryMore(out, job, c);
        }
        OffsetPrefix(out, [job], |out|);
        OffsetFlatten(out);
        assert Offset(out + [job], |out| + 1) == k + 1;
        assert (out + [job])[..|out|] == out;
        out, start := out + [job], k + 1;
      }
    }
    if start < |ops| {
      var job := ops[start..];
      assert ops[..start] + job == ops;
      forall c | c in cuts && 0 < c < |ops| && !IsDeferred(ops[c - 1]) ensures Boundary(out + [job], c) {
        BoundaryMore(out, job, c);
      }
      assert (out + [job])[..|out|] == out;
      out := out + [job];
    } else {
      assert ops[..start] == ops;
    }
  }

  // --- the program ---------------------------------------------------------------------------------

  /** No deferred call comes right before a chunk's end. */
  lemma NoTrail(ops: seq<ROp>, jobs: seq<seq<ROp>>, i: nat)
    requires Flatten(jobs) == ops && i < |jobs| && jobs[i] != [] && !EndsInside(jobs[i])
    ensures Offset(jobs, i) + |jobs[i]| <= |ops| && Trail(ops, Offset(jobs, i) + |jobs[i]|) == 0
  {
    hide Flatten, Offset;
    ChunkIs(jobs, i);
    var end := Offset(jobs, i) + |jobs[i]|;
    assert ops[Offset(jobs, i)..end][|jobs[i]| - 1] == ops[end - 1];
  }

  /** The chunks' code, each correct on its own. */
  ghost predicate Compiled(P: Program, isa: Isa, lay: Layout, inputs: nat, jobs: seq<seq<ROp>>,
                           codes: seq<seq<Instr>>) {
    && |codes| == |jobs| && Flatten(jobs) == P.ops
    && forall i :: 0 <= i < |jobs| ==> ChunkOk(P, isa, lay, inputs, codes[i], jobs[i], Offset(jobs, i))
  }

  lemma CompiledAt(P: Program, isa: Isa, lay: Layout, inputs: nat, jobs: seq<seq<ROp>>, codes: seq<seq<Instr>>, k: nat)
    requires Compiled(P, isa, lay, inputs, jobs, codes) && k < |jobs|
    ensures k < |codes| && ChunkOk(P, isa, lay, inputs, codes[k], jobs[k], Offset(jobs, k))
    ensures Offset(jobs, k + 1) == Offset(jobs, k) + |jobs[k]|
    ensures CodeOk(isa, lay, inputs, codes[k]) && forall i :: 0 <= i < |jobs[k]| ==> OpOk(jobs[k][i], lay, inputs)
  {
    hide OpOk, InstrOk, Run, Interp;
  }

  /** The two phases cut and emitted apart against one set of tables: every chunk comes out
      `ChunkOk`, and the boundary between phases is a chunk boundary. */
  method Compile(isa: Isa, lay: Layout, P: Program, split: nat, chunkOps: nat, proCuts: seq<nat>, mainCuts: seq<nat>,
                 ghost inputs: nat)
    returns (jobs: seq<seq<ROp>>, codes: seq<seq<Instr>>, prolog: nat)
    requires isa.Ok() && isa.n >= PIN_ROOM && ProgramOk(P, lay, inputs) && SlotsBelow(P, lay.slots)
    requires split <= |P.ops| && Trail(P.ops, split) == 0 && Trail(P.ops, |P.ops|) == 0
    requires Ascends(proCuts) && Ascends(mainCuts)
    ensures |codes| == |jobs| && prolog <= |jobs|
    ensures Offset(jobs, prolog) == split && Compiled(P, isa, lay, inputs, jobs, codes)
  {
    hide Live, HostLive, StagesOk, StatesOk, OpOk, Run, Interp, CodeOk, ChunkOk, Flatten, Trail, EndsInside, Boundary,
         Partition, Offset;
    var live := NewLiveness(P, lay.slots);
    var pro := Chunked(P.ops[..split], chunkOps, proCuts);
    var main := Chunked(P.ops[split..], chunkOps, mainCuts);
    jobs, prolog := pro + main, |pro|;
    JobsOk(P.ops, split, pro, main);
    codes := [];
    for i := 0 to |jobs|
      invariant |codes| == i
      invariant forall j :: 0 <= j < i ==> ChunkOk(P, isa, lay, inputs, codes[j], jobs[j], Offset(jobs, j))
    {
      JobReady(P.ops, jobs, i);
      var code := EmitJob(isa, lay, live, jobs[i], Offset(jobs, i), P, inputs);
      codes := codes + [code];
    }
  }

  /** The chunks of the two phases are the stream's, none ending on a deferred call. */
  lemma {:induction false} JobsOk(ops: seq<ROp>, split: nat, pro: seq<seq<ROp>>, main: seq<seq<ROp>>)
    requires split <= |ops| && Trail(ops, split) == 0 && Trail(ops, |ops|) == 0
    requires Partition(ops[..split], pro) && Partition(ops[split..], main)
    ensures Flatten(pro + main) == ops && Offset(pro + main, |pro|) == split
    ensures forall i :: 0 <= i < |pro + main| ==> (pro + main)[i] != [] && !EndsInside((pro + main)[i])
  {
    hide Flatten, Offset;
    FlattenAppend(pro, main);
    OffsetAppend(pro, main, 0);
    OffsetNone(main);
    assert ops[..split] + ops[split..] == ops;
    assert !EndsInside(ops[..split]) && !EndsInside(ops[split..]);
    hide EndsInside, Trail;
    forall i | 0 <= i < |pro + main| ensures (pro + main)[i] != [] && !EndsInside((pro + main)[i]) {
      if i < |pro| { assert (pro + main)[i] == pro[i]; } else { assert (pro + main)[i] == main[i - |pro|]; }
    }
  }

  lemma OffsetNone(jobs: seq<seq<ROp>>)
    ensures Offset(jobs, 0) == 0
  {
  }

  lemma JobReady(ops: seq<ROp>, jobs: seq<seq<ROp>>, i: nat)
    requires Flatten(jobs) == ops && i < |jobs|
    requires forall j :: 0 <= j < |jobs| ==> jobs[j] != [] && !EndsInside(jobs[j])
    ensures Offset(jobs, i) + |jobs[i]| <= |ops| && jobs[i] == ops[Offset(jobs, i)..Offset(jobs, i) + |jobs[i]|]
    ensures Trail(ops, Offset(jobs, i)) == 0 && Trail(ops, Offset(jobs, i) + |jobs[i]|) == 0
  {
    ChunkIs(jobs, i);
    NoTrail(ops, jobs, i);
    if i > 0 { NoTrail(ops, jobs, i - 1); }
  }

  /** One chunk emitted, correct over terms. */
  method EmitJob(isa: Isa, lay: Layout, live: Liveness, job: seq<ROp>, start: nat, ghost P: Program, ghost inputs: nat)
    returns (code: seq<Instr>)
    requires isa.Ok() && isa.n >= PIN_ROOM && ProgramOk(P, lay, inputs) && live.Exact(P, lay.slots)
    requires start + |job| <= |P.ops| && job == P.ops[start..start + |job|]
    requires Trail(P.ops, start) == 0 && Trail(P.ops, start + |job|) == 0
    ensures ChunkOk(P, isa, lay, inputs, code, job, start)
  {
    hide Live, HostLive, StagesOk, StatesOk, OpOk, Run, Interp, CodeOk;
    ghost var w, m, env := TermWorld(isa, lay, inputs), TermMach(isa, lay), TermSlots(P, lay, start);
    assert Agrees(P, lay, m.work, env, start);
    var descs;
    code, descs := EmitChunk(isa, lay, live, job, start, P, w, m, env);
  }

  // --- running it ------------------------------------------------------------------------------------

  /** The chunks from `lo` up to `hi`, one after the other: a chunk starts with any registers. */
  ghost function RunChunks<V>(w: World<V>, codes: seq<seq<Instr>>, lo: nat, hi: nat, regs: nat -> seq<V>,
                              m: Mach<V>): (r: Mach<V>)
    requires Shaped(w, m) && lo <= hi <= |codes| && (forall i: nat :: |regs(i)| == w.isa.n + 1)
    requires forall i :: 0 <= i < |codes| ==> CodeOk(w.isa, w.lay, |w.inputs|, codes[i])
    ensures Shaped(w, r)
  {
    if lo == hi then m
    else
      var before := RunChunks(w, codes, lo, hi - 1, regs, m);
      Run(w, codes[hi - 1], before.(regs := regs(hi - 1)))
  }

  lemma {:induction false} InterpAppend<V>(A: Alg<V>, lay: Layout, env: seq<V>, inputs: seq<V>, a: seq<ROp>,
                                           b: seq<ROp>, n: nat)
    requires |env| == lay.slots && n <= |b|
    requires forall i :: 0 <= i < |a| ==> OpOk(a[i], lay, |inputs|)
    requires forall i :: 0 <= i < |b| ==> OpOk(b[i], lay, |inputs|)
    ensures forall i :: 0 <= i < |a + b| ==> OpOk((a + b)[i], lay, |inputs|)
    ensures Interp(A, true, lay, env, inputs, a + b, |a| + n) ==
            Interp(A, true, lay, Interp(A, true, lay, env, inputs, a, |a|), inputs, b, n)
  {
    hide OpOk, OpEval;
    if n == 0 {
      InterpPrefix(A, lay, env, inputs, a, b, |a|);
    } else {
      InterpAppend(A, lay, env, inputs, a, b, n - 1);
      assert (a + b)[|a| + n - 1] == b[n - 1];
    }
  }

  lemma {:induction false} InterpPrefix<V>(A: Alg<V>, lay: Layout, env: seq<V>, inputs: seq<V>, a: seq<ROp>,
                                           b: seq<ROp>, n: nat)
    requires |env| == lay.slots && n <= |a|
    requires forall i :: 0 <= i < |a| ==> OpOk(a[i], lay, |inputs|)
    requires forall i :: 0 <= i < |b| ==> OpOk(b[i], lay, |inputs|)
    ensures forall i :: 0 <= i < |a + b| ==> OpOk((a + b)[i], lay, |inputs|)
    ensures Interp(A, true, lay, env, inputs, a + b, n) == Interp(A, true, lay, env, inputs, a, n)
  {
    hide OpOk, OpEval;
    if n > 0 {
      InterpPrefix(A, lay, env, inputs, a, b, n - 1);
      assert (a + b)[n - 1] == a[n - 1];
    }
  }

  /** What the interpreter makes of the ops of the chunks from `lo` up to `hi`. */
  function Stretch(jobs: seq<seq<ROp>>, lo: nat, hi: nat): seq<ROp>
    requires lo <= hi <= |jobs|
  { Flatten(jobs[lo..hi]) }

  /** Any run of whole chunks: from a memory that agrees with the interpreter before it to
      one that agrees with the interpreter after it. */
  lemma {:induction false} ChunksRun<V>(P: Program, w: World<V>, jobs: seq<seq<ROp>>, codes: seq<seq<Instr>>, lo: nat,
                                        hi: nat,
                                        regs: nat -> seq<V>, m: Mach<V>, env: seq<V>)
    requires Compiled(P, w.isa, w.lay, |w.inputs|, jobs, codes) && lo <= hi <= |jobs|
    requires Shaped(w, m) && |env| == w.lay.slots && (forall i: nat :: |regs(i)| == w.isa.n + 1)
    requires Agrees(P, w.lay, m.work, env, Offset(jobs, lo))
    ensures forall i :: 0 <= i < |Stretch(jobs, lo, hi)| ==> OpOk(Stretch(jobs, lo, hi)[i], w.lay, |w.inputs|)
    ensures Agrees(P, w.lay, RunChunks(w, codes, lo, hi, regs, m).work,
                   Interp(w.A, true, w.lay, env, w.inputs, Stretch(jobs, lo, hi), |Stretch(jobs, lo, hi)|),
                       Offset(jobs, hi))
    ensures Untouched(P, w.lay, m.work, RunChunks(w, codes, lo, hi, regs, m).work, Offset(jobs, lo))
    decreases hi
  {
    hide Interp, Run, Unwritten, Live, HostLive, OpOk, Agrees, ChunkOk, Flatten, CodeOk, Offset, Compiled;
    CompiledCode(P, w.isa, w.lay, |w.inputs|, jobs, codes);
    if lo == hi {
      StretchNone(jobs, lo);
      InterpNone(w.A, w.lay, env, w.inputs, []);
    } else {
      var prev := hi - 1;
      ChunksRun(P, w, jobs, codes, lo, prev, regs, m, env);
      StretchNext(jobs, lo, prev);
      hide Stretch;
      UntouchedFrom(P, jobs, lo, prev);
      NextChunk(P, w, jobs, codes, prev, Stretch(jobs, lo, prev),
                RunChunks(w, codes, lo, prev, regs, m).(regs := regs(prev)), env);
    }
  }

  lemma UntouchedFrom(P: Program, jobs: seq<seq<ROp>>, lo: nat, hi: nat)
    requires lo <= hi <= |jobs|
    ensures forall x: nat :: Unwritten(P, x, Offset(jobs, lo)) ==> Unwritten(P, x, Offset(jobs, hi))
  {
    OffsetGrows(jobs, lo, hi);
  }

  lemma {:induction false} OffsetGrows(jobs: seq<seq<ROp>>, lo: nat, hi: nat)
    requires lo <= hi <= |jobs|
    ensures Offset(jobs, lo) <= Offset(jobs, hi)
    decreases hi
  {
    if lo < hi { OffsetGrows(jobs, lo, hi - 1); }
  }

  lemma CompiledCode(P: Program, isa: Isa, lay: Layout, inputs: nat, jobs: seq<seq<ROp>>, codes: seq<seq<Instr>>)
    requires Compiled(P, isa, lay, inputs, jobs, codes)
    ensures |codes| == |jobs| && forall i :: 0 <= i < |codes| ==> CodeOk(isa, lay, inputs, codes[i])
  {
    hide CodeOk, Agrees, OpOk;
    forall i | 0 <= i < |codes| ensures CodeOk(isa, lay, inputs, codes[i]) {
      assert ChunkOk(P, isa, lay, inputs, codes[i], jobs[i], Offset(jobs, i));
    }
  }

  lemma StretchNone(jobs: seq<seq<ROp>>, lo: nat)
    requires lo <= |jobs|
    ensures Stretch(jobs, lo, lo) == []
  {
  }

  lemma StretchNext(jobs: seq<seq<ROp>>, lo: nat, prev: nat)
    requires lo <= prev < |jobs|
    ensures Stretch(jobs, lo, prev + 1) == Stretch(jobs, lo, prev) + jobs[prev]
  {
    assert jobs[lo..prev + 1][..prev - lo] == jobs[lo..prev];
  }

  lemma NextChunk<V>(P: Program, w: World<V>, jobs: seq<seq<ROp>>, codes: seq<seq<Instr>>, k: nat, a: seq<ROp>,
                     m: Mach<V>, env: seq<V>)
    requires Compiled(P, w.isa, w.lay, |w.inputs|, jobs, codes) && k < |jobs| && Shaped(w, m) && |env| == w.lay.slots
    requires forall i :: 0 <= i < |a| ==> OpOk(a[i], w.lay, |w.inputs|)
    requires Agrees(P, w.lay, m.work, Interp(w.A, true, w.lay, env, w.inputs, a, |a|), Offset(jobs, k))
    ensures CodeOk(w.isa, w.lay, |w.inputs|, codes[k])
    ensures forall i :: 0 <= i < |a + jobs[k]| ==> OpOk((a + jobs[k])[i], w.lay, |w.inputs|)
    ensures Agrees(P, w.lay, Run(w, codes[k], m).work,
                   Interp(w.A, true, w.lay, env, w.inputs, a + jobs[k], |a + jobs[k]|), Offset(jobs, k + 1))
    ensures Untouched(P, w.lay, m.work, Run(w, codes[k], m).work, Offset(jobs, k))
  {
    hide Interp, Run, OpOk, Agrees, Untouched, CodeOk, ChunkOk;
    var b := jobs[k];
    CompiledAt(P, w.isa, w.lay, |w.inputs|, jobs, codes, k);
    hide Compiled, Offset;
    ChunkRuns(P, codes[k], b, Offset(jobs, k), w, m, Interp(w.A, true, w.lay, env, w.inputs, a, |a|));
    InterpAppend(w.A, w.lay, env, w.inputs, a, b, |b|);
  }

  /** Compiled code leaves every output as the interpreter does: over any scalar whose
      identities are idempotent, as the reference interpreter does to the bit. */
  lemma {:induction false} EvalRuns<V>(P: Program, w: World<V>, jobs: seq<seq<ROp>>, codes: seq<seq<Instr>>,
                                       regs: nat -> seq<V>, m: Mach<V>, s: nat)
    requires Compiled(P, w.isa, w.lay, |w.inputs|, jobs, codes) && Shaped(w, m) && ProgramOk(P, w.lay, |w.inputs|)
    requires forall i: nat :: |regs(i)| == w.isa.n + 1
    requires s in P.outputs && s < w.lay.slots && IdempotentIdentities(w.A)
    ensures RunChunks(w, codes, 0, |codes|, regs, m).work[s] ==
            Interp(w.A, false, w.lay, m.work[..w.lay.slots], w.inputs, P.ops, |P.ops|)[s]
  {
    hide Interp, Run, OpOk, StagesOk, StatesOk;
    var env := m.work[..w.lay.slots];
    ChunksRun(P, w, jobs, codes, 0, |jobs|, regs, m, env);
    assert jobs[0..|jobs|] == jobs;
    OffsetFlatten(jobs);
    OutputLive(P, s);
    InterpShort(w.A, w.lay, env, w.inputs, P.ops, |P.ops|);
  }

  lemma OutputLive(P: Program, s: nat)
    requires s in P.outputs && |P.ops| <= END
    ensures Live(P, s, |P.ops|)
  {
    assert LiveRead(P, s, |P.ops|, END);
  }

  /** With idempotent identities the emitted folds are the reference's. */
  lemma {:induction false} InterpShort<V>(A: Alg<V>, lay: Layout, env: seq<V>, inputs: seq<V>, ops: seq<ROp>, n: nat)
    requires |env| == lay.slots && n <= |ops| && IdempotentIdentities(A)
    requires forall i :: 0 <= i < |ops| ==> OpOk(ops[i], lay, |inputs|)
    ensures Interp(A, true, lay, env, inputs, ops, n) == Interp(A, false, lay, env, inputs, ops, n)
  {
    hide OpOk;
    if n > 0 {
      InterpShort(A, lay, env, inputs, ops, n - 1);
      OpShort(A, lay, Interp(A, true, lay, env, inputs, ops, n - 1), inputs, ops[n - 1]);
    }
  }

  lemma OpShort<V>(A: Alg<V>, lay: Layout, env: seq<V>, inputs: seq<V>, op: ROp)
    requires |env| == lay.slots && OpOk(op, lay, |inputs|) && IdempotentIdentities(A)
    ensures OpEval(A, true, lay, env, inputs, op) == OpEval(A, false, lay, env, inputs, op)
  {
    hide ShortFold, Fold;
    match op
    case OReduce(_, r, args) =>
      ShortFoldIsFold(A, FAdd, A.konst(ZERO_BITS), Vals(env, inputs, args));
      ShortFoldIsFold(A, FMul, A.konst(ONE_BITS), Vals(env, inputs, args));
    case ODot(_, xs, ys) =>
      assert forall o :: o in xs ==> o in Operands(op);
      assert forall o :: o in ys ==> o in Operands(op);
      ShortFoldIsFold(A, FAdd, A.konst(ZERO_BITS), Products(A, Vals(env, inputs, xs), Vals(env, inputs, ys)));
    case _ =>
  }

  /** Values crossing into the main phase are read-only in it. */
  ghost predicate CrossingKept(P: Program, split: nat) {
    forall x: nat :: Live(P, x, split) || HostLive(P, x, split) ==> Unwritten(P, x, split)
  }

  /** The main phase over a buffer the prolog prepared: the outputs are the interpreter's on
      the slots before it, and the buffer is prepared for another. */
  lemma MainRuns<V>(P: Program, w: World<V>, jobs: seq<seq<ROp>>, codes: seq<seq<Instr>>, prolog: nat,
                    regs: nat -> seq<V>,
                    m: Mach<V>, env: seq<V>)
    requires Compiled(P, w.isa, w.lay, |w.inputs|, jobs, codes) && prolog <= |jobs| && ProgramOk(P, w.lay, |w.inputs|)
    requires Shaped(w, m) && |env| == w.lay.slots && (forall i: nat :: |regs(i)| == w.isa.n + 1)
    requires CrossingKept(P, Offset(jobs, prolog)) && Agrees(P, w.lay, m.work, env, Offset(jobs, prolog))
    ensures var main := Stretch(jobs, prolog, |jobs|); var out := RunChunks(w, codes, prolog, |codes|, regs, m).work;
            && (forall i :: 0 <= i < |main| ==> OpOk(main[i], w.lay, |w.inputs|))
            && (forall s :: s in P.outputs && s < w.lay.slots ==>
                  out[s] == Interp(w.A, true, w.lay, env, w.inputs, main, |main|)[s])
            && Agrees(P, w.lay, out, env, Offset(jobs, prolog))
  {
    hide Interp, Run, OpOk, StagesOk, StatesOk, ChunkOk, Flatten, RunChunks, Offset, Live, HostLive;
    ChunksRun(P, w, jobs, codes, prolog, |jobs|, regs, m, env);
    OffsetFlatten(jobs);
    forall s | s in P.outputs ensures Live(P, s, |P.ops|) { OutputLive(P, s); }
  }

  /** Main phases over one prepared buffer, one for each of the input vectors. */
  ghost function RunMains<V>(w: World<V>, codes: seq<seq<Instr>>, prolog: nat, regs: nat -> seq<V>, m: Mach<V>,
                             ins: seq<seq<V>>): (r: Mach<V>)
    requires Shaped(w, m) && prolog <= |codes| && (forall i: nat :: |regs(i)| == w.isa.n + 1)
    requires forall i :: 0 <= i < |ins| ==> |ins[i]| == |w.inputs|
    requires forall i :: 0 <= i < |codes| ==> CodeOk(w.isa, w.lay, |w.inputs|, codes[i])
    ensures Shaped(w, r)
  {
    if ins == [] then m
    else
      var last := |ins| - 1;
      RunChunks(w.(inputs := ins[last]), codes, prolog, |codes|, regs, RunMains(w, codes, prolog, regs, m, ins[..last]))
  }

  /** However many main phases ran over a prepared buffer, with whatever inputs, it is still
      prepared: the next gives the interpreter's outputs. */
  lemma {:induction false} MainAgain<V>(P: Program, w: World<V>, jobs: seq<seq<ROp>>, codes: seq<seq<Instr>>,
                                        prolog: nat,
                                        regs: nat -> seq<V>, m: Mach<V>, env: seq<V>, ins: seq<seq<V>>)
    requires Compiled(P, w.isa, w.lay, |w.inputs|, jobs, codes) && prolog <= |jobs| && ProgramOk(P, w.lay, |w.inputs|)
    requires Shaped(w, m) && |env| == w.lay.slots && (forall i: nat :: |regs(i)| == w.isa.n + 1)
    requires forall i :: 0 <= i < |ins| ==> |ins[i]| == |w.inputs|
    requires CrossingKept(P, Offset(jobs, prolog)) && Agrees(P, w.lay, m.work, env, Offset(jobs, prolog))
    ensures forall i :: 0 <= i < |codes| ==> CodeOk(w.isa, w.lay, |w.inputs|, codes[i])
    ensures Agrees(P, w.lay, RunMains(w, codes, prolog, regs, m, ins).work, env, Offset(jobs, prolog))
  {
    hide Interp, Run, OpOk, StagesOk, StatesOk, ChunkOk, Flatten, RunChunks, Offset, Live, HostLive, Agrees,
         CrossingKept, Compiled, CodeOk;
    CompiledCode(P, w.isa, w.lay, |w.inputs|, jobs, codes);
    if ins != [] {
      var last := |ins| - 1;
      MainAgain(P, w, jobs, codes, prolog, regs, m, env, ins[..last]);
      MainRuns(P, w.(inputs := ins[last]), jobs, codes, prolog, regs,
               RunMains(w, codes, prolog, regs, m, ins[..last]), env);
    }
  }

  // --- an episode ----------------------------------------------------------------------------------

  /** The prolog's ops leave the same in every slot read later at inputs `x` and `y`, run from
      the slots `env`: they are of one binding. */
  ghost predicate OneBinding<V>(P: Program, A: Alg<V>, lay: Layout, pro: seq<ROp>, env: seq<V>, x: seq<V>, y: seq<V>) {
    && |env| == lay.slots && |x| == |y| && (forall i :: 0 <= i < |pro| ==> OpOk(pro[i], lay, |x|))
    && forall s :: 0 <= s < lay.slots && (Live(P, s, |pro|) || HostLive(P, s, |pro|)) ==>
         Interp(A, false, lay, env, x, pro, |pro|)[s] == Interp(A, false, lay, env, y, pro, |pro|)[s]
  }

  /** A prolog at one vector of inputs, any number of main phases, then one at inputs `y` of the
      prolog's binding: every output is what the reference interpreter makes of the whole
      stream at `y`. */
  lemma {:induction false} EpisodeRuns<V>(P: Program, w: World<V>, jobs: seq<seq<ROp>>, codes: seq<seq<Instr>>,
                                          prolog: nat,
                                          regs: nat -> seq<V>, m: Mach<V>, ins: seq<seq<V>>, y: seq<V>, s: nat)
    requires Compiled(P, w.isa, w.lay, |w.inputs|, jobs, codes) && prolog <= |jobs| && ProgramOk(P, w.lay, |w.inputs|)
    requires Shaped(w, m) && (forall i: nat :: |regs(i)| == w.isa.n + 1) && IdempotentIdentities(w.A)
    requires |y| == |w.inputs| && forall i :: 0 <= i < |ins| ==> |ins[i]| == |y|
    requires CrossingKept(P, Offset(jobs, prolog)) && s in P.outputs && s < w.lay.slots
    requires OneBinding(P, w.A, w.lay, Stretch(jobs, 0, prolog), m.work[..w.lay.slots], w.inputs, y)
    ensures forall i :: 0 <= i < |codes| ==> CodeOk(w.isa, w.lay, |w.inputs|, codes[i])
    ensures var bound := RunChunks(w, codes, 0, prolog, regs, m);
            var ran := RunMains(w, codes, prolog, regs, bound, ins);
            RunChunks(w.(inputs := y), codes, prolog, |codes|, regs, ran).work[s] ==
            Interp(w.A, false, w.lay, m.work[..w.lay.slots], y, P.ops, |P.ops|)[s]
  {
    hide Interp, Run, OpOk, StagesOk, StatesOk, ChunkOk, Flatten, RunChunks, RunMains, Offset, Live, HostLive, Agrees,
         CrossingKept, Compiled, CodeOk, OneBinding, Stretch;
    CompiledCode(P, w.isa, w.lay, |w.inputs|, jobs, codes);
    var env, pro, main := m.work[..w.lay.slots], Stretch(jobs, 0, prolog), Stretch(jobs, prolog, |jobs|);
    OffsetNone(jobs);
    StretchWhole(jobs, prolog);
    assert Flatten(jobs) == P.ops by { StreamIs(P, w.isa, w.lay, |w.inputs|, jobs, codes); }
    assert Agrees(P, w.lay, m.work, env, 0) by { AgreesItself(P, w, m); }
    ChunksRun(P, w, jobs, codes, 0, prolog, regs, m, env);
    var bound := RunChunks(w, codes, 0, prolog, regs, m);
    var left := Interp(w.A, true, w.lay, env, y, pro, |pro|);
    BoundAgrees(P, w, pro, bound, env, y, Offset(jobs, prolog));
    MainAgain(P, w, jobs, codes, prolog, regs, bound, left, ins);
    MainRuns(P, w.(inputs := y), jobs, codes, prolog, regs, RunMains(w, codes, prolog, regs, bound, ins), left);
    InterpAppend(w.A, w.lay, env, y, pro, main, |main|);
    InterpShort(w.A, w.lay, env, y, P.ops, |P.ops|);
  }

  lemma StreamIs(P: Program, isa: Isa, lay: Layout, inputs: nat, jobs: seq<seq<ROp>>, codes: seq<seq<Instr>>)
    requires Compiled(P, isa, lay, inputs, jobs, codes)
    ensures Flatten(jobs) == P.ops
  {
  }

  lemma AgreesItself<V>(P: Program, w: World<V>, m: Mach<V>)
    requires Shaped(w, m)
    ensures Agrees(P, w.lay, m.work, m.work[..w.lay.slots], 0)
  {
  }

  /** A memory bound at one vector of inputs is bound at any of the same binding. */
  lemma BoundAgrees<V>(P: Program, w: World<V>, pro: seq<ROp>, bound: Mach<V>, env: seq<V>, y: seq<V>, split: nat)
    requires Shaped(w, bound) && IdempotentIdentities(w.A) && split == |pro|
    requires OneBinding(P, w.A, w.lay, pro, env, w.inputs, y)
    requires Agrees(P, w.lay, bound.work, Interp(w.A, true, w.lay, env, w.inputs, pro, |pro|), split)
    ensures Agrees(P, w.lay, bound.work, Interp(w.A, true, w.lay, env, y, pro, |pro|), split)
  {
    hide Interp, OpOk, Live, HostLive;
    InterpShort(w.A, w.lay, env, w.inputs, pro, |pro|);
    InterpShort(w.A, w.lay, env, y, pro, |pro|);
  }

  lemma StretchWhole(jobs: seq<seq<ROp>>, prolog: nat)
    requires prolog <= |jobs|
    ensures Stretch(jobs, 0, prolog) + Stretch(jobs, prolog, |jobs|) == Flatten(jobs)
    ensures |Stretch(jobs, 0, prolog)| == Offset(jobs, prolog)
  {
    hide Flatten, Offset;
    assert jobs[0..prolog] == jobs[..prolog] && jobs[prolog..|jobs|] == jobs[prolog..];
    assert jobs[..prolog] + jobs[prolog..] == jobs;
    FlattenAppend(jobs[..prolog], jobs[prolog..]);
    OffsetFlatten(jobs[..prolog]);
    OffsetPrefix(jobs[..prolog], jobs[prolog..], prolog);
  }
}
