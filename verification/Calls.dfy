/** The graph of expressions, functions and calls, and its rewrites: substituting, copying a
    function with its globals bound, inlining, specializing calls on the constants they pass. */
module CallRewrites {
  import opened Arenas
  import opened Basics
  import opened Bindings
  import opened Rewriting
  import opened Substitutions

  // --- growth of a whole graph -----------------------------------------------------------------------

  /** Folding constants computes what the operation does. */
  ghost predicate SoundFolds<V(!new)>(W: World<V>) {
    forall op: nat, ks: seq<nat> :: FoldsTo(W, op, ks)
  }

  ghost predicate FoldsTo<V>(W: World<V>, op: nat, ks: seq<nat>) {
    W.fold(op, ks).Some? ==> W.konst(W.fold(op, ks).value) == W.op(op, Konsts(W, ks))
  }

  function Konsts<V>(W: World<V>, ks: seq<nat>): (r: seq<V>)
    ensures |r| == |ks|
  { seq(|ks|, i requires 0 <= i < |ks| => W.konst(ks[i])) }

  type Copies = map<(nat, Map), nat>

  ghost predicate ReboundOk<V(!new)>(W: World<V>, A: Arena, rebound: Copies)
    requires ArenaOk(A)
  { forall key :: key in rebound ==> MapOk(A, key.1) && CopyOk(W, A, key.0, key.1, rebound[key]) }

  /** Under `e`, every call of a body `m` binds a global of has its copy in the table, and so
      in that body under what is bound there, however deep. */
  ghost predicate Copied(A: Arena, rebound: Copies, m: Map, e: nat)
    requires ArenaOk(A) && MapOk(A, m) && e < |A.nodes|
    decreases e
  {
    assert NodeOk(A, e);
    var n := A.nodes[e];
    && (forall i :: 0 <= i < |n.Operands()| ==> Below1(n.Operands()[i], e) && Copied(A, rebound, m, n.Operands()[i]))
    && (n.Call? && A.funcs[n.f].outputs[n.out].Expr? && Rebinding(A, m, n.f) != map[] ==>
          && (n.f, Rebinding(A, m, n.f)) in rebound
          && Copied(A, rebound, Rebinding(A, m, n.f), A.funcs[n.f].outputs[n.out].e))
  }

  /** Every body of a function copied under `m` has its copies under `m`. */
  ghost predicate BodiesCopied(A: Arena, rebound: Copies, f: nat, m: Map)
    requires ArenaOk(A) && MapOk(A, m)
  {
    f < |A.funcs| && FuncOk(A, f) &&
    forall k :: 0 <= k < |A.funcs[f].outputs| && A.funcs[f].outputs[k].Expr? ==>
        Copied(A, rebound, m, A.funcs[f].outputs[k].e)
  }

  ghost predicate TableOk(A: Arena, rebound: Copies)
    requires ArenaOk(A)
  { forall key :: key in rebound ==> MapOk(A, key.1) && BodiesCopied(A, rebound, key.0, key.1) }

  lemma {:induction false} CopiedExtends(A: Arena, B: Arena, was: Copies, now: Copies, m: Map, e: nat)
    requires ArenaOk(A) && ArenaOk(B) && Extends(A, B) && was.Keys <= now.Keys
    requires MapOk(A, m) && e < |A.nodes| && Copied(A, was, m, e)
    ensures MapOk(B, m) && Copied(B, now, m, e)
    decreases e
  {
    hide Rebinding;
    assert NodeOk(A, e);
    var n := A.nodes[e];
    forall i | 0 <= i < |n.Operands()| ensures Below1(n.Operands()[i], e) && Copied(B, now, m, n.Operands()[i]) {
      CopiedExtends(A, B, was, now, m, n.Operands()[i]);
    }
    if n.Call? && A.funcs[n.f].outputs[n.out].Expr? {
      RebindingExtends(A, B, m, n.f);
      var t := Rebinding(A, m, n.f);
      if t != map[] {
        assert (n.f, t) in was.Keys;
        CopiedExtends(A, B, was, now, t, A.funcs[n.f].outputs[n.out].e);
      }
    }
  }

  lemma BodiesCopiedExtend(A: Arena, B: Arena, was: Copies, now: Copies, f: nat, m: Map)
    requires ArenaOk(A) && ArenaOk(B) && Extends(A, B) && was.Keys <= now.Keys && MapOk(A, m)
             && BodiesCopied(A, was, f, m)
    ensures MapOk(B, m) && BodiesCopied(B, now, f, m)
  {
    hide Copied;
    assert FuncOk(B, f);
    forall k | 0 <= k < |A.funcs[f].outputs| && A.funcs[f].outputs[k].Expr?
      ensures Copied(B, now, m, A.funcs[f].outputs[k].e) {
      CopiedExtends(A, B, was, now, m, A.funcs[f].outputs[k].e);
    }
  }

  lemma TableExtends(A: Arena, B: Arena, rebound: Copies)
    requires ArenaOk(A) && ArenaOk(B) && Extends(A, B) && TableOk(A, rebound)
    ensures TableOk(B, rebound)
  {
    hide BodiesCopied;
    forall key | key in rebound ensures MapOk(B, key.1) && BodiesCopied(B, rebound, key.0, key.1) {
      BodiesCopiedExtend(A, B, rebound, rebound, key.0, key.1);
    }
  }

  lemma TableAdds(A: Arena, rebound: Copies, f: nat, m: Map, g: nat)
    requires ArenaOk(A) && TableOk(A, rebound) && MapOk(A, m) && BodiesCopied(A, rebound, f, m)
    ensures TableOk(A, rebound[(f, m) := g])
  {
    hide BodiesCopied;
    var now := rebound[(f, m) := g];
    forall key | key in now ensures MapOk(A, key.1) && BodiesCopied(A, now, key.0, key.1) {
      BodiesCopiedExtend(A, A, rebound, now, key.0, key.1);
    }
  }

  ghost predicate GraphOk<V(!new)>(W: World<V>, A: Arena, rebound: Copies) {
    ArenaOk(A) && HeightsOk(A) && ReboundOk(W, A, rebound) && TableOk(A, rebound)
  }

  /** A node that may come next. */
  ghost predicate NextOk(A: Arena, n: Node) {
    && (forall o :: o in n.Operands() ==> o < |A.nodes|)
    && (n.Call? ==>
          && n.f < |A.funcs| && n.out < |A.funcs[n.f].outputs|
          && ContextOk(n.ctx, |A.funcs[n.f].params|) && |n.list| == Arity(n.ctx, |A.funcs[n.f].params|))
  }

  lemma GrowNodes<V(!new)>(W: World<V>, A: Arena, rebound: Copies, n: Node)
    requires GraphOk(W, A, rebound) && NextOk(A, n)
    ensures var B := Arena(A.nodes + [n], A.funcs); ArenaOk(B) && GraphOk(W, B, rebound) && Extends(A, B)
  {
    hide CopyOk, HeightOk, ContextOk, TableOk;
    var B := Arena(A.nodes + [n], A.funcs);
    assert ArenaOk(B) by {
      forall f | 0 <= f < |B.funcs| ensures FuncOk(B, f) { assert FuncOk(A, f); }
      forall e | 0 <= e < |B.nodes| ensures NodeOk(B, e) {
        if e < |A.nodes| { assert NodeOk(A, e); } else if n.Call? { assert FuncOk(A, n.f); }
      }
    }
    StillOk(W, A, B, rebound);
    forall f | 0 <= f < |B.funcs| ensures HeightOk(B, f) { HeightExtends(A, B, f); }
  }

  lemma StillOk<V(!new)>(W: World<V>, A: Arena, B: Arena, rebound: Copies)
    requires ArenaOk(A) && ArenaOk(B) && Extends(A, B) && ReboundOk(W, A, rebound) && TableOk(A, rebound)
    ensures ReboundOk(W, B, rebound) && TableOk(B, rebound)
  {
    hide CopyOk, TableOk;
    TableExtends(A, B, rebound);
    forall key | key in rebound ensures MapOk(B, key.1) && CopyOk(W, B, key.0, key.1, rebound[key]) {
      CopyExtends(W, A, B, key.0, key.1, rebound[key]);
    }
  }

  lemma HeightExtends(A: Arena, B: Arena, f: nat)
    requires ArenaOk(A) && ArenaOk(B) && Extends(A, B) && f < |A.funcs| && HeightOk(A, f)
    ensures HeightOk(B, f)
  {
    hide Calls;
    assert FuncOk(A, f);
    var h := A.funcs[f].height;
    forall k | 0 <= k < |A.funcs[f].outputs| && A.funcs[f].outputs[k].Expr?
      ensures Calls(B, A.funcs[f].outputs[k].e, Lower(B, h)) {
      CallsExtends(A, B, A.funcs[f].outputs[k].e, Lower(A, h), Lower(B, h));
    }
  }

  /** A function that may come next. */
  ghost predicate NextFuncOk(A: Arena, fn: Function)
    requires ArenaOk(A)
  {
    && Distinct(fn.params) && |fn.keeps| == |fn.params|
    && forall k :: 0 <= k < |fn.outputs| ==>
         OutputOk(fn.outputs[k], fn.external, |A.nodes|)
             && (fn.outputs[k].Expr? ==> Calls(A, fn.outputs[k].e, Lower(A, fn.height)))
  }

  lemma GrowFuncs<V(!new)>(W: World<V>, A: Arena, rebound: Copies, fn: Function)
    requires GraphOk(W, A, rebound) && NextFuncOk(A, fn)
    ensures var B := Arena(A.nodes, A.funcs + [fn]); ArenaOk(B) && GraphOk(W, B, rebound) && Extends(A, B)
  {
    hide CopyOk, HeightOk, ContextOk, Calls, TableOk;
    var B := Arena(A.nodes, A.funcs + [fn]);
    assert ArenaOk(B) by {
      forall e | 0 <= e < |B.nodes| ensures NodeOk(B, e) { assert NodeOk(A, e); }
      forall f | 0 <= f < |B.funcs| ensures FuncOk(B, f) { if f < |A.funcs| { assert FuncOk(A, f); } }
    }
    StillOk(W, A, B, rebound);
    forall f | 0 <= f < |B.funcs| ensures HeightOk(B, f) {
      if f < |A.funcs| {
        HeightExtends(A, B, f);
      } else {
        LastHeight(A, B, fn);
      }
    }
  }

  lemma LastHeight(A: Arena, B: Arena, fn: Function)
    requires ArenaOk(A) && ArenaOk(B) && B == Arena(A.nodes, A.funcs + [fn]) && NextFuncOk(A, fn)
    ensures HeightOk(B, |A.funcs|)
  {
    hide Calls;
    forall k | 0 <= k < |fn.outputs| && fn.outputs[k].Expr? ensures Calls(B, fn.outputs[k].e, Lower(B, fn.height)) {
      CallsExtends(A, B, fn.outputs[k].e, Lower(A, fn.height), Lower(A, fn.height));
      CallsMore(B, fn.outputs[k].e, Lower(A, fn.height), Lower(B, fn.height));
    }
  }

  lemma {:induction false} CallsMore(A: Arena, e: nat, fs: iset<nat>, gs: iset<nat>)
    requires ArenaOk(A) && e < |A.nodes| && Calls(A, e, fs) && fs <= gs
    ensures Calls(A, e, gs)
    decreases e
  {
    assert NodeOk(A, e);
    forall i | 0 <= i < |A.nodes[e].Operands()|
      ensures Below1(A.nodes[e].Operands()[i], e) && Calls(A, A.nodes[e].Operands()[i], gs) {
      CallsMore(A, A.nodes[e].Operands()[i], fs, gs);
    }
  }

  lemma {:induction false} AllLow(A: Arena, e: nat, h: nat)
    requires ArenaOk(A) && e < |A.nodes| && forall f :: 0 <= f < |A.funcs| ==> A.funcs[f].height < h
    ensures Calls(A, e, Lower(A, h))
    decreases e
  {
    assert NodeOk(A, e);
    forall i | 0 <= i < |A.nodes[e].Operands()|
      ensures Below1(A.nodes[e].Operands()[i], e) && Calls(A, A.nodes[e].Operands()[i], Lower(A, h)) {
      assert A.nodes[e].Operands()[i] in A.nodes[e].Operands();
      AllLow(A, A.nodes[e].Operands()[i], h);
    }
  }

  /** What has been rewritten, each with `m` put in. */
  ghost predicate MemoOk<V(!new)>(W: World<V>, A: Arena, m: Map, memo: map<nat, nat>)
    requires ArenaOk(A) && MapOk(A, m)
  { forall e :: e in memo ==> SubstOk(W, A, m, e, memo[e]) }

  lemma MemoExtends<V(!new)>(W: World<V>, A: Arena, B: Arena, m: Map, memo: map<nat, nat>)
    requires ArenaOk(A) && ArenaOk(B) && Extends(A, B) && MapOk(A, m) && MemoOk(W, A, m, memo)
    ensures MapOk(B, m) && MemoOk(W, B, m, memo)
  {
    hide SubstOk;
    forall e | e in memo ensures SubstOk(W, B, m, e, memo[e]) { SubstExtends(W, A, B, m, e, memo[e]); }
  }

  /** What has been rewritten has its copies under `m` in the table. */
  ghost predicate MemoCopied(A: Arena, rebound: Copies, m: Map, memo: map<nat, nat>)
    requires ArenaOk(A) && MapOk(A, m)
  { forall e :: e in memo ==> e < |A.nodes| && Copied(A, rebound, m, e) }

  lemma MemoCopiedNext(A: Arena, B: Arena, was: Copies, now: Copies, m: Map, memo: map<nat, nat>, e: nat, r: nat)
    requires ArenaOk(A) && ArenaOk(B) && Extends(A, B) && was.Keys <= now.Keys
    requires MapOk(A, m) && MapOk(B, m) && MemoCopied(A, was, m, memo) && e < |B.nodes| && Copied(B, now, m, e)
    ensures MemoCopied(B, now, m, memo[e := r])
  {
    hide Copied;
    forall d | d in memo ensures d < |B.nodes| && Copied(B, now, m, d) { CopiedExtends(A, B, was, now, m, d); }
  }

  /** The operands of `e` have their copies under `m`. */
  ghost predicate OperandsCopied(A: Arena, rebound: Copies, m: Map, e: nat)
    requires ArenaOk(A) && MapOk(A, m) && e < |A.nodes|
  { forall o :: o in A.nodes[e].Operands() ==> o < e && Copied(A, rebound, m, o) }

  lemma OperandsCopiedExtend(A: Arena, B: Arena, was: Copies, now: Copies, m: Map, e: nat)
    requires ArenaOk(A) && ArenaOk(B) && Extends(A, B) && was.Keys <= now.Keys
    requires MapOk(A, m) && e < |A.nodes| && OperandsCopied(A, was, m, e)
    ensures MapOk(B, m) && OperandsCopied(B, now, m, e)
  {
    hide Copied;
    forall o | o in A.nodes[e].Operands() ensures o < e && Copied(B, now, m, o) { CopiedExtends(A, B, was, now, m, o); }
  }

  lemma MemoOperandsCopied(A: Arena, rebound: Copies, m: Map, memo: map<nat, nat>, e: nat)
    requires ArenaOk(A) && MapOk(A, m) && e < |A.nodes| && MemoCopied(A, rebound, m, memo)
    requires forall o :: o in A.nodes[e].Operands() ==> o in memo
    ensures OperandsCopied(A, rebound, m, e)
  {
    hide Copied;
    assert NodeOk(A, e);
  }

  /** A node that calls nothing has its copies where its operands do; a call where besides its
      function's are in the table. */
  lemma NodeCopied(A: Arena, rebound: Copies, m: Map, e: nat)
    requires ArenaOk(A) && MapOk(A, m) && e < |A.nodes| && OperandsCopied(A, rebound, m, e) && TableOk(A, rebound)
    requires A.nodes[e].Call? ==> NodeOk(A, e) && CallCopied(A, rebound, m, A.nodes[e].f)
    ensures Copied(A, rebound, m, e)
  {
    hide Rebinding;
    assert NodeOk(A, e);
    var n := A.nodes[e];
    assert forall i :: 0 <= i < |n.Operands()| ==> n.Operands()[i] in n.Operands();
    if n.Call? && Rebinding(A, m, n.f) != map[] { assert BodiesCopied(A, rebound, n.f, Rebinding(A, m, n.f)); }
  }

  ghost predicate CallCopied(A: Arena, rebound: Copies, m: Map, f: nat)
    requires ArenaOk(A) && MapOk(A, m)
  { f < |A.funcs| && (Rebinding(A, m, f) != map[] ==> (f, Rebinding(A, m, f)) in rebound) }

  lemma CallCopiedExtends(A: Arena, B: Arena, was: Copies, now: Copies, m: Map, f: nat)
    requires ArenaOk(A) && ArenaOk(B) && Extends(A, B) && was.Keys <= now.Keys && MapOk(A, m)
             && CallCopied(A, was, m, f)
    ensures MapOk(B, m) && CallCopied(B, now, m, f)
  {
    hide Rebinding;
    RebindingExtends(A, B, m, f);
    if Rebinding(A, m, f) != map[] { assert (f, Rebinding(A, m, f)) in was.Keys; }
  }

  /** Nodes that call only functions of `fs`: closed under operands. */
  ghost function Calling(A: Arena, fs: iset<nat>): iset<nat>
    requires ArenaOk(A)
  { iset e: nat | CallsIn(A, e, fs) }

  ghost predicate CallsIn(A: Arena, e: nat, fs: iset<nat>)
    requires ArenaOk(A)
  { e < |A.nodes| && Calls(A, e, fs) }

  lemma CallingDownward(A: Arena, fs: iset<nat>)
    requires ArenaOk(A)
    ensures Downward(A.nodes, Calling(A, fs)) && Ordered(A.nodes)
  {
    hide FuncOk;
    forall e, o | 0 <= e < |A.nodes| && o in A.nodes[e].Operands() ensures o < e { assert NodeOk(A, e); }
    forall e, o | 0 <= e < |A.nodes| && e in Calling(A, fs) && o in A.nodes[e].Operands() ensures o in Calling(A, fs) {
      assert NodeOk(A, e);
      var i :| 0 <= i < |A.nodes[e].Operands()| && A.nodes[e].Operands()[i] == o;
    }
  }

  class CallGraph<V(!new)> {
    const W: World<V>
    var nodes: seq<Node>
    var dedup: map<Node, nat>
    var funcs: seq<Function>
    var rebound: Copies

    function A(): Arena
      reads this
    { Arena(nodes, funcs) }

    ghost predicate Valid()
      reads this
    {
      && ArenaOk(A()) && GraphOk(W, A(), rebound) && SoundFolds(W)
      && (forall n :: n in dedup ==> dedup[n] < |nodes| && nodes[dedup[n]] == n)
      && (forall e :: 0 <= e < |nodes| ==> nodes[e] in dedup && dedup[nodes[e]] == e)
    }

    constructor (w: World<V>)
      requires SoundFolds(w)
      ensures Valid() && nodes == [] && funcs == [] && W == w
    {
      W := w;
      nodes, dedup, funcs, rebound := [], map[], [], map[];
    }

    /** The one id of a node. */
    method Intern(n: Node) returns (r: nat)
      requires Valid() && NextOk(A(), n)
      modifies this
      ensures Valid() && Extends(old(A()), A()) && funcs == old(funcs) && rebound == old(rebound)
      ensures r < |nodes| && nodes[r] == n
    {
      hide GraphOk, SoundFolds;
      if n in dedup { return dedup[n]; }
      GrowNodes(W, A(), rebound, n);
      r := |nodes|;
      nodes := nodes + [n];
      dedup := dedup[n := r];
    }

    /** Operation `op` over `args`: constants folded, otherwise interned. */
    method Build(op: nat, args: seq<nat>) returns (r: nat)
      requires Valid() && forall i :: 0 <= i < |args| ==> args[i] < |nodes|
      modifies this
      ensures Valid() && Extends(old(A()), A()) && funcs == old(funcs) && rebound == old(rebound)
      ensures BuiltOk(W, A(), op, args, r)
    {
      hide SoundFolds;
      var ns := nodes;
      if forall i :: 0 <= i < |args| ==> ns[args[i]].Const? {
        var ks := seq(|args|, i requires 0 <= i < |args| && args[i] < |ns| && ns[args[i]].Const? => ns[args[i]].c);
        var folded := W.fold(op, ks);
        if folded.Some? {
          assert FoldsTo(W, op, ks) by { Folds(W, op, ks); }
          r := Intern(Const(folded.value));
          ConstBuilt(W, A(), op, args, ks, r);
          return;
        }
      }
      r := Intern(Op(op, args));
      OpBuilt(W, A(), op, args, r);
    }

    /** A node worth output `out` of `f` over the merged operands; constant outputs need no call. */
    method CallListIn(f: nat, out: nat, ctx: Context, list: seq<nat>) returns (r: nat)
      requires Valid() && NextOk(A(), Call(f, out, ctx, list))
      modifies this
      ensures Valid() && Extends(old(A()), A()) && funcs == old(funcs) && rebound == old(rebound)
      ensures f < |funcs| && ContextOk(ctx, |funcs[f].params|) && |list| == Arity(ctx, |funcs[f].params|)
      ensures CalledOk(W, A(), f, out, FullArgs(ctx, |funcs[f].params|, list), r)
      ensures CallCalls(A(), f, list + ctx.Exprs(), r)
      ensures nodes[r].Const? || nodes[r] == Call(f, out, ctx, list)
    {
      assert FuncOk(A(), f);
      match funcs[f].outputs[out] {
        case Zero =>
          r := Intern(Const(W.zero));
          ConstCalled(W, A(), f, out, ctx, list, r);
        case Expr(e) =>
          if nodes[e].Const? {
            r := e;
            ConstCalled(W, A(), f, out, ctx, list, r);
          } else {
            r := Intern(Call(f, out, ctx, list));
            CallCalled(W, A(), f, out, ctx, list, r);
          }
        case External(_) =>
          r := Intern(Call(f, out, ctx, list));
          CallCalled(W, A(), f, out, ctx, list, r);
      }
    }

    /** Context `c` over the bound expressions `exprs`, for `g`. */
    method ContextOver(c: Context, g: nat, n: nat, exprs: seq<nat>) returns (d: Context)
      requires ContextOk(c, n) && |exprs| == |c.Exprs()|
      ensures ContextOk(d, n) && (d.NoContext? <==> c.NoContext?) && d.Exprs() == exprs && (c.Context? ==> d.at == c.at)
    {
      if c.NoContext? { return c; }
      if c.f == g && c.exprs == exprs { return c; }
      var pairs := seq(|exprs|, i requires 0 <= i < |exprs| => (c.at[i], exprs[i]));
      assert Firsts(pairs) == c.at && Seconds(pairs) == exprs;
      KeptSame(pairs);
      if pairs == [] {
        d := c;
      } else {
        d := Bind(g, n, pairs);
      }
    }

    // --- substitution ------------------------------------------------------------------------------

    /** A call with `m` put in, its operands being: it runs its function with the globals `m`
        binds bound. */
    method SubstTheCall(e: nat, m: Map, news: seq<nat>, ghost h: nat) returns (r: nat)
      requires Valid() && MapOk(A(), m) && OperandsOk(W, A(), m, e, news) && e < |nodes| && nodes[e].Call?
      requires Calls(A(), e, Lower(A(), h)) && forall i :: 0 <= i < |news| ==> news[i] < |nodes|
      modifies this
      ensures Valid() && Extends(old(A()), A()) && MapOk(A(), m) && SubstOk(W, A(), m, e, r)
      ensures old(rebound).Keys <= rebound.Keys && CallCopied(A(), rebound, m, nodes[e].f)
      decreases h, 0
    {
      hide GraphOk, SoundFolds, SubstOk, Calls, FullOk, OperandsOk, CalledOk, CallCalls, TargetOk, ContextOk,
           CallCopied;
      ghost var A0 := A();
      var Call(f, out, ctx, list) := nodes[e];
      CallFacts(A0, e, h);
      LengthOk(W, A0, m, e, news);
      var g := Rebound(f, m);
      ghost var A1, copies := A(), rebound;
      OperandsExtend(W, A0, A1, m, e, news);
      TargetShape(W, A1, m, f, g);
      var l, exprs := news[..|list|], news[|list|..];
      var k := |funcs[f].params|;
      var c := ContextOver(ctx, g, k, exprs);
      assert l + c.Exprs() == news;
      FullIs(W, A1, m, e, news, l, c);
      r := CallListIn(g, out, c, l);
      OperandsExtend(W, A1, A(), m, e, news);
      TargetExtends(W, A1, A(), m, f, g);
      FullExtends(W, A1, A(), m, e, FullArgs(c, k, l));
      CallCopiedExtends(A1, A(), copies, rebound, m, f);
      SubstCall(W, A(), m, e, news, FullArgs(c, k, l), g, r);
    }

    /** Node `e` with `m` put in, its operands being. */
    method SubstOne(e: nat, m: Map, memo: map<nat, nat>, ghost h: nat) returns (r: nat)
      requires Valid() && MapOk(A(), m) && e < |nodes| && MemoOk(W, A(), m, memo)
      requires (forall o :: o in nodes[e].Operands() ==> o in memo) && Calls(A(), e, Lower(A(), h))
      modifies this
      ensures Valid() && Extends(old(A()), A()) && MapOk(A(), m) && SubstOk(W, A(), m, e, r)
      ensures old(rebound).Keys <= rebound.Keys && (nodes[e].Call? ==> CallCopied(A(), rebound, m, nodes[e].f))
      decreases h, 1
    {
      hide GraphOk, SoundFolds, SubstOk, Calls, OperandsOk, BuiltOk, CallCopied;
      ghost var A0 := A();
      match nodes[e] {
        case Const(_) =>
          r := e;
          SubstLeaf(W, A(), m, e);
        case Symbol(s) =>
          r := if s in m then m[s] else e;
          SubstLeaf(W, A(), m, e);
        case Op(op, args) =>
          var news := Rewritten(memo, nodes[e].Operands());
          MemoOperands(W, A(), m, memo, e, news);
          r := Build(op, news);
          OperandsExtend(W, A0, A(), m, e, news);
          SubstOp(W, A(), m, e, news, r);
        case Call(_, _, _, _) =>
          var news := Rewritten(memo, nodes[e].Operands());
          MemoOperands(W, A(), m, memo, e, news);
          r := SubstTheCall(e, m, news, h);
      }
    }

    /** `memo` with node `e`. */
    method SubstNext(e: nat, m: Map, memo0: map<nat, nat>, ghost h: nat) returns (memo: map<nat, nat>)
      requires Valid() && MapOk(A(), m) && e < |nodes| && MemoOk(W, A(), m, memo0)
      requires (forall o :: o in nodes[e].Operands() ==> o in memo0) && Calls(A(), e, Lower(A(), h))
      modifies this
      ensures Valid() && Extends(old(A()), A()) && MapOk(A(), m) && MemoOk(W, A(), m, memo)
      ensures memo.Keys == memo0.Keys + {e} && forall d :: d in memo0 && d != e ==> memo[d] == memo0[d]
      ensures old(rebound).Keys <= rebound.Keys
      ensures old(MemoCopied(A(), rebound, m, memo0)) ==> MemoCopied(A(), rebound, m, memo)
      decreases h, 2
    {
      hide GraphOk, SoundFolds, SubstOk, Calls, Lower, CallCopied, MemoCopied, Copied;
      ghost var A0, copies := A(), rebound;
      var r := SubstOne(e, m, memo0, h);
      MemoExtends(W, A0, A(), m, memo0);
      memo := memo0[e := r];
      if MemoCopied(A0, copies, m, memo0) { NextCopied(A0, copies, m, memo0, e, r); }
    }

    lemma NextCopied(A0: Arena, copies: Copies, m: Map, memo0: map<nat, nat>, e: nat, r: nat)
      requires Valid() && ArenaOk(A0) && Extends(A0, A()) && copies.Keys <= rebound.Keys && MapOk(A0, m)
               && MapOk(A(), m)
      requires e < |A0.nodes| && MemoCopied(A0, copies, m, memo0)
               && (forall o :: o in A0.nodes[e].Operands() ==> o in memo0)
      requires nodes[e].Call? ==> CallCopied(A(), rebound, m, nodes[e].f)
      ensures MemoCopied(A(), rebound, m, memo0[e := r])
    {
      hide SoundFolds, CallCopied, MemoCopied, OperandsCopied, Copied, TableOk, HeightsOk, ReboundOk;
      MemoOperandsCopied(A0, copies, m, memo0, e);
      OperandsCopiedExtend(A0, A(), copies, rebound, m, e);
      assert NodeOk(A(), e);
      NodeCopied(A(), rebound, m, e);
      MemoCopiedNext(A0, A(), copies, rebound, m, memo0, e, r);
    }

    /** Every node under `roots` with `m` put in, those of `memo` being: each once, after its
        operands. */
    method SubstituteFrom(roots: seq<nat>, m: Map, memo0: map<nat, nat>, ghost h: nat) returns (memo: map<nat, nat>)
      requires Valid() && MapOk(A(), m) && MemoOk(W, A(), m, memo0)
      requires forall e :: e in roots ==> e < |nodes| && Calls(A(), e, Lower(A(), h))
      modifies this
      ensures Valid() && Extends(old(A()), A()) && MapOk(A(), m) && MemoOk(W, A(), m, memo)
      ensures (forall e :: e in roots ==> e in memo) && (forall e :: e in memo0 ==> e in memo && memo[e] == memo0[e])
      ensures old(rebound).Keys <= rebound.Keys
      ensures old(MemoCopied(A(), rebound, m, memo0)) ==> MemoCopied(A(), rebound, m, memo)
      decreases h, 3
    {
      hide GraphOk, SoundFolds, SubstOk, Calls, Schedule, Downward, Ordered, MemoCopied;
      ghost var A0, p := A(), Calling(A(), Lower(A(), h));
      CallingDownward(A0, Lower(A0, h));
      var order := Schedules(nodes, roots, memo0.Keys);
      memo := memo0;
      for i := 0 to |order|
        invariant Valid() && Extends(A0, A()) && MapOk(A(), m) && MemoOk(W, A(), m, memo)
        invariant forall e :: e in memo <==> e in memo0 || e in order[..i]
        invariant forall e :: e in memo0 ==> memo[e] == memo0[e]
        invariant old(rebound).Keys <= rebound.Keys
        invariant old(MemoCopied(A(), rebound, m, memo0)) ==> MemoCopied(A(), rebound, m, memo)
      {
        var e := order[i];
        ScheduleAt(A0.nodes, roots, memo0.Keys, order, p, i);
        CallsExtends(A0, A(), e, Lower(A0, h), Lower(A(), h));
        memo := SubstNext(e, m, memo, h);
      }
      ScheduleRoots(A0.nodes, roots, memo0.Keys, order);
    }

    /** `f` with the globals `m` binds to something else than themselves bound in its bodies,
        its nested calls' included: `f` itself where there are none, one copy per binding. */
    method Rebound(f: nat, m: Map) returns (g: nat)
      requires Valid() && MapOk(A(), m) && f < |funcs|
      modifies this
      ensures Valid() && Extends(old(A()), A()) && MapOk(A(), m) && TargetOk(W, A(), m, f, g)
      ensures old(rebound).Keys <= rebound.Keys && CallCopied(A(), rebound, m, f)
      decreases funcs[f].height, 5
    {
      hide SubstOk, OutputCopyOk, HeightsOk, SoundFolds, TableOk;
      var binding := Rebinding(A(), m, f);
      if binding == map[] { return f; }
      if (f, binding) in rebound { return rebound[(f, binding)]; }
      HasGlobal(A(), m, f);
      ghost var A0 := A();
      g := Copy(f, binding);
      RebindingExtends(A0, A(), m, f);
    }

    /** The copy of `f` with `m` bound, kept for the next call of `f` under it. */
    method Copy(f: nat, m: Map) returns (g: nat)
      requires Valid() && MapOk(A(), m) && f < |funcs|
               && forall k :: 0 <= k < |funcs[f].outputs| ==> !funcs[f].outputs[k].External?
      modifies this
      ensures Valid() && Extends(old(A()), A()) && MapOk(A(), m) && CopyOk(W, A(), f, m, g)
      ensures old(rebound).Keys <= rebound.Keys && (f, m) in rebound
      decreases funcs[f].height, 4
    {
      hide SoundFolds, SubstOk, Calls, GraphOk, CopyOk, Copied;
      ghost var A0 := A();
      var fn := funcs[f];
      var exprs := ExprsOf(fn.outputs);
      BodiesLow(W, A(), rebound, f, exprs);
      NoMemo(W, A0, m);
      var memo := SubstituteFrom(exprs, m, map[], fn.height);
      var outputs := seq(|fn.outputs|, k requires 0 <= k < |fn.outputs| =>
                           if fn.outputs[k].Expr? && fn.outputs[k].e in memo
                               then Expr(memo[fn.outputs[k].e]) else fn.outputs[k]);
      var copy := Function(fn.params, fn.keeps, false, outputs, CopyHeight(A(), m, fn.height));
      g := |funcs|;
      AddCopy(f, m, memo, copy);
    }

    method AddCopy(f: nat, m: Map, ghost memo: map<nat, nat>, copy: Function)
      requires Valid() && MapOk(A(), m) && f < |funcs| && MemoOk(W, A(), m, memo)
      requires CopyShape(funcs[f], memo, copy) && copy.height == CopyHeight(A(), m, funcs[f].height)
      requires MemoCopied(A(), rebound, m, memo)
      modifies this
      ensures Valid() && Extends(old(A()), A()) && MapOk(A(), m) && |funcs| == |old(funcs)| + 1
              && CopyOk(W, A(), f, m, |old(funcs)|)
      ensures old(rebound).Keys <= rebound.Keys && (f, m) in rebound
    {
      hide SoundFolds, CopyShape, MemoOk, CopyOk, TableOk, BodiesCopied, MemoCopied;
      BodiesHave(A(), rebound, f, m, memo, copy);
      CopyNext(W, A(), f, m, memo, copy);
      GrowFuncs(W, A(), rebound, copy);
      ghost var A0, g := A(), |funcs|;
      var at := |funcs|;
      funcs := funcs + [copy];
      CopyMade(W, A0, A(), f, m, memo, copy);
      BodiesCopiedExtend(A0, A(), rebound, rebound, f, m);
      TableAdds(A(), rebound, f, m, at);
      rebound := rebound[(f, m) := at];
    }
  }

  lemma KeptSame(pairs: seq<(nat, nat)>)
    requires Ascending(Firsts(pairs))
    ensures KeptPairs(pairs) == pairs
  {
    forall q ensures q in pairs <==> q in KeptPairs(pairs) {
      if q in pairs {
        forall o | o in pairs && o.0 == q.0 ensures q.1 <= o.1 {
          var i :| 0 <= i < |pairs| && pairs[i] == q;
          var j :| 0 <= j < |pairs| && pairs[j] == o;
          assert Firsts(pairs)[i] == Firsts(pairs)[j];
        }
      }
    }
    SamePairs(pairs, KeptPairs(pairs));
  }

  lemma Folds<V(!new)>(W: World<V>, op: nat, ks: seq<nat>)
    requires SoundFolds(W)
    ensures FoldsTo(W, op, ks)
  {
  }

  lemma ConstBuilt<V(!new)>(W: World<V>, A: Arena, op: nat, args: seq<nat>, ks: seq<nat>, r: nat)
    requires ArenaOk(A) && r < |A.nodes| && |ks| == |args| && FoldsTo(W, op, ks) && W.fold(op, ks).Some?
    requires A.nodes[r] == Const(W.fold(op, ks).value)
    requires forall i :: 0 <= i < |args| ==> args[i] < |A.nodes| && A.nodes[args[i]] == Const(ks[i])
    ensures BuiltOk(W, A, op, args, r)
  {
    assert NodeOk(A, r);
    forall env: Env<V> ensures Eval(W, A, env, r) == W.op(op, Evals(W, A, env, args, |A.nodes|)) {
      forall i | 0 <= i < |args| ensures Eval(W, A, env, args[i]) == W.konst(ks[i]) { assert NodeOk(A, args[i]); }
      assert Evals(W, A, env, args, |A.nodes|) == Konsts(W, ks);
    }
  }

  lemma OpBuilt<V(!new)>(W: World<V>, A: Arena, op: nat, args: seq<nat>, r: nat)
    requires ArenaOk(A) && r < |A.nodes| && A.nodes[r] == Op(op, args)
             && forall i :: 0 <= i < |args| ==> args[i] < |A.nodes|
    ensures BuiltOk(W, A, op, args, r)
  {
    assert NodeOk(A, r);
    assert forall i :: 0 <= i < |args| ==> args[i] in A.nodes[r].Operands();
    forall env: Env<V> ensures Eval(W, A, env, r) == W.op(op, Evals(W, A, env, args, |A.nodes|)) {
      assert Evals(W, A, env, args, r) == Evals(W, A, env, args, |A.nodes|);
    }
    forall fs: iset<nat> | forall i :: 0 <= i < |args| ==> Calls(A, args[i], fs) ensures Calls(A, r, fs) {
      forall i | 0 <= i < |args| ensures Below1(args[i], r) && Calls(A, args[i], fs) {}
    }
  }

  /** The operands of a call exist. */
  lemma FullExists(A: Arena, f: nat, ctx: Context, list: seq<nat>)
    requires f < |A.funcs| && ContextOk(ctx, |A.funcs[f].params|) && |list| == Arity(ctx, |A.funcs[f].params|)
    requires forall o :: o in list + ctx.Exprs() ==> o < |A.nodes|
    ensures var full := FullArgs(ctx, |A.funcs[f].params|, list); forall i :: 0 <= i < |full| ==> full[i] < |A.nodes|
  {
    forall i | 0 <= i < |A.funcs[f].params| ensures FullArgs(ctx, |A.funcs[f].params|, list)[i] < |A.nodes| {
      FullAmong(ctx, |A.funcs[f].params|, list, i);
    }
  }

  lemma ConstCalled<V(!new)>(W: World<V>, A: Arena, f: nat, out: nat, ctx: Context, list: seq<nat>, r: nat)
    requires ArenaOk(A) && NextOk(A, Call(f, out, ctx, list)) && r < |A.nodes|
    requires match A.funcs[f].outputs[out] case Zero => A.nodes[r] == Const(W.zero) case Expr(e) => r == e
             && A.nodes[r].Const? case _ => false
    ensures CalledOk(W, A, f, out, FullArgs(ctx, |A.funcs[f].params|, list), r)
            && CallCalls(A, f, list + ctx.Exprs(), r)
  {
    assert FuncOk(A, f) && NodeOk(A, r);
    OperandsAre(f, out, ctx, list);
    FullExists(A, f, ctx, list);
    assert forall i :: 0 <= i < |list + ctx.Exprs()| ==> (list + ctx.Exprs())[i] in list + ctx.Exprs();
  }

  lemma OperandsAre(f: nat, out: nat, ctx: Context, list: seq<nat>)
    ensures Call(f, out, ctx, list).Operands() == list + ctx.Exprs()
  {
  }

  lemma CallCalled<V(!new)>(W: World<V>, A: Arena, f: nat, out: nat, ctx: Context, list: seq<nat>, r: nat)
    requires ArenaOk(A) && NextOk(A, Call(f, out, ctx, list)) && r < |A.nodes| && A.nodes[r] == Call(f, out, ctx, list)
    ensures CalledOk(W, A, f, out, FullArgs(ctx, |A.funcs[f].params|, list), r)
            && CallCalls(A, f, list + ctx.Exprs(), r)
  {
    hide ContextOk;
    assert FuncOk(A, f) && NodeOk(A, r);
    OperandsAre(f, out, ctx, list);
    FullExists(A, f, ctx, list);
    FullBelow(A, r);
    var full, news := FullArgs(ctx, |A.funcs[f].params|, list), list + ctx.Exprs();
    forall env: Env<V>
      ensures Eval(W, A, env, r) == CallValue(W, A, env, f, out, Evals(W, A, env, full, |A.nodes|), |A.nodes|) {
      assert Evals(W, A, env, full, r) == Evals(W, A, env, full, |A.nodes|);
    }
    forall i | 0 <= i < |news| ensures news[i] < r { assert news[i] in news; }
    forall fs: iset<nat> | f in fs && forall i :: 0 <= i < |news| ==> Calls(A, news[i], fs) ensures Calls(A, r, fs) {
      forall i | 0 <= i < |news| ensures Below1(news[i], r) && Calls(A, news[i], fs) {}
    }
  }

  // --- what the methods lean on ------------------------------------------------------------------------

  lemma MemoOperands<V(!new)>(W: World<V>, A: Arena, m: Map, memo: map<nat, nat>, e: nat, news: seq<nat>)
    requires ArenaOk(A) && MapOk(A, m) && MemoOk(W, A, m, memo) && e < |A.nodes|
    requires (forall o :: o in A.nodes[e].Operands() ==> o in memo) && news == Rewritten(memo, A.nodes[e].Operands())
    ensures OperandsOk(W, A, m, e, news) && forall i :: 0 <= i < |news| ==> news[i] < |A.nodes|
  {
    hide Uncaptured, Calls;
    forall i | 0 <= i < |news| ensures SubstOk(W, A, m, A.nodes[e].Operands()[i], news[i]) && news[i] < |A.nodes| {
      assert A.nodes[e].Operands()[i] in A.nodes[e].Operands();
    }
  }

  lemma OperandsExtend<V(!new)>(W: World<V>, A: Arena, B: Arena, m: Map, e: nat, news: seq<nat>)
    requires ArenaOk(A) && ArenaOk(B) && Extends(A, B) && MapOk(A, m) && OperandsOk(W, A, m, e, news)
    ensures MapOk(B, m) && OperandsOk(W, B, m, e, news)
  {
    hide SubstOk;
    forall i | 0 <= i < |news| ensures SubstOk(W, B, m, A.nodes[e].Operands()[i], news[i]) {
      SubstExtends(W, A, B, m, A.nodes[e].Operands()[i], news[i]);
    }
  }

  lemma CallFacts(A: Arena, e: nat, h: nat)
    requires ArenaOk(A) && e < |A.nodes| && A.nodes[e].Call? && Calls(A, e, Lower(A, h))
    ensures NodeOk(A, e) && A.funcs[A.nodes[e].f].height < h
  {
    assert NodeOk(A, e);
  }

  lemma TargetShape<V(!new)>(W: World<V>, A: Arena, m: Map, f: nat, g: nat)
    requires ArenaOk(A) && MapOk(A, m) && TargetOk(W, A, m, f, g)
    ensures f < |A.funcs| && g < |A.funcs| && |A.funcs[g].params| == |A.funcs[f].params|
            && |A.funcs[g].outputs| == |A.funcs[f].outputs|
  {
    hide OutputCopyOk;
  }

  lemma TargetExtends<V(!new)>(W: World<V>, A: Arena, B: Arena, m: Map, f: nat, g: nat)
    requires ArenaOk(A) && ArenaOk(B) && Extends(A, B) && MapOk(A, m) && TargetOk(W, A, m, f, g)
    ensures MapOk(B, m) && TargetOk(W, B, m, f, g)
  {
    hide CopyOk;
    RebindingExtends(A, B, m, f);
    if Rebinding(A, m, f) != map[] { CopyExtends(W, A, B, f, Rebinding(A, m, f), g); }
  }

  /** The new call's operands, in parameter order, are the old's with `m` put in. */
  lemma FullIs<V(!new)>(W: World<V>, A: Arena, m: Map, e: nat, news: seq<nat>, l: seq<nat>, c: Context)
    requires ArenaOk(A) && MapOk(A, m) && OperandsOk(W, A, m, e, news) && A.nodes[e].Call? && NodeOk(A, e)
             && l + c.Exprs() == news
    requires var n := A.nodes[e]; var k := |A.funcs[n.f].params|;
             ContextOk(c, k) && |l| == |n.list| && (c.NoContext? <==> n.ctx.NoContext?)
                 && (c.Context? ==> c.at == n.ctx.at)
    ensures var n := A.nodes[e]; var k := |A.funcs[n.f].params|;
            |l| == Arity(c, k) && FullOk(W, A, m, e, FullArgs(c, k, l))
  {
    hide SubstOk, Node.Operands;
    var n := A.nodes[e];
    var k := |A.funcs[n.f].params|;
    OperandsAre(n.f, n.out, n.ctx, n.list);
    assert |l| == Arity(c, k);
    var was, full := FullArgs(n.ctx, k, n.list), FullArgs(c, k, l);
    forall i | 0 <= i < k ensures OperandPut(W, A, m, e, was[i], full[i]) {
      var j := FullMapped(n.ctx, c, k, n.list, l, i);
      assert n.Operands()[j] == was[i] && news[j] == full[i];
    }
  }

  lemma FullExtends<V(!new)>(W: World<V>, A: Arena, B: Arena, m: Map, e: nat, full: seq<nat>)
    requires ArenaOk(A) && ArenaOk(B) && Extends(A, B) && MapOk(A, m) && FullOk(W, A, m, e, full)
    ensures MapOk(B, m) && FullOk(W, B, m, e, full)
  {
    hide SubstOk, ContextOk;
    assert MapOk(B, m) && NodeOk(B, e);
    var n := A.nodes[e];
    assert B.nodes[e] == n && B.funcs[n.f] == A.funcs[n.f];
    var was := FullArgs(n.ctx, |A.funcs[n.f].params|, n.list);
    forall i | 0 <= i < |was| ensures OperandPut(W, B, m, e, was[i], full[i]) {
      assert OperandPut(W, A, m, e, was[i], full[i]);
      SubstExtends(W, A, B, m, was[i], full[i]);
    }
  }

  /** The bodies of a function call lower ones. */
  lemma BodiesLow<V(!new)>(W: World<V>, A: Arena, rebound: Copies, f: nat, exprs: seq<nat>)
    requires GraphOk(W, A, rebound) && f < |A.funcs| && forall e :: e in exprs ==> Expr(e) in A.funcs[f].outputs
    ensures forall e :: e in exprs ==> e < |A.nodes| && Calls(A, e, Lower(A, A.funcs[f].height))
  {
    hide Calls;
    assert FuncOk(A, f) && HeightOk(A, f);
    forall e | e in exprs ensures e < |A.nodes| && Calls(A, e, Lower(A, A.funcs[f].height)) {
      var k :| 0 <= k < |A.funcs[f].outputs| && A.funcs[f].outputs[k] == Expr(e);
    }
  }

  function ExprsOf(os: seq<Output>): (r: seq<nat>)
    ensures forall e :: e in r <==> Expr(e) in os
  {
    if os == [] then [] else (if os[0].Expr? then [os[0].e] else []) + ExprsOf(os[1..])
  }

  /** A function with a global has a body. */
  lemma HasGlobal(A: Arena, m: Map, f: nat)
    requires ArenaOk(A) && MapOk(A, m) && f < |A.funcs| && Rebinding(A, m, f) != map[]
    ensures !A.funcs[f].external && forall k :: 0 <= k < |A.funcs[f].outputs| ==> !A.funcs[f].outputs[k].External?
  {
    hide Reads;
    assert FuncOk(A, f);
    var s :| s in Rebinding(A, m, f);
    assert Global(A, f, s);
    var k :| 0 <= k < |A.funcs[f].outputs| && OutputReads(A, f, k, s);
  }

  lemma NoMemo<V(!new)>(W: World<V>, A: Arena, m: Map)
    requires ArenaOk(A) && MapOk(A, m)
    ensures MemoOk(W, A, m, map[])
  {
  }

  /** The height of a copy with `m` put in: constants call nothing. */
  function CopyHeight(A: Arena, m: Map, h: nat): (r: nat)
  {
    if forall s :: s in m ==> m[s] < |A.nodes| && A.nodes[m[s]].Const? then h else TopOf(A.funcs)
  }

  /** A height no function reaches. */
  function TopOf(funcs: seq<Function>): (h: nat)
    ensures forall f :: 0 <= f < |funcs| ==> funcs[f].height < h
  {
    if funcs == [] then 0
    else
      var rest := TopOf(funcs[..|funcs| - 1]);
      if funcs[|funcs| - 1].height < rest then rest else funcs[|funcs| - 1].height + 1
  }

  /** What `Rebound` makes of each output. */
  ghost predicate CopyShape(fn: Function, memo: map<nat, nat>, copy: Function) {
    && copy.params == fn.params && copy.keeps == fn.keeps && !copy.external && |copy.outputs| == |fn.outputs|
    && (forall e :: Expr(e) in fn.outputs ==> e in memo)
    && (forall k :: 0 <= k < |fn.outputs| ==> !fn.outputs[k].External?)
    && forall k :: 0 <= k < |fn.outputs| ==>
         copy.outputs[k] == if fn.outputs[k].Expr? && fn.outputs[k].e in memo
             then Expr(memo[fn.outputs[k].e]) else fn.outputs[k]
  }

  lemma BodiesHave(A: Arena, rebound: Copies, f: nat, m: Map, memo: map<nat, nat>, copy: Function)
    requires ArenaOk(A) && MapOk(A, m) && f < |A.funcs| && MemoCopied(A, rebound, m, memo)
             && CopyShape(A.funcs[f], memo, copy)
    ensures BodiesCopied(A, rebound, f, m)
  {
    hide Copied;
    assert FuncOk(A, f);
    forall k | 0 <= k < |A.funcs[f].outputs| && A.funcs[f].outputs[k].Expr?
      ensures Copied(A, rebound, m, A.funcs[f].outputs[k].e) {
      assert A.funcs[f].outputs[k] in A.funcs[f].outputs;
    }
  }

  lemma CopyNext<V(!new)>(W: World<V>, A: Arena, f: nat, m: Map, memo: map<nat, nat>, copy: Function)
    requires ArenaOk(A) && HeightsOk(A) && MapOk(A, m) && f < |A.funcs| && MemoOk(W, A, m, memo)
    requires CopyShape(A.funcs[f], memo, copy) && copy.height == CopyHeight(A, m, A.funcs[f].height)
    ensures NextFuncOk(A, copy)
  {
    hide Calls, Uncaptured;
    assert FuncOk(A, f) && HeightOk(A, f);
    forall k | 0 <= k < |copy.outputs| && copy.outputs[k].Expr?
      ensures OutputOk(copy.outputs[k], false, |A.nodes|) && Calls(A, copy.outputs[k].e, Lower(A, copy.height)) {
      var b := A.funcs[f].outputs[k].e;
      assert A.funcs[f].outputs[k] in A.funcs[f].outputs;
      assert SubstOk(W, A, m, b, memo[b]);
      if AllConst(A, m) {
        assert Calls(A, b, Lower(A, A.funcs[f].height));
      } else {
        AllLow(A, memo[b], copy.height);
      }
    }
  }

  lemma CopyMade<V(!new)>(W: World<V>, A: Arena, B: Arena, f: nat, m: Map, memo: map<nat, nat>, copy: Function)
    requires ArenaOk(A) && ArenaOk(B) && B == Arena(A.nodes, A.funcs + [copy]) && MapOk(A, m) && f < |A.funcs|
             && MemoOk(W, A, m, memo)
    requires CopyShape(A.funcs[f], memo, copy) && copy.height == CopyHeight(A, m, A.funcs[f].height)
    ensures MapOk(B, m) && CopyOk(W, B, f, m, |A.funcs|)
  {
    hide SubstOk;
    forall k | 0 <= k < |copy.outputs| ensures OutputCopyOk(W, B, m, A.funcs[f].outputs[k], copy.outputs[k]) {
      var o := A.funcs[f].outputs[k];
      if o.Expr? {
        assert o in A.funcs[f].outputs;
        SubstExtends(W, A, B, m, o.e, memo[o.e]);
      }
    }
  }
}
