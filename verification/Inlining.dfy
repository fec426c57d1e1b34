/** Calls replaced by their bodies over their arguments, to the bottom; and what substituting
    does where a replacement would be captured. */
module Inlining {
  import opened Arenas
  import opened Bindings
  import opened CallRewrites
  import opened Captures
  import opened Dependence
  import opened Rewriting
  import opened Specializing
  import opened Substitutions

  // --- substitution on a whole graph --------------------------------------------------------------

  /** Every root with `m` put in. Where nothing is captured it has the value of the root with
      the symbols bound to the replacements' values, and every copy made on the way is right
      for all arguments; in a scalar that moves with every operand, only there. */
  method Substitute<V(!new)>(g: CallGraph<V>, roots: seq<nat>, m: Map) returns (out: seq<nat>)
    requires g.Valid() && MapOk(g.A(), m) && forall e :: e in roots ==> e < |g.nodes|
    modifies g
    ensures g.Valid() && Extends(old(g.A()), g.A()) && MapOk(g.A(), m) && |out| == |roots|
    ensures forall i :: 0 <= i < |roots| ==> SubstOk(g.W, g.A(), m, roots[i], out[i])
    ensures forall e :: e in roots && old(Uncaptured(g.A(), m, e)) ==> CopiesRight(g.W, g.A(), g.rebound, m, e)
    ensures forall e, rest, moved :: e in roots && Moving(g.W, rest, moved) ==>
              (old(Uncaptured(g.A(), m, e)) <==> CopiesRight(g.W, g.A(), g.rebound, m, e))
  {
    hide GraphOk, SoundFolds, Calls, SubstOk, Uncaptured, CopiesRight, Copied, Moving;
    ghost var A0, h := g.A(), TopOf(g.funcs);
    forall e | e in roots ensures Calls(g.A(), e, Lower(g.A(), h)) { AllLow(g.A(), e, h); }
    NoMemo(g.W, g.A(), m);
    var memo := g.SubstituteFrom(roots, m, map[], h);
    out := Rewritten(memo, roots);
    forall i | 0 <= i < |roots| ensures SubstOk(g.W, g.A(), m, roots[i], out[i]) { assert roots[i] in roots; }
    forall e | e in roots && Uncaptured(A0, m, e) ensures CopiesRight(g.W, g.A(), g.rebound, m, e) {
      CaptureExtends(A0, g.A(), m, e);
      UncapturedAllRight(g.W, g.A(), g.rebound, m, e);
    }
    forall e, rest, moved | e in roots && Moving(g.W, rest, moved)
      ensures Uncaptured(A0, m, e) <==> CopiesRight(g.W, g.A(), g.rebound, m, e) {
      CaptureExtends(A0, g.A(), m, e);
      RightWhereUncaptured(g.W, rest, moved, g.A(), g.rebound, m, e);
    }
  }

  /** A call of `f(p) = s` passing the constant 7, `p` symbol 1 and `s` symbol 2. */
  function CapturingArena(): Arena {
    Arena([Symbol(1), Symbol(2), Const(7), Call(0, 0, NoContext, [2])], [Function([1], [false], false, [Expr(1)], 1)])
  }

  lemma CapturingOk()
    ensures ArenaOk(CapturingArena())
  {
    var A := CapturingArena();
    assert FuncOk(A, 0);
    assert NodeOk(A, 0) && NodeOk(A, 1) && NodeOk(A, 2) && NodeOk(A, 3);
  }

  lemma NotUncaptured()
    ensures ArenaOk(CapturingArena()) && MapOk(CapturingArena(), map[2 := 0])
            && !Uncaptured(CapturingArena(), map[2 := 0], 3)
  {
    CapturingOk();
    var A, m := CapturingArena(), map[2 := 0];
    assert A.nodes[1] == Symbol(2) && A.nodes[0] == Symbol(1);
    assert Sees(A, 1, 2) && Sees(A, 0, 1) && Reads(A, 1, 2);
    assert OutputReads(A, 0, 0, 2);
    assert 2 in Rebinding(A, m, 0);
    assert !NoCapture(A, m, 0, 0) by { assert 2 in m && 2 !in A.funcs[0].params && 1 in A.funcs[0].params; }
  }

  /** Where a replacement reads a parameter of the body it lands in, the call of the copy is
      not the call with the symbol replaced: put `p` in for `s`, and `f(7)` becomes 7 whatever
      `p` is in the caller. */
  lemma {:induction false} Captured<V(!new)>(W: World<V>, other: V, B: Arena, g: nat)
    requires other != W.konst(7) && ArenaOk(B) && Extends(CapturingArena(), B) && MapOk(B, map[2 := 0])
             && CopyOk(W, B, 0, map[2 := 0], g)
    ensures ArenaOk(CapturingArena()) && MapOk(CapturingArena(), map[2 := 0])
            && !Uncaptured(CapturingArena(), map[2 := 0], 3)
    ensures |B.funcs[g].outputs| == 1 && |B.funcs[g].params| == 1
            && OutputOk(B.funcs[g].outputs[0], B.funcs[g].external, |B.nodes|)
    ensures CallValue(W, B, map[1 := other], g, 0, [W.konst(7)], |B.nodes|) !=
            Eval(W, CapturingArena(), Compose(W, CapturingArena(), map[1 := other], map[2 := 0]), 3)
  {
    hide Uncaptured, Eval, CallValue, CopyOk;
    NotUncaptured();
    CapturedWanted(W, other);
    CapturedMade(W, B, g, map[1 := other]);
  }

  lemma CapturedWanted<V(!new)>(W: World<V>, other: V)
    ensures ArenaOk(CapturingArena()) && MapOk(CapturingArena(), map[2 := 0])
    ensures Eval(W, CapturingArena(), Compose(W, CapturingArena(), map[1 := other], map[2 := 0]), 3) == other
  {
    CapturingOk();
    var A, m := CapturingArena(), map[2 := 0];
    var outer := Compose(W, A, map[1 := other], m);
    assert Eval(W, A, map[1 := other], 0) == other;
    assert Look(W, outer, 2) == other;
    var vals := Evals(W, A, outer, [2], 3);
    assert Eval(W, A, BindEnv(outer, [1], vals), 1) == Look(W, BindEnv(outer, [1], vals), 2);
  }

  lemma CapturedMade<V(!new)>(W: World<V>, B: Arena, g: nat, env: Env<V>)
    requires ArenaOk(B) && Extends(CapturingArena(), B) && MapOk(B, map[2 := 0]) && CopyOk(W, B, 0, map[2 := 0], g)
    ensures |B.funcs[g].outputs| == 1 && |B.funcs[g].params| == 1
    ensures OutputOk(B.funcs[g].outputs[0], B.funcs[g].external, |B.nodes|)
    ensures CallValue(W, B, env, g, 0, [W.konst(7)], |B.nodes|) == W.konst(7)
  {
    var m := map[2 := 0];
    assert FuncOk(B, g) && FuncOk(B, 0);
    assert B.nodes[0] == Symbol(1) && B.nodes[1] == Symbol(2) && B.funcs[0].outputs == [Expr(1)];
    assert OutputCopyOk(W, B, m, B.funcs[0].outputs[0], B.funcs[g].outputs[0]);
    var r := B.funcs[g].outputs[0].e;
    assert NodeOk(B, 0) && NodeOk(B, 1);
    assert Uncaptured(B, m, 1);
    var inner := BindEnv(env, [1], [W.konst(7)]);
    assert Eval(W, B, inner, r) == Eval(W, B, Compose(W, B, inner, m), 1);
    assert Look(W, Compose(W, B, inner, m), 2) == Eval(W, B, inner, 0) == Look(W, inner, 1);
  }

  // --- inlining -------------------------------------------------------------------------------------

  /** Which functions are inlined. */
  type Pick = nat -> bool

  /** The functions an inlining may leave called: external ones and those not picked, reading
      nothing but their arguments. */
  ghost function Remaining(A: Arena, which: Pick): iset<nat>
    requires ArenaOk(A)
  { iset f: nat | f in Pure(A) && f < |A.funcs| && (A.funcs[f].external || !which(f)) }

  lemma RemainingExtends(A: Arena, B: Arena, which: Pick)
    requires ArenaOk(A) && ArenaOk(B) && Extends(A, B)
    ensures forall f :: 0 <= f < |A.funcs| ==> (f in Remaining(A, which) <==> f in Remaining(B, which))
  {
    hide Pure;
    PureExtends(A, B);
  }

  /** Node `d` calls an output that has a body. */
  ghost predicate CallsBody(A: Arena, d: nat)
    requires ArenaOk(A) && d < |A.nodes|
  {
    assert NodeOk(A, d);
    A.nodes[d].Call? && A.funcs[A.nodes[d].f].outputs[A.nodes[d].out].Expr?
  }

  /** Under `r` no call of a body that was to be inlined is left. */
  ghost predicate NoneLeft(A: Arena, which: Pick, r: nat)
    requires ArenaOk(A)
  {
    r < |A.nodes| &&
    forall d: nat :: d < |A.nodes| && Reaches(A, r, d) && CallsBody(A, d) ==> !which(A.nodes[d].f)
  }

  /** Under `r` only external functions are called, and none of their outputs has a body. */
  ghost predicate OnlyExternal(A: Arena, r: nat)
    requires ArenaOk(A)
  {
    r < |A.nodes| &&
    forall d: nat :: d < |A.nodes| && Reaches(A, r, d) && A.nodes[d].Call? ==>
      !CallsBody(A, d) && A.nodes[d].f < |A.funcs| && A.funcs[A.nodes[d].f].external
  }

  /** Keeping to the functions that remain is that, read off the nodes reached. */
  lemma RemainingOnly(A: Arena, which: Pick, r: nat)
    requires ArenaOk(A) && r < |A.nodes| && Calls(A, r, Remaining(A, which))
    ensures NoneLeft(A, which, r)
    ensures (forall f :: which(f)) ==> OnlyExternal(A, r)
  {
    hide Calls, Reaches, Pure;
    forall d: nat | d < |A.nodes| && Reaches(A, r, d)
      ensures A.nodes[d].Call? ==> A.nodes[d].f in Remaining(A, which)
      ensures CallsBody(A, d) ==> !which(A.nodes[d].f) {
      ReachedCalls(A, r, Remaining(A, which), d);
      assert NodeOk(A, d);
      if CallsBody(A, d) { assert FuncOk(A, A.nodes[d].f); }
    }
  }

  /** `r` has the value of `e`, and no call is left in it but those an inlining leaves. */
  ghost predicate InlineOk<V(!new)>(W: World<V>, A: Arena, which: Pick, e: nat, r: nat)
    requires ArenaOk(A)
  { Equal(W, A, e, r) && Calls(A, r, Remaining(A, which)) }

  lemma InlineExtends<V(!new)>(W: World<V>, A: Arena, B: Arena, which: Pick, e: nat, r: nat)
    requires ArenaOk(A) && ArenaOk(B) && Extends(A, B) && InlineOk(W, A, which, e, r)
    ensures InlineOk(W, B, which, e, r)
  {
    EqualExtends(W, A, B, e, r);
    RemainingExtends(A, B, which);
    CallsExtends(A, B, r, Remaining(A, which), Remaining(B, which));
  }

  ghost predicate InlineMemo<V(!new)>(W: World<V>, A: Arena, which: Pick, memo: map<nat, nat>)
    requires ArenaOk(A)
  { forall e :: e in memo ==> InlineOk(W, A, which, e, memo[e]) }

  lemma InlineMemoExtends<V(!new)>(W: World<V>, A: Arena, B: Arena, which: Pick, memo: map<nat, nat>)
    requires ArenaOk(A) && ArenaOk(B) && Extends(A, B) && InlineMemo(W, A, which, memo)
    ensures InlineMemo(W, B, which, memo)
  {
    hide InlineOk;
    forall e | e in memo ensures InlineOk(W, B, which, e, memo[e]) { InlineExtends(W, A, B, which, e, memo[e]); }
  }

  /** The functions left called read nothing but their arguments: those not inlined. */
  ghost predicate KeptPure(A: Arena, which: Pick)
    requires ArenaOk(A)
  { forall f :: 0 <= f < |A.funcs| && !which(f) ==> ReadsNoGlobal(A, f) }

  lemma ExternalPure(A: Arena, f: nat)
    requires ArenaOk(A) && f < |A.funcs| && A.funcs[f].external
    ensures f in Pure(A)
  {
    hide Reads;
    assert FuncOk(A, f);
    forall s ensures !Global(A, f, s) {
      forall k | 0 <= k < |A.funcs[f].outputs| ensures !OutputReads(A, f, k, s) {}
    }
  }

  /** The operands inlined. */
  ghost predicate InlineOperands<V(!new)>(W: World<V>, A: Arena, which: Pick, e: nat, news: seq<nat>)
    requires ArenaOk(A)
  {
    && EqualOperands(W, A, e, news)
    && forall i :: 0 <= i < |news| ==> news[i] < |A.nodes| && Calls(A, news[i], Remaining(A, which))
  }

  lemma InlineOperandsExtend<V(!new)>(W: World<V>, A: Arena, B: Arena, which: Pick, e: nat, news: seq<nat>)
    requires ArenaOk(A) && ArenaOk(B) && Extends(A, B) && InlineOperands(W, A, which, e, news)
    ensures InlineOperands(W, B, which, e, news)
  {
    hide Equal, Calls;
    RemainingExtends(A, B, which);
    forall i | 0 <= i < |news|
      ensures Equal(W, B, A.nodes[e].Operands()[i], news[i]) && Calls(B, news[i], Remaining(B, which)) {
      EqualExtends(W, A, B, A.nodes[e].Operands()[i], news[i]);
      CallsExtends(A, B, news[i], Remaining(A, which), Remaining(B, which));
    }
  }

  lemma FromInlineMemo<V(!new)>(W: World<V>, A: Arena, which: Pick, memo: map<nat, nat>, e: nat, news: seq<nat>)
    requires ArenaOk(A) && InlineMemo(W, A, which, memo) && e < |A.nodes|
    requires (forall o :: o in A.nodes[e].Operands() ==> o in memo) && news == Rewritten(memo, A.nodes[e].Operands())
    ensures InlineOperands(W, A, which, e, news)
  {
    hide Equal, Calls;
    forall i | 0 <= i < |news|
      ensures Equal(W, A, A.nodes[e].Operands()[i], news[i]) && news[i] < |A.nodes|
              && Calls(A, news[i], Remaining(A, which)) {
      assert A.nodes[e].Operands()[i] in A.nodes[e].Operands();
      assert InlineOk(W, A, which, A.nodes[e].Operands()[i], news[i]);
      EqualExists(W, A, A.nodes[e].Operands()[i], news[i]);
    }
  }

  lemma InlineLeaf<V(!new)>(W: World<V>, A: Arena, which: Pick, e: nat)
    requires ArenaOk(A) && e < |A.nodes| && (A.nodes[e].Const? || A.nodes[e].Symbol?)
    ensures InlineOk(W, A, which, e, e)
  {
    assert NodeOk(A, e);
  }

  lemma InlineOp<V(!new)>(W: World<V>, A: Arena, which: Pick, e: nat, news: seq<nat>, r: nat)
    requires ArenaOk(A) && InlineOperands(W, A, which, e, news) && A.nodes[e].Op?
             && BuiltOk(W, A, A.nodes[e].op, news, r)
    ensures InlineOk(W, A, which, e, r)
  {
    hide Calls, Remaining;
    assert NodeOk(A, e);
    var args := A.nodes[e].args;
    forall i | 0 <= i < |args| ensures args[i] < e { assert args[i] in A.nodes[e].Operands(); }
    forall env: Env<V> ensures Eval(W, A, env, r) == Eval(W, A, env, e) {
      forall i | 0 <= i < |news| ensures Eval(W, A, env, news[i]) == Eval(W, A, env, args[i]) {
        assert Equal(W, A, args[i], news[i]);
      }
      assert Evals(W, A, env, news, |A.nodes|) == Evals(W, A, env, args, e);
    }
  }

  lemma InlineRebuilt<V(!new)>(W: World<V>, A: Arena, which: Pick, e: nat, news: seq<nat>, full: seq<nat>, r: nat)
    requires ArenaOk(A) && InlineOperands(W, A, which, e, news) && SameFull(W, A, e, full) && A.nodes[e].Call?
    requires CalledOk(W, A, A.nodes[e].f, A.nodes[e].out, full, r) && CallCalls(A, A.nodes[e].f, news, r)
             && A.nodes[e].f in Remaining(A, which)
    ensures InlineOk(W, A, which, e, r)
  {
    hide Calls, Remaining, SameFull, EqualOperands;
    RebuiltValue(W, A, e, full);
  }

  /** The substitution that inlining a call performs. */
  function BoundArgs(params: seq<nat>, full: seq<nat>): (m: Map)
    requires |full| == |params|
    ensures forall s :: s in m <==> s in params
    ensures forall s :: s in m ==> m[s] == full[IndexOf(params, s)]
  {
    map s | s in params :: full[IndexOf(params, s)]
  }

  /** A body over its parameters with a call's operands put in has the call's value. */
  lemma InlinedValue<V(!new)>(W: World<V>, A: Arena, which: Pick, e: nat, full: seq<nat>, body: nat, r: nat,
                                 env: Env<V>)
    requires ArenaOk(A) && SameFull(W, A, e, full) && A.nodes[e].Call? && NodeOk(A, e)
    requires var n := A.nodes[e]; var fn := A.funcs[n.f];
             && |full| == |fn.params| && fn.outputs[n.out].Expr? && Equal(W, A, fn.outputs[n.out].e, body)
                && Calls(A, body, Remaining(A, which))
             && MapOk(A, BoundArgs(fn.params, full)) && SubstOk(W, A, BoundArgs(fn.params, full), body, r)
    ensures Eval(W, A, env, r) == Eval(W, A, env, e)
  {
    hide SameFull, Compose, Calls, Reads;
    CallOf(W, A, e, full);
    var n := A.nodes[e];
    var params, b := A.funcs[n.f].params, A.funcs[n.f].outputs[n.out].e;
    var m := BoundArgs(params, full);
    FullValues(W, A, e, full, env);
    CallsMore(A, body, Remaining(A, which), Pure(A));
    PureFree(A, m, body);
    var inner := Compose(W, A, env, m);
    assert Eval(W, A, env, r) == Eval(W, A, inner, body) == Eval(W, A, inner, b);
    var vals := Evals(W, A, env, full, |A.nodes|);
    var outer := BindEnv(env, params, vals);
    forall s ensures Look(W, inner, s) == Look(W, outer, s) {
      if s in params { EvalsAt(W, A, env, full, |A.nodes|, IndexOf(params, s)); }
    }
    EvalAgrees(W, A, inner, outer, b);
  }

  lemma InlinedOk<V(!new)>(W: World<V>, A: Arena, which: Pick, e: nat, news: seq<nat>, full: seq<nat>,
                              body: nat, r: nat)
    requires ArenaOk(A) && InlineOperands(W, A, which, e, news) && SameFull(W, A, e, full) && A.nodes[e].Call?
             && NodeOk(A, e)
    requires forall i :: 0 <= i < |full| ==> full[i] in news
    requires var n := A.nodes[e]; var fn := A.funcs[n.f];
             && |full| == |fn.params| && fn.outputs[n.out].Expr? && InlineOk(W, A, which, fn.outputs[n.out].e, body)
             && MapOk(A, BoundArgs(fn.params, full)) && SubstOk(W, A, BoundArgs(fn.params, full), body, r)
    ensures InlineOk(W, A, which, e, r)
  {
    hide SameFull, Calls, EqualOperands, Uncaptured, SameValue;
    CallOf(W, A, e, full);
    var m := BoundArgs(A.funcs[A.nodes[e].f].params, full);
    forall env: Env<V> ensures Eval(W, A, env, r) == Eval(W, A, env, e) {
      InlinedValue(W, A, which, e, full, body, r, env);
    }
    forall s | s in m ensures Calls(A, m[s], Remaining(A, which)) {
      assert m[s] in news;
      var i :| 0 <= i < |news| && news[i] == m[s];
    }
  }

  // --- the bodies and instances kept -----------------------------------------------------------------

  type Bodies = map<(nat, nat), nat>

  ghost predicate BodyOk<V(!new)>(W: World<V>, A: Arena, which: Pick, f: nat, k: nat, body: nat)
    requires ArenaOk(A)
  { f < |A.funcs| && k < |A.funcs[f].outputs| && A.funcs[f].outputs[k].Expr?
   && InlineOk(W, A, which, A.funcs[f].outputs[k].e, body) }

  /** What the tables know of a function already inlined, per output. */
  ghost predicate BodiesOk<V(!new)>(W: World<V>, A: Arena, which: Pick, bodies: Bodies)
    requires ArenaOk(A)
  { forall key :: key in bodies ==> BodyOk(W, A, which, key.0, key.1, bodies[key]) }

  datatype Site = Site(f: nat, ctx: Context, list: seq<nat>)

  type Instances = map<Site, map<nat, nat>>

  ghost predicate InstanceOk<V(!new)>(W: World<V>, A: Arena, s: Site, memo: map<nat, nat>)
    requires ArenaOk(A)
  {
    && s.f < |A.funcs| && ContextOk(s.ctx, |A.funcs[s.f].params|) && |s.list| == Arity(s.ctx, |A.funcs[s.f].params|)
    && var m := BoundArgs(A.funcs[s.f].params, FullArgs(s.ctx, |A.funcs[s.f].params|, s.list));
       MapOk(A, m) && MemoOk(W, A, m, memo)
  }

  /** Every instance's body as far as it is rewritten over its operands. */
  ghost predicate InstancesOk<V(!new)>(W: World<V>, A: Arena, insts: Instances)
    requires ArenaOk(A)
  { forall s :: s in insts ==> InstanceOk(W, A, s, insts[s]) }

  lemma {:induction false} TablesExtend<V(!new)>(W: World<V>, A: Arena, B: Arena, which: Pick, bodies: Bodies,
                                                      insts: Instances)
    requires ArenaOk(A) && ArenaOk(B) && Extends(A, B) && BodiesOk(W, A, which, bodies) && InstancesOk(W, A, insts)
    ensures BodiesOk(W, B, which, bodies) && InstancesOk(W, B, insts)
  {
    hide InlineOk, MemoOk;
    forall key | key in bodies ensures BodyOk(W, B, which, key.0, key.1, bodies[key]) {
      assert BodyOk(W, A, which, key.0, key.1, bodies[key]);
      InlineExtends(W, A, B, which, A.funcs[key.0].outputs[key.1].e, bodies[key]);
    }
    forall s | s in insts ensures InstanceOk(W, B, s, insts[s]) {
      assert InstanceOk(W, A, s, insts[s]);
      MemoExtends(W, A, B, BoundArgs(A.funcs[s.f].params, FullArgs(s.ctx, |A.funcs[s.f].params|, s.list)), insts[s]);
    }
  }

  // --- the rewrite -------------------------------------------------------------------------------------

  /** A call whose function is inlined: its body, inlined over the parameters, with the call's
      operands put in. */
  method InlineBody<V(!new)>(g: CallGraph<V>, ghost which: Pick, e: nat, news: seq<nat>, l: seq<nat>, c: Context,
                             bodies: Bodies, insts0: Instances)
    returns (r: nat, insts: Instances)
    requires g.Valid() && e < |g.nodes| && g.nodes[e].Call? && NodeOk(g.A(), e)
             && InlineOperands(g.W, g.A(), which, e, news) && l + c.Exprs() == news
    requires BodiesOk(g.W, g.A(), which, bodies) && InstancesOk(g.W, g.A(), insts0)
             && (g.nodes[e].f, g.nodes[e].out) in bodies
    requires var n := g.nodes[e]; var k := |g.funcs[n.f].params|;
             ContextOk(c, k) && |l| == |n.list| && (c.NoContext? <==> n.ctx.NoContext?)
                 && (c.Context? ==> c.at == n.ctx.at)
    modifies g
    ensures g.Valid() && Extends(old(g.A()), g.A()) && BodiesOk(g.W, g.A(), which, bodies)
            && InstancesOk(g.W, g.A(), insts)
    ensures InlineOk(g.W, g.A(), which, e, r)
  {
    hide GraphOk, SoundFolds, Calls, SameFull, InlineOk, InlineOperands, MemoOk, SubstOk, Equal, ContextOk, FuncOk;
    ghost var A0 := g.A();
    var f, out := g.nodes[e].f, g.nodes[e].out;
    var params := g.funcs[f].params;
    OperandsEqual(g.W, A0, which, e, news);
    FullSame(g.W, A0, e, news, l, c);
    var full := FullArgs(c, |params|, l);
    var body, s, m := bodies[(f, out)], Site(f, c, l), BoundArgs(params, full);
    assert BodyOk(g.W, A0, which, f, out, body);
    InlineExists(g.W, A0, which, g.funcs[f].outputs[out].e, body);
    BoundExists(g.W, A0, which, e, news, params, full);
    NoMemo(g.W, A0, m);
    var memo0 := if s in insts0 then insts0[s] else map[];
    assert s in insts0 ==> InstanceOk(g.W, A0, s, insts0[s]);
    ghost var h := TopOf(g.funcs);
    AllLow(A0, body, h);
    var memo := g.SubstituteFrom([body], m, memo0, h);
    ghost var A1 := g.A();
    assert body in [body];
    r := memo[body];
    MemoHas(g.W, A1, m, memo, body);
    TablesExtend(g.W, A0, A1, which, bodies, insts0);
    InlineOperandsExtend(g.W, A0, A1, which, e, news);
    SameFullExtends(g.W, A0, A1, e, full);
    InlineExtends(g.W, A0, A1, which, A0.funcs[f].outputs[out].e, body);
    InlinedOk(g.W, A1, which, e, news, full, body, r);
    insts := insts0[s := memo];
    assert InstanceOk(g.W, A1, s, memo);
  }

  lemma OperandsEqual<V(!new)>(W: World<V>, A: Arena, which: Pick, e: nat, news: seq<nat>)
    requires ArenaOk(A) && InlineOperands(W, A, which, e, news)
    ensures EqualOperands(W, A, e, news) && e < |A.nodes| && |news| == |A.nodes[e].Operands()|
            && forall i :: 0 <= i < |news| ==> news[i] < |A.nodes|
  {
  }

  lemma InlineExists<V(!new)>(W: World<V>, A: Arena, which: Pick, e: nat, r: nat)
    requires ArenaOk(A) && InlineOk(W, A, which, e, r)
    ensures e < |A.nodes| && r < |A.nodes|
  {
  }

  lemma MemoHas<V(!new)>(W: World<V>, A: Arena, m: Map, memo: map<nat, nat>, e: nat)
    requires ArenaOk(A) && MapOk(A, m) && MemoOk(W, A, m, memo) && e in memo
    ensures SubstOk(W, A, m, e, memo[e])
  {
    hide SubstOk;
  }

  lemma BoundExists<V(!new)>(W: World<V>, A: Arena, which: Pick, e: nat, news: seq<nat>, params: seq<nat>,
                                full: seq<nat>)
    requires ArenaOk(A) && InlineOperands(W, A, which, e, news) && |full| == |params|
             && forall i :: 0 <= i < |full| ==> full[i] in news
    ensures MapOk(A, BoundArgs(params, full))
  {
    hide EqualOperands, Calls;
    forall s | s in params ensures full[IndexOf(params, s)] < |A.nodes| {
      assert full[IndexOf(params, s)] in news;
    }
  }

  /** A call rewritten, its operands being inlined. */
  method InlineCall<V(!new)>(g: CallGraph<V>, e: nat, news: seq<nat>, which: Pick, bodies0: Bodies,
                             insts0: Instances, ghost A0: Arena, ghost h: nat)
    returns (r: nat, bodies: Bodies, insts: Instances)
    requires g.Valid() && ArenaOk(A0) && HeightsOk(A0) && KeptPure(A0, which) && Extends(A0, g.A()) && e < |A0.nodes|
             && A0.nodes[e].Call?
    requires Calls(A0, e, Lower(A0, h)) && InlineOperands(g.W, g.A(), which, e, news)
    requires BodiesOk(g.W, g.A(), which, bodies0) && InstancesOk(g.W, g.A(), insts0)
    modifies g
    ensures g.Valid() && Extends(old(g.A()), g.A()) && BodiesOk(g.W, g.A(), which, bodies)
            && InstancesOk(g.W, g.A(), insts)
    ensures InlineOk(g.W, g.A(), which, e, r)
    decreases h, 0
  {
    hide GraphOk, SoundFolds, Calls, SameFull, InlineOk, InlineOperands, EqualOperands, BodiesOk, InstancesOk,
         HeightsOk, KeptPure, ContextOk, FuncOk, CalledOk, CallCalls;
    CallFacts(A0, e, h);
    ghost var A1 := g.A();
    var Call(f, out, ctx, list) := g.nodes[e];
    OperandsEqual(g.W, A1, which, e, news);
    assert NodeOk(A1, e);
    bodies, insts := bodies0, insts0;
    var l, exprs := news[..|list|], news[|list|..];
    var k := |g.funcs[f].params|;
    var c := g.ContextOver(ctx, f, k, exprs);
    assert l + c.Exprs() == news;
    FullSame(g.W, A1, e, news, l, c);
    var o := g.funcs[f].outputs[out];
    if o.Zero? {
      r := g.Intern(Const(g.W.zero));
      TablesExtend(g.W, A1, g.A(), which, bodies, insts);
      SameFullExtends(g.W, A1, g.A(), e, FullArgs(c, k, l));
      ZeroInlined(g.W, g.A(), which, e, FullArgs(c, k, l), r);
    } else if o.External? || !which(f) {
      StaysRemaining(A0, A1, which, f, out);
      r := g.CallListIn(f, out, c, l);
      ghost var A2 := g.A();
      TablesExtend(g.W, A1, A2, which, bodies, insts);
      InlineOperandsExtend(g.W, A1, A2, which, e, news);
      SameFullExtends(g.W, A1, A2, e, FullArgs(c, k, l));
      RemainingExtends(A1, A2, which);
      InlineRebuilt(g.W, A2, which, e, news, FullArgs(c, k, l), r);
    } else {
      if (f, out) !in bodies {
        bodies, insts := InlineBodies(g, f, which, bodies, insts, A0);
        InlineOperandsExtend(g.W, A1, g.A(), which, e, news);
        HasBody(bodies, g.funcs[f].outputs, f, out);
      }
      assert NodeOk(g.A(), e);
      r, insts := InlineBody(g, which, e, news, l, c, bodies, insts);
    }
  }

  lemma HasBody(bodies: Bodies, outputs: seq<Output>, f: nat, out: nat)
    requires out < |outputs| && outputs[out].Expr?
             && forall k :: 0 <= k < |outputs| && outputs[k].Expr? ==> (f, k) in bodies
    ensures (f, out) in bodies
  {
  }

  lemma ZeroInlined<V(!new)>(W: World<V>, A: Arena, which: Pick, e: nat, full: seq<nat>, r: nat)
    requires ArenaOk(A) && SameFull(W, A, e, full) && A.nodes[e].Call?
             && A.funcs[A.nodes[e].f].outputs[A.nodes[e].out].Zero?
    requires r < |A.nodes| && A.nodes[r] == Const(W.zero)
    ensures InlineOk(W, A, which, e, r)
  {
    hide SameFull;
    CallOf(W, A, e, full);
    assert NodeOk(A, r);
    forall env: Env<V> ensures Eval(W, A, env, r) == Eval(W, A, env, e) { FullValues(W, A, e, full, env); }
  }

  lemma StaysRemaining(A: Arena, B: Arena, which: Pick, f: nat, out: nat)
    requires ArenaOk(A) && ArenaOk(B) && Extends(A, B) && KeptPure(A, which) && f < |A.funcs|
             && out < |A.funcs[f].outputs|
    requires A.funcs[f].outputs[out].External? || !which(f)
    ensures f in Remaining(B, which)
  {
    RemainingExtends(A, B, which);
    if A.funcs[f].outputs[out].External? {
      assert FuncOk(A, f);
      ExternalPure(A, f);
    }
  }

  /** Every output of `f` inlined over its parameters. */
  method InlineBodies<V(!new)>(g: CallGraph<V>, f: nat, which: Pick, bodies0: Bodies, insts0: Instances,
                               ghost A0: Arena)
    returns (bodies: Bodies, insts: Instances)
    requires g.Valid() && ArenaOk(A0) && HeightsOk(A0) && KeptPure(A0, which) && Extends(A0, g.A()) && f < |A0.funcs|
    requires BodiesOk(g.W, g.A(), which, bodies0) && InstancesOk(g.W, g.A(), insts0)
    modifies g
    ensures g.Valid() && Extends(old(g.A()), g.A()) && BodiesOk(g.W, g.A(), which, bodies)
            && InstancesOk(g.W, g.A(), insts)
    ensures forall k :: 0 <= k < |A0.funcs[f].outputs| && A0.funcs[f].outputs[k].Expr? ==> (f, k) in bodies
    decreases A0.funcs[f].height, 3
  {
    hide GraphOk, SoundFolds, Calls, InlineMemo, BodiesOk, InstancesOk, KeptPure, HeightsOk;
    var outputs := g.funcs[f].outputs;
    var exprs := ExprsOf(outputs);
    BodiesIn(A0, f, exprs);
    var memo;
    memo, bodies, insts := InlineWith(g, exprs, which, bodies0, insts0, A0, A0.funcs[f].height);
    ghost var A1 := g.A();
    for k := 0 to |outputs|
      invariant g.A() == A1 && g.Valid() && BodiesOk(g.W, A1, which, bodies)
      invariant forall i :: 0 <= i < k && outputs[i].Expr? ==> (f, i) in bodies
    {
      if outputs[k].Expr? {
        assert outputs[k].e in exprs;
        BodyAdds(g.W, A1, which, bodies, f, k, memo);
        bodies := bodies[(f, k) := memo[outputs[k].e]];
      }
    }
  }

  lemma BodyAdds<V(!new)>(W: World<V>, A: Arena, which: Pick, bodies: Bodies, f: nat, k: nat, memo: map<nat, nat>)
    requires ArenaOk(A) && BodiesOk(W, A, which, bodies) && InlineMemo(W, A, which, memo) && f < |A.funcs|
    requires k < |A.funcs[f].outputs| && A.funcs[f].outputs[k].Expr? && A.funcs[f].outputs[k].e in memo
    ensures BodiesOk(W, A, which, bodies[(f, k) := memo[A.funcs[f].outputs[k].e]])
  {
    hide InlineOk;
    assert BodyOk(W, A, which, f, k, memo[A.funcs[f].outputs[k].e]);
  }

  lemma BodiesIn(A: Arena, f: nat, exprs: seq<nat>)
    requires ArenaOk(A) && HeightsOk(A) && f < |A.funcs| && forall e :: e in exprs ==> Expr(e) in A.funcs[f].outputs
    ensures forall e :: e in exprs ==> e < |A.nodes| && Calls(A, e, Lower(A, A.funcs[f].height))
  {
    hide Calls;
    assert FuncOk(A, f) && HeightOk(A, f);
    forall e | e in exprs ensures e < |A.nodes| && Calls(A, e, Lower(A, A.funcs[f].height)) {
      var k :| 0 <= k < |A.funcs[f].outputs| && A.funcs[f].outputs[k] == Expr(e);
    }
  }

  method InlineOne<V(!new)>(g: CallGraph<V>, e: nat, memo: map<nat, nat>, which: Pick, bodies0: Bodies,
                            insts0: Instances, ghost A0: Arena, ghost h: nat)
    returns (r: nat, bodies: Bodies, insts: Instances)
    requires g.Valid() && ArenaOk(A0) && HeightsOk(A0) && KeptPure(A0, which) && Extends(A0, g.A()) && e < |A0.nodes|
    requires Calls(A0, e, Lower(A0, h)) && InlineMemo(g.W, g.A(), which, memo)
             && forall o :: o in A0.nodes[e].Operands() ==> o in memo
    requires BodiesOk(g.W, g.A(), which, bodies0) && InstancesOk(g.W, g.A(), insts0)
    modifies g
    ensures g.Valid() && Extends(old(g.A()), g.A()) && BodiesOk(g.W, g.A(), which, bodies)
            && InstancesOk(g.W, g.A(), insts)
    ensures InlineOk(g.W, g.A(), which, e, r)
    decreases h, 1
  {
    hide GraphOk, SoundFolds, Calls, InlineOk, InlineMemo, InlineOperands, BodiesOk, InstancesOk, HeightsOk, KeptPure,
         BuiltOk;
    ghost var A1 := g.A();
    bodies, insts := bodies0, insts0;
    match g.nodes[e] {
      case Op(op, args) =>
        var news := Rewritten(memo, g.nodes[e].Operands());
        FromInlineMemo(g.W, A1, which, memo, e, news);
        OperandsEqual(g.W, A1, which, e, news);
        r := g.Build(op, news);
        TablesExtend(g.W, A1, g.A(), which, bodies, insts);
        InlineOperandsExtend(g.W, A1, g.A(), which, e, news);
        InlineOp(g.W, g.A(), which, e, news, r);
      case Call(_, _, _, _) =>
        var news := Rewritten(memo, g.nodes[e].Operands());
        FromInlineMemo(g.W, A1, which, memo, e, news);
        r, bodies, insts := InlineCall(g, e, news, which, bodies0, insts0, A0, h);
      case _ =>
        r := e;
        InlineLeaf(g.W, A1, which, e);
    }
  }

  lemma DownwardExtends(A: Arena, B: Arena, fs: iset<nat>)
    requires ArenaOk(A) && ArenaOk(B) && Extends(A, B)
    ensures Downward(B.nodes, Calling(A, fs)) && Ordered(B.nodes)
  {
    hide Calls;
    CallingDownward(A, fs);
    CallingDownward(B, fs);
  }

  /** Every node under `roots`, the calls into the functions of `which` replaced by their
      bodies, to the bottom. */
  method InlineWith<V(!new)>(g: CallGraph<V>, roots: seq<nat>, which: Pick, bodies0: Bodies, insts0: Instances,
                             ghost A0: Arena, ghost h: nat)
    returns (memo: map<nat, nat>, bodies: Bodies, insts: Instances)
    requires g.Valid() && ArenaOk(A0) && HeightsOk(A0) && KeptPure(A0, which) && Extends(A0, g.A())
    requires forall e :: e in roots ==> e < |A0.nodes| && Calls(A0, e, Lower(A0, h))
    requires BodiesOk(g.W, g.A(), which, bodies0) && InstancesOk(g.W, g.A(), insts0)
    modifies g
    ensures g.Valid() && Extends(old(g.A()), g.A()) && BodiesOk(g.W, g.A(), which, bodies)
            && InstancesOk(g.W, g.A(), insts)
    ensures InlineMemo(g.W, g.A(), which, memo) && forall e :: e in roots ==> e in memo
    decreases h, 2
  {
    hide GraphOk, SoundFolds, Calls, InlineOk, BodiesOk, InstancesOk, HeightsOk, KeptPure, Schedule, Downward, Ordered;
    ghost var A1, p := g.A(), Calling(A0, Lower(A0, h));
    DownwardExtends(A0, A1, Lower(A0, h));
    var order := Schedules(g.nodes, roots, {});
    memo, bodies, insts := map[], bodies0, insts0;
    for i := 0 to |order|
      invariant g.Valid() && Extends(A1, g.A()) && BodiesOk(g.W, g.A(), which, bodies) && InstancesOk(g.W, g.A(), insts)
      invariant InlineMemo(g.W, g.A(), which, memo)
      invariant forall e :: e in memo <==> e in order[..i]
    {
      var e := order[i];
      ghost var A2 := g.A();
      ScheduleAt(A1.nodes, roots, {}, order, p, i);
      var r;
      r, bodies, insts := InlineOne(g, e, memo, which, bodies, insts, A0, h);
      InlineMemoExtends(g.W, A2, g.A(), which, memo);
      memo := memo[e := r];
    }
    ScheduleRoots(A1.nodes, roots, {}, order);
  }

  /** Inlining keeps every root's value in every environment as long as the calls it leaves
      read nothing but their arguments; and of the bodies picked no call is left. */
  method InlineWhere<V(!new)>(g: CallGraph<V>, roots: seq<nat>, which: Pick) returns (out: seq<nat>)
    requires g.Valid() && KeptPure(g.A(), which) && forall e :: e in roots ==> e < |g.nodes|
    modifies g
    ensures g.Valid() && Extends(old(g.A()), g.A()) && |out| == |roots|
    ensures forall i :: 0 <= i < |roots| ==> InlineOk(g.W, g.A(), which, roots[i], out[i])
    ensures forall i :: 0 <= i < |roots| ==> NoneLeft(g.A(), which, out[i])
  {
    hide SoundFolds, Calls, InlineOk, ReboundOk, HeightOk, KeptPure, NoneLeft;
    ghost var h, A0 := TopOf(g.funcs), g.A();
    forall e | e in roots ensures Calls(A0, e, Lower(A0, h)) { AllLow(A0, e, h); }
    var memo, _, _ := InlineWith(g, roots, which, map[], map[], A0, h);
    out := Rewritten(memo, roots);
    forall i | 0 <= i < |roots|
      ensures InlineOk(g.W, g.A(), which, roots[i], out[i]) && NoneLeft(g.A(), which, out[i]) {
      assert roots[i] in roots;
      InlineLeaves(g.W, g.A(), which, roots[i], out[i]);
    }
  }

  lemma InlineLeaves<V(!new)>(W: World<V>, A: Arena, which: Pick, e: nat, r: nat)
    requires ArenaOk(A) && InlineOk(W, A, which, e, r)
    ensures Equal(W, A, e, r) && NoneLeft(A, which, r) && ((forall f :: which(f)) ==> OnlyExternal(A, r))
  {
    hide Calls, Remaining;
    RemainingOnly(A, which, r);
  }

  /** Every call inlined, to the bottom: the values stay, with nothing asked of the roots, and
      only external functions are called still. */
  method InlineAll<V(!new)>(g: CallGraph<V>, roots: seq<nat>) returns (out: seq<nat>)
    requires g.Valid() && forall e :: e in roots ==> e < |g.nodes|
    modifies g
    ensures g.Valid() && Extends(old(g.A()), g.A()) && |out| == |roots|
    ensures forall i :: 0 <= i < |roots| ==> Equal(g.W, g.A(), roots[i], out[i]) && OnlyExternal(g.A(), out[i])
  {
    hide GraphOk, SoundFolds, Equal, Calls, InlineOk, OnlyExternal;
    var which: Pick := _ => true;
    out := InlineWhere(g, roots, which);
    forall i | 0 <= i < |roots| ensures Equal(g.W, g.A(), roots[i], out[i]) && OnlyExternal(g.A(), out[i]) {
      InlineLeaves(g.W, g.A(), which, roots[i], out[i]);
    }
  }
}
