/** Expressions with functions and calls, and their values: a call binds its function's
    parameters over the caller's environment, so what a body reads beyond them it reads
    there, a caller's parameter included. */
module Arenas {
  import opened Basics
  import opened Bindings
  import opened Rewriting

  /** An output of a function: an expression over its parameters, a slot of an external body,
      or nothing but zero. */
  datatype Output = Expr(e: nat) | External(k: nat) | Zero

  /** `keeps` marks the parameters whose work is the body's prolog; `height` bounds the calls
      nested below, see `HeightOk`. */
  datatype Function = Function(params: seq<nat>, keeps: seq<bool>, external: bool, outputs: seq<Output>, height: nat)

  datatype Arena = Arena(nodes: seq<Node>, funcs: seq<Function>)

  /** The scalar: constants, operations, external bodies, what an unbound symbol reads; what
      constants fold to. */
  datatype World<!V> = World(unbound: V, konst: nat -> V, op: (nat, seq<V>) -> V, ext: (nat, nat, seq<V>) -> V,
                             zero: nat, fold: (nat, seq<nat>) -> Option<nat>)

  /** The symbols bound. */
  type Env<V> = map<nat, V>

  function Look<V>(W: World<V>, env: Env<V>, s: nat): V { if s in env then env[s] else W.unbound }

  ghost predicate OutputOk(o: Output, external: bool, bound: nat) {
    (o.Expr? ==> o.e < bound && !external) && (o.External? ==> external)
  }

  ghost predicate FuncOk(A: Arena, f: nat)
    requires f < |A.funcs|
  {
    var fn := A.funcs[f];
    && Distinct(fn.params) && |fn.keeps| == |fn.params|
    && forall k :: 0 <= k < |fn.outputs| ==> OutputOk(fn.outputs[k], fn.external, |A.nodes|)
  }

  /** Operands and called bodies come before a node; a call has as many arguments as its
      context leaves parameters. */
  ghost predicate NodeOk(A: Arena, e: nat)
    requires e < |A.nodes|
  {
    var n := A.nodes[e];
    && (forall o :: o in n.Operands() ==> o < e)
    && (n.Call? ==>
          && n.f < |A.funcs| && n.out < |A.funcs[n.f].outputs|
             && OutputOk(A.funcs[n.f].outputs[n.out], A.funcs[n.f].external, e)
          && ContextOk(n.ctx, |A.funcs[n.f].params|) && |n.list| == Arity(n.ctx, |A.funcs[n.f].params|))
  }

  ghost predicate ArenaOk(A: Arena) {
    (forall e :: 0 <= e < |A.nodes| ==> NodeOk(A, e)) && (forall f :: 0 <= f < |A.funcs| ==> FuncOk(A, f))
  }

  // --- values ---------------------------------------------------------------------------------------

  function IndexOf(s: seq<nat>, x: nat): (i: nat)
    requires x in s
    ensures i < |s| && s[i] == x
  {
    if s[0] == x then 0 else 1 + IndexOf(s[1..], x)
  }

  /** `env` with the parameters bound. */
  function BindEnv<V>(env: Env<V>, params: seq<nat>, vals: seq<V>): (r: Env<V>)
    requires |vals| == |params|
    ensures forall s :: s in r <==> s in params || s in env
    ensures forall s :: s in r ==> r[s] == if s in params then vals[IndexOf(params, s)] else env[s]
  {
    map s | s in env.Keys + (set p | p in params) :: if s in params then vals[IndexOf(params, s)] else env[s]
  }

  ghost function Eval<V>(W: World<V>, A: Arena, env: Env<V>, e: nat): V
    requires ArenaOk(A) && e < |A.nodes|
    decreases e, 2
  {
    assert NodeOk(A, e);
    match A.nodes[e]
    case Const(c) => W.konst(c)
    case Symbol(s) => Look(W, env, s)
    case Op(op, args) =>
      assert forall i :: 0 <= i < |args| ==> args[i] in A.nodes[e].Operands();
      W.op(op, Evals(W, A, env, args, e))
    case Call(f, out, ctx, list) =>
      var full := FullArgs(ctx, |A.funcs[f].params|, list);
      assert forall i :: 0 <= i < |full| ==> full[i] < e by { FullBelow(A, e); }
      CallValue(W, A, env, f, out, Evals(W, A, env, full, e), e)
  }

  ghost function Evals<V>(W: World<V>, A: Arena, env: Env<V>, es: seq<nat>, bound: nat): (r: seq<V>)
    requires ArenaOk(A) && bound <= |A.nodes| && forall i :: 0 <= i < |es| ==> es[i] < bound
    ensures |r| == |es|
    decreases bound, 0
  {
    seq(|es|, i requires 0 <= i < |es| => Eval(W, A, env, es[i]))
  }

  /** Output `out` of `f` where its parameters are `vals`, in the caller's environment. */
  ghost function CallValue<V>(W: World<V>, A: Arena, env: Env<V>, f: nat, out: nat, vals: seq<V>, bound: nat): V
    requires ArenaOk(A) && bound <= |A.nodes| && f < |A.funcs| && out < |A.funcs[f].outputs|
             && |vals| == |A.funcs[f].params|
    requires OutputOk(A.funcs[f].outputs[out], A.funcs[f].external, bound)
    decreases bound, 1
  {
    match A.funcs[f].outputs[out]
    case Zero => W.konst(W.zero)
    case External(k) => W.ext(f, k, vals)
    case Expr(b) => Eval(W, A, BindEnv(env, A.funcs[f].params, vals), b)
  }

  lemma FullBelow(A: Arena, e: nat)
    requires e < |A.nodes| && A.nodes[e].Call? && NodeOk(A, e)
    ensures var n := A.nodes[e]; forall i :: 0 <= i < |A.funcs[n.f].params| ==>
            FullArgs(n.ctx, |A.funcs[n.f].params|, n.list)[i] < e
  {
    var n := A.nodes[e];
    forall i | 0 <= i < |A.funcs[n.f].params| ensures FullArgs(n.ctx, |A.funcs[n.f].params|, n.list)[i] < e {
      FullAmong(n.ctx, |A.funcs[n.f].params|, n.list, i);
      assert FullArgs(n.ctx, |A.funcs[n.f].params|, n.list)[i] in n.Operands();
    }
  }

  lemma EvalsAt<V>(W: World<V>, A: Arena, env: Env<V>, es: seq<nat>, bound: nat, i: nat)
    requires ArenaOk(A) && bound <= |A.nodes| && (forall i :: 0 <= i < |es| ==> es[i] < bound) && i < |es|
    ensures Evals(W, A, env, es, bound)[i] == Eval(W, A, env, es[i])
  {
  }

  // --- what an expression reads -------------------------------------------------------------------------

  /** Whether the value of `e` reads symbol `s`: mentions it, or calls a body that does and
      does not bind it. */
  predicate Reads(A: Arena, e: nat, s: nat)
    requires ArenaOk(A) && e < |A.nodes|
    decreases e
  {
    assert NodeOk(A, e);
    var n := A.nodes[e];
    || n == Symbol(s)
    || (exists i :: 0 <= i < |n.Operands()| && Below1(n.Operands()[i], e) && Reads(A, n.Operands()[i], s))
    || (n.Call? && A.funcs[n.f].outputs[n.out].Expr? && s !in A.funcs[n.f].params
        && Reads(A, A.funcs[n.f].outputs[n.out].e, s))
  }

  predicate Below1(o: nat, e: nat) { o < e }

  /** A global of `f`: a symbol some output reads that is no parameter. */
  predicate Global(A: Arena, f: nat, s: nat)
    requires ArenaOk(A) && f < |A.funcs|
  {
    assert FuncOk(A, f);
    s !in A.funcs[f].params && exists k :: 0 <= k < |A.funcs[f].outputs| && OutputReads(A, f, k, s)
  }

  predicate OutputReads(A: Arena, f: nat, k: nat, s: nat)
    requires ArenaOk(A) && f < |A.funcs| && k < |A.funcs[f].outputs|
  {
    assert FuncOk(A, f);
    A.funcs[f].outputs[k].Expr? && Reads(A, A.funcs[f].outputs[k].e, s)
  }

  lemma ReadsOperand(A: Arena, e: nat, i: nat, s: nat)
    requires ArenaOk(A) && e < |A.nodes| && i < |A.nodes[e].Operands()|
    ensures A.nodes[e].Operands()[i] < e
    ensures Reads(A, A.nodes[e].Operands()[i], s) ==> Reads(A, e, s)
  {
    assert NodeOk(A, e);
    assert A.nodes[e].Operands()[i] in A.nodes[e].Operands();
    assert Below1(A.nodes[e].Operands()[i], e);
  }

  /** Environments that agree on what an expression reads give it one value. */
  lemma {:induction false} EvalAgrees<V>(W: World<V>, A: Arena, env: Env<V>, env': Env<V>, e: nat)
    requires ArenaOk(A) && e < |A.nodes| && forall s :: Reads(A, e, s) ==> Look(W, env, s) == Look(W, env', s)
    ensures Eval(W, A, env, e) == Eval(W, A, env', e)
    decreases e
  {
    hide Reads;
    assert NodeOk(A, e);
    var n := A.nodes[e];
    forall i | 0 <= i < |n.Operands()|
      ensures n.Operands()[i] < e && Eval(W, A, env, n.Operands()[i]) == Eval(W, A, env', n.Operands()[i]) {
      forall s | n.Operands()[i] < e && Reads(A, n.Operands()[i], s) ensures Look(W, env, s) == Look(W, env', s) {
        ReadsOperand(A, e, i, s);
      }
      ReadsOperand(A, e, i, 0);
      EvalAgrees(W, A, env, env', n.Operands()[i]);
    }
    match n
    case Const(_) =>
    case Symbol(s) =>
      assert Reads(A, e, s) by { ReadsSelf(A, e); }
    case Op(op, args) =>
      assert Evals(W, A, env, args, e) == Evals(W, A, env', args, e);
    case Call(f, out, ctx, list) =>
      CallAgrees(W, A, env, env', e);
      var o := A.funcs[f].outputs[out];
      if o.Expr? {
        FullBelow(A, e);
        var params := A.funcs[f].params;
        var vals := Evals(W, A, env, FullArgs(ctx, |params|, list), e);
        var in1, in2 := BindEnv(env, params, vals), BindEnv(env', params, vals);
        forall s | Reads(A, o.e, s) ensures Look(W, in1, s) == Look(W, in2, s) {
          if s !in params { assert Reads(A, e, s) by { ReadsBody(A, e, s); } }
        }
        EvalAgrees(W, A, in1, in2, o.e);
      }
  }

  lemma ReadsSelf(A: Arena, e: nat)
    requires ArenaOk(A) && e < |A.nodes| && A.nodes[e].Symbol?
    ensures Reads(A, e, A.nodes[e].s)
  {
  }

  lemma ReadsBody(A: Arena, e: nat, s: nat)
    requires ArenaOk(A) && e < |A.nodes| && A.nodes[e].Call? && NodeOk(A, e)
    requires var n := A.nodes[e];
             A.funcs[n.f].outputs[n.out].Expr? && s !in A.funcs[n.f].params
                 && Reads(A, A.funcs[n.f].outputs[n.out].e, s)
    ensures Reads(A, e, s)
  {
  }

  /** The operands' values of a call, its operands agreeing. */
  lemma CallAgrees<V>(W: World<V>, A: Arena, env: Env<V>, env': Env<V>, e: nat)
    requires ArenaOk(A) && e < |A.nodes| && A.nodes[e].Call? && NodeOk(A, e)
    requires forall i :: 0 <= i < |A.nodes[e].Operands()| ==>
               A.nodes[e].Operands()[i] < e && Eval(W, A, env, A.nodes[e].Operands()[i]) ==
                   Eval(W, A, env', A.nodes[e].Operands()[i])
    ensures var n := A.nodes[e]; var full := FullArgs(n.ctx, |A.funcs[n.f].params|, n.list);
            (forall i :: 0 <= i < |full| ==> full[i] < e) && Evals(W, A, env, full, e) == Evals(W, A, env', full, e)
  {
    var n := A.nodes[e];
    var full := FullArgs(n.ctx, |A.funcs[n.f].params|, n.list);
    FullBelow(A, e);
    forall i | 0 <= i < |full| ensures Eval(W, A, env, full[i]) == Eval(W, A, env', full[i]) {
      FullAmong(n.ctx, |A.funcs[n.f].params|, n.list, i);
      var j :| 0 <= j < |n.Operands()| && n.Operands()[j] == full[i];
    }
  }

  // --- growth ----------------------------------------------------------------------------------------

  ghost predicate Extends(A: Arena, B: Arena) { A.nodes <= B.nodes && A.funcs <= B.funcs }

  lemma {:induction false} EvalExtends<V>(W: World<V>, A: Arena, B: Arena, env: Env<V>, e: nat)
    requires ArenaOk(A) && ArenaOk(B) && Extends(A, B) && e < |A.nodes|
    ensures Eval(W, B, env, e) == Eval(W, A, env, e)
    decreases e
  {
    assert NodeOk(A, e);
    var n := A.nodes[e];
    match n
    case Const(_) =>
    case Symbol(_) =>
    case Op(op, args) =>
      assert forall i :: 0 <= i < |args| ==> args[i] in n.Operands();
      EvalsExtend(W, A, B, env, args, e);
    case Call(f, out, ctx, list) =>
      FullBelow(A, e);
      var params := A.funcs[f].params;
      var full := FullArgs(ctx, |params|, list);
      EvalsExtend(W, A, B, env, full, e);
      var o := A.funcs[f].outputs[out];
      if o.Expr? { EvalExtends(W, A, B, BindEnv(env, params, Evals(W, A, env, full, e)), o.e); }
  }

  lemma {:induction false} EvalsExtend<V>(W: World<V>, A: Arena, B: Arena, env: Env<V>, es: seq<nat>, bound: nat)
    requires ArenaOk(A) && ArenaOk(B) && Extends(A, B) && bound <= |A.nodes|
             && forall i :: 0 <= i < |es| ==> es[i] < bound
    ensures Evals(W, B, env, es, bound) == Evals(W, A, env, es, bound)
    decreases bound, 0
  {
    forall i | 0 <= i < |es| ensures Eval(W, B, env, es[i]) == Eval(W, A, env, es[i]) {
      EvalExtends(W, A, B, env, es[i]);
    }
  }

  lemma {:induction false} ReadsExtends(A: Arena, B: Arena, e: nat, s: nat)
    requires ArenaOk(A) && ArenaOk(B) && Extends(A, B) && e < |A.nodes|
    ensures Reads(B, e, s) <==> Reads(A, e, s)
    decreases e
  {
    assert NodeOk(A, e);
    var n := A.nodes[e];
    forall i | 0 <= i < |n.Operands()|
      ensures n.Operands()[i] < e && (Reads(B, n.Operands()[i], s) <==> Reads(A, n.Operands()[i], s)) {
      assert n.Operands()[i] in n.Operands();
      ReadsExtends(A, B, n.Operands()[i], s);
    }
    if n.Call? && A.funcs[n.f].outputs[n.out].Expr? { ReadsExtends(A, B, A.funcs[n.f].outputs[n.out].e, s); }
  }

  lemma GlobalExtends(A: Arena, B: Arena, f: nat, s: nat)
    requires ArenaOk(A) && ArenaOk(B) && Extends(A, B) && f < |A.funcs|
    ensures Global(B, f, s) <==> Global(A, f, s)
  {
    hide Reads;
    assert FuncOk(A, f);
    forall k | 0 <= k < |A.funcs[f].outputs| ensures OutputReads(B, f, k, s) <==> OutputReads(A, f, k, s) {
      if A.funcs[f].outputs[k].Expr? { ReadsExtends(A, B, A.funcs[f].outputs[k].e, s); }
    }
  }
}
