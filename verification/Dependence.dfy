/** What the value of an expression depends on: an argument of a call only where the called
    body depends on its parameter. It is all of it, and no more than it: some scalar moves
    with each of those symbols, and no scalar with another. */
module Dependence {
  import opened Arenas
  import opened Basics
  import opened Bindings
  import opened Rewriting

  /** Whether the value of `e` can depend on symbol `s`: an argument counts only where the
      called body depends on its parameter. */
  predicate Sees(A: Arena, e: nat, s: nat)
    requires ArenaOk(A) && e < |A.nodes|
    decreases e
  {
    assert NodeOk(A, e);
    var n := A.nodes[e];
    match n
    case Const(_) => false
    case Symbol(x) => x == s
    case Op(_, args) => exists i :: 0 <= i < |args| && args[i] in n.Operands() && Sees(A, args[i], s)
    case Call(f, out, ctx, list) =>
      var params := A.funcs[f].params;
      var full := FullArgs(ctx, |params|, list);
      assert forall i :: 0 <= i < |full| ==> full[i] < e by { FullBelow(A, e); }
      match A.funcs[f].outputs[out]
      case Zero => false
      case External(_) => exists i :: 0 <= i < |full| && Sees(A, full[i], s)
      case Expr(b) =>
        || (s !in params && Sees(A, b, s))
        || (exists i :: 0 <= i < |full| && Sees(A, b, params[i]) && Sees(A, full[i], s))
  }

  /** A call's operands by parameter. */
  ghost function Args(A: Arena, e: nat): (full: seq<nat>)
    requires ArenaOk(A) && e < |A.nodes| && A.nodes[e].Call?
    ensures NodeOk(A, e) && |full| == |A.funcs[A.nodes[e].f].params| && forall i :: 0 <= i < |full| ==> full[i] < e
  {
    assert NodeOk(A, e);
    FullBelow(A, e);
    FullArgs(A.nodes[e].ctx, |A.funcs[A.nodes[e].f].params|, A.nodes[e].list)
  }

  /** Environments that agree on what a value depends on give it one value. */
  lemma {:induction false} SeenAgrees<V>(W: World<V>, A: Arena, env: Env<V>, env': Env<V>, e: nat)
    requires ArenaOk(A) && e < |A.nodes| && forall s :: Sees(A, e, s) ==> Look(W, env, s) == Look(W, env', s)
    ensures Eval(W, A, env, e) == Eval(W, A, env', e)
    decreases e
  {
    assert NodeOk(A, e);
    match A.nodes[e]
    case Const(_) =>
    case Symbol(s) => assert Sees(A, e, s);
    case Op(op, args) =>
      forall i | 0 <= i < |args| ensures args[i] < e && Eval(W, A, env, args[i]) == Eval(W, A, env', args[i]) {
        assert args[i] in A.nodes[e].Operands();
        SeenAgrees(W, A, env, env', args[i]);
      }
      assert Evals(W, A, env, args, e) == Evals(W, A, env', args, e);
    case Call(f, out, ctx, list) =>
      var full := Args(A, e);
      var vals, vals' := Evals(W, A, env, full, e), Evals(W, A, env', full, e);
      match A.funcs[f].outputs[out]
      case Zero =>
      case External(_) =>
        forall i | 0 <= i < |full| ensures vals[i] == vals'[i] { SeenAgrees(W, A, env, env', full[i]); }
        assert vals == vals';
      case Expr(b) =>
        var params := A.funcs[f].params;
        var in1, in2 := BindEnv(env, params, vals), BindEnv(env', params, vals');
        forall s | Sees(A, b, s) ensures Look(W, in1, s) == Look(W, in2, s) {
          if s in params {
            var i := IndexOf(params, s);
            assert Sees(A, b, params[i]);
            SeenAgrees(W, A, env, env', full[i]);
          } else {
            assert Sees(A, e, s);
          }
        }
        SeenAgrees(W, A, in1, in2, b);
  }

  /** It is among what the expression mentions. */
  lemma {:induction false} SeesReads(A: Arena, e: nat, s: nat)
    requires ArenaOk(A) && e < |A.nodes| && Sees(A, e, s)
    ensures Reads(A, e, s)
    decreases e
  {
    assert NodeOk(A, e);
    var n := A.nodes[e];
    match n
    case Symbol(_) =>
    case Op(_, args) =>
      var i :| 0 <= i < |args| && args[i] in n.Operands() && Sees(A, args[i], s);
      SeesReads(A, args[i], s);
      ReadsOperand(A, e, i, s);
    case Call(f, out, ctx, list) =>
      var params, full := A.funcs[f].params, Args(A, e);
      var o := A.funcs[f].outputs[out];
      if o.Expr? && s !in params && Sees(A, o.e, s) {
        SeesReads(A, o.e, s);
        ReadsBody(A, e, s);
      } else {
        var i :| 0 <= i < |full| && Sees(A, full[i], s);
        SeesReads(A, full[i], s);
        FullAmong(ctx, |params|, list, i);
        var j :| 0 <= j < |n.Operands()| && n.Operands()[j] == full[i];
        ReadsOperand(A, e, j, s);
      }
  }

  lemma {:induction false} SeesExtends(A: Arena, B: Arena, e: nat, s: nat)
    requires ArenaOk(A) && ArenaOk(B) && Extends(A, B) && e < |A.nodes|
    ensures Sees(B, e, s) <==> Sees(A, e, s)
    decreases e
  {
    assert NodeOk(A, e);
    var n := A.nodes[e];
    match n
    case Const(_) =>
    case Symbol(_) =>
    case Op(_, args) =>
      forall i | 0 <= i < |args| && args[i] in n.Operands() ensures Sees(B, args[i], s) <==> Sees(A, args[i], s) {
        SeesExtends(A, B, args[i], s);
      }
    case Call(f, out, ctx, list) =>
      var params, full := A.funcs[f].params, Args(A, e);
      forall i | 0 <= i < |full| ensures Sees(B, full[i], s) <==> Sees(A, full[i], s) { SeesExtends(A, B, full[i], s); }
      var o := A.funcs[f].outputs[out];
      if o.Expr? { forall p ensures Sees(B, o.e, p) <==> Sees(A, o.e, p) { SeesExtends(A, B, o.e, p); } }
  }

  // --- no less -------------------------------------------------------------------------------------------

  ghost predicate AllRest<V>(xs: seq<V>, rest: V) { forall i :: 0 <= i < |xs| ==> xs[i] == rest }

  /** Operations of these operands are at rest exactly where all of the operands are. */
  ghost predicate MovingOver<V(!new)>(W: World<V>, rest: V, xs: seq<V>) {
    && (forall op :: W.op(op, xs) == rest <==> AllRest(xs, rest))
    && (forall f, k :: W.ext(f, k, xs) == rest <==> AllRest(xs, rest))
  }

  /** A scalar whose values move with every operand that does. */
  ghost predicate MovesAlong<V(!new)>(W: World<V>, rest: V) {
    W.unbound == rest && (forall c :: W.konst(c) == rest) && (forall xs :: MovingOver(W, rest, xs))
  }

  ghost predicate Moved<V>(W: World<V>, rest: V, A: Arena, env: Env<V>, e: nat)
    requires ArenaOk(A) && e < |A.nodes|
  { exists s :: Sees(A, e, s) && Look(W, env, s) != rest }

  /** In it a value moves exactly with the symbols it depends on. */
  lemma {:induction false} MovesWith<V(!new)>(W: World<V>, rest: V, A: Arena, env: Env<V>, e: nat)
    requires MovesAlong(W, rest) && ArenaOk(A) && e < |A.nodes|
    ensures Eval(W, A, env, e) != rest <==> Moved(W, rest, A, env, e)
    decreases e
  {
    hide MovesAlong;
    assert NodeOk(A, e);
    match A.nodes[e]
    case Const(c) => AtRest(W, rest, c, []);
    case Symbol(s) => assert Sees(A, e, s);
    case Op(op, args) =>
      forall i | 0 <= i < |args| ensures args[i] < e { assert args[i] in A.nodes[e].Operands(); }
      var vals := Evals(W, A, env, args, e);
      forall i | 0 <= i < |args| ensures args[i] < e && (vals[i] != rest <==> Moved(W, rest, A, env, args[i])) {
        assert args[i] in A.nodes[e].Operands();
        MovesWith(W, rest, A, env, args[i]);
      }
      AtRest(W, rest, 0, vals);
      OpMoves(W, rest, A, env, e, vals);
    case Call(f, out, ctx, list) => CallMoves(W, rest, A, env, e);
  }

  lemma AtRest<V(!new)>(W: World<V>, rest: V, c: nat, xs: seq<V>)
    requires MovesAlong(W, rest)
    ensures W.konst(c) == rest && W.unbound == rest && MovingOver(W, rest, xs)
  {
  }

  lemma OpMoves<V>(W: World<V>, rest: V, A: Arena, env: Env<V>, e: nat, vals: seq<V>)
    requires ArenaOk(A) && e < |A.nodes| && A.nodes[e].Op? && NodeOk(A, e) && |vals| == |A.nodes[e].args|
    requires forall i :: 0 <= i < |vals| ==>
               A.nodes[e].args[i] < e && (vals[i] != rest <==> Moved(W, rest, A, env, A.nodes[e].args[i]))
    ensures !AllRest(vals, rest) <==> Moved(W, rest, A, env, e)
  {
    var args := A.nodes[e].args;
    if !AllRest(vals, rest) {
      var i :| 0 <= i < |vals| && vals[i] != rest;
      var s :| Sees(A, args[i], s) && Look(W, env, s) != rest;
      assert args[i] in A.nodes[e].Operands();
      assert Sees(A, e, s);
    }
    if Moved(W, rest, A, env, e) {
      var s :| Sees(A, e, s) && Look(W, env, s) != rest;
      var i :| 0 <= i < |args| && args[i] in A.nodes[e].Operands() && Sees(A, args[i], s);
      assert Moved(W, rest, A, env, args[i]);
    }
  }

  lemma {:induction false} CallMoves<V(!new)>(W: World<V>, rest: V, A: Arena, env: Env<V>, e: nat)
    requires MovesAlong(W, rest) && ArenaOk(A) && e < |A.nodes| && A.nodes[e].Call?
    ensures Eval(W, A, env, e) != rest <==> Moved(W, rest, A, env, e)
    decreases e, 0
  {
    hide MovesAlong, Moved;
    var n := A.nodes[e];
    var full := Args(A, e);
    var vals := Evals(W, A, env, full, e);
    forall i | 0 <= i < |full| ensures vals[i] != rest <==> Moved(W, rest, A, env, full[i]) {
      MovesWith(W, rest, A, env, full[i]);
    }
    AtRest(W, rest, W.zero, vals);
    match A.funcs[n.f].outputs[n.out]
    case Zero => ZeroMoves(W, rest, A, env, e);
    case External(_) => ExternalMoves(W, rest, A, env, e, vals);
    case Expr(b) =>
      MovesWith(W, rest, A, BindEnv(env, A.funcs[n.f].params, vals), b);
      assert FuncOk(A, n.f);
      BodyMoves(W, rest, A, env, e, vals, b);
  }

  lemma ZeroMoves<V>(W: World<V>, rest: V, A: Arena, env: Env<V>, e: nat)
    requires ArenaOk(A) && e < |A.nodes| && A.nodes[e].Call? && NodeOk(A, e)
             && A.funcs[A.nodes[e].f].outputs[A.nodes[e].out].Zero?
    ensures !Moved(W, rest, A, env, e)
  {
  }

  lemma ExternalMoves<V>(W: World<V>, rest: V, A: Arena, env: Env<V>, e: nat, vals: seq<V>)
    requires ArenaOk(A) && e < |A.nodes| && A.nodes[e].Call? && NodeOk(A, e)
             && A.funcs[A.nodes[e].f].outputs[A.nodes[e].out].External?
    requires |vals| == |Args(A, e)| && forall i :: 0 <= i < |vals| ==>
             (vals[i] != rest <==> Moved(W, rest, A, env, Args(A, e)[i]))
    ensures !AllRest(vals, rest) <==> Moved(W, rest, A, env, e)
  {
    var full := Args(A, e);
    if !AllRest(vals, rest) {
      var i :| 0 <= i < |vals| && vals[i] != rest;
      var s :| Sees(A, full[i], s) && Look(W, env, s) != rest;
      assert Sees(A, e, s);
    }
    if Moved(W, rest, A, env, e) {
      var s :| Sees(A, e, s) && Look(W, env, s) != rest;
      var i :| 0 <= i < |full| && Sees(A, full[i], s);
      assert Moved(W, rest, A, env, full[i]);
    }
  }

  /** What the body depends on moves exactly where what the call depends on does. */
  lemma BodyMoves<V>(W: World<V>, rest: V, A: Arena, env: Env<V>, e: nat, vals: seq<V>, b: nat)
    requires ArenaOk(A) && e < |A.nodes| && A.nodes[e].Call? && NodeOk(A, e)
             && A.funcs[A.nodes[e].f].outputs[A.nodes[e].out] == Expr(b)
    requires |vals| == |Args(A, e)| && Distinct(A.funcs[A.nodes[e].f].params)
    requires forall i :: 0 <= i < |vals| ==> (vals[i] != rest <==> Moved(W, rest, A, env, Args(A, e)[i]))
    ensures Moved(W, rest, A, BindEnv(env, A.funcs[A.nodes[e].f].params, vals), b) <==> Moved(W, rest, A, env, e)
  {
    hide Sees, Args;
    var params, full := A.funcs[A.nodes[e].f].params, Args(A, e);
    var inner := BindEnv(env, params, vals);
    if s :| Sees(A, b, s) && Look(W, inner, s) != rest {
      if s in params {
        var i := IndexOf(params, s);
        var t :| Sees(A, full[i], t) && Look(W, env, t) != rest;
        SeesArgument(A, e, b, i, t);
      } else {
        SeesFree(A, e, b, s);
      }
    }
    if s :| Sees(A, e, s) && Look(W, env, s) != rest {
      SeesThrough(A, e, b, s);
      if i :| 0 <= i < |full| && Sees(A, b, params[i]) && Sees(A, full[i], s) {
        assert Moved(W, rest, A, env, full[i]);
        assert IndexOf(params, params[i]) == i;
        assert Look(W, inner, params[i]) != rest;
      }
    }
  }

  lemma SeesArgument(A: Arena, e: nat, b: nat, i: nat, s: nat)
    requires ArenaOk(A) && e < |A.nodes| && A.nodes[e].Call? && NodeOk(A, e)
             && A.funcs[A.nodes[e].f].outputs[A.nodes[e].out] == Expr(b)
    requires i < |Args(A, e)| && Sees(A, b, A.funcs[A.nodes[e].f].params[i]) && Sees(A, Args(A, e)[i], s)
    ensures Sees(A, e, s)
  {
  }

  lemma SeesFree(A: Arena, e: nat, b: nat, s: nat)
    requires ArenaOk(A) && e < |A.nodes| && A.nodes[e].Call? && NodeOk(A, e)
             && A.funcs[A.nodes[e].f].outputs[A.nodes[e].out] == Expr(b)
    requires s !in A.funcs[A.nodes[e].f].params && Sees(A, b, s)
    ensures Sees(A, e, s)
  {
  }

  lemma SeesThrough(A: Arena, e: nat, b: nat, s: nat)
    requires ArenaOk(A) && e < |A.nodes| && A.nodes[e].Call? && NodeOk(A, e)
             && A.funcs[A.nodes[e].f].outputs[A.nodes[e].out] == Expr(b)
    requires Sees(A, e, s)
    ensures var params := A.funcs[A.nodes[e].f].params;
            || (s !in params && Sees(A, b, s))
            || (exists i :: 0 <= i < |Args(A, e)| && Sees(A, b, params[i]) && Sees(A, Args(A, e)[i], s))
  {
  }
}
