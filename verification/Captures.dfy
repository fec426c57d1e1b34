/** When the calls of the copies a substitution makes are the calls with the symbols replaced:
    exactly where nothing put into a body depends on one of its parameters, however deep. */
module Captures {
  import opened Arenas
  import opened Basics
  import opened Bindings
  import opened CallRewrites
  import opened Dependence
  import opened Rewriting
  import opened Substitutions

  /** Called with any arguments, body `r` has the value of output `k` of `f` where the symbols
      are replaced. */
  ghost predicate CallRight<V(!new)>(W: World<V>, A: Arena, m: Map, f: nat, k: nat, r: nat)
    requires ArenaOk(A) && MapOk(A, m) && r < |A.nodes|
    requires f < |A.funcs| && k < |A.funcs[f].outputs| && A.funcs[f].outputs[k].Expr?
  {
    forall env: Env<V>, vals: seq<V> :: |vals| == |A.funcs[f].params| ==> SameCall(W, A, m, f, k, r, env, vals)
  }

  ghost predicate SameCall<V(!new)>(W: World<V>, A: Arena, m: Map, f: nat, k: nat, r: nat, env: Env<V>, vals: seq<V>)
    requires ArenaOk(A) && MapOk(A, m) && r < |A.nodes|
    requires f < |A.funcs| && k < |A.funcs[f].outputs| && A.funcs[f].outputs[k].Expr? && |vals| == |A.funcs[f].params|
  {
    assert FuncOk(A, f);
    Eval(W, A, BindEnv(env, A.funcs[f].params, vals), r) ==
    Eval(W, A, BindEnv(Compose(W, A, env, m), A.funcs[f].params, vals), A.funcs[f].outputs[k].e)
  }

  /** Function `g` is right for output `k` of `f` where `m` holds. */
  ghost predicate CopyRight<V(!new)>(W: World<V>, A: Arena, m: Map, f: nat, k: nat, g: nat)
    requires ArenaOk(A) && MapOk(A, m)
    requires f < |A.funcs| && k < |A.funcs[f].outputs| && A.funcs[f].outputs[k].Expr?
  {
    && g < |A.funcs| && FuncOk(A, g) && k < |A.funcs[g].outputs| && A.funcs[g].outputs[k].Expr?
    && CallRight(W, A, m, f, k, A.funcs[g].outputs[k].e)
  }

  /** Under `e`, and in every body `m` reaches, each copy in the table is right for its call. */
  ghost predicate CopiesRight<V(!new)>(W: World<V>, A: Arena, rebound: Copies, m: Map, e: nat)
    requires ArenaOk(A) && MapOk(A, m) && e < |A.nodes|
    decreases e
  {
    assert NodeOk(A, e);
    var n := A.nodes[e];
    && (forall i :: 0 <= i < |n.Operands()| ==>
          Below1(n.Operands()[i], e) && CopiesRight(W, A, rebound, m, n.Operands()[i]))
    && (n.Call? && A.funcs[n.f].outputs[n.out].Expr? && Rebinding(A, m, n.f) != map[] ==>
          && (n.f, Rebinding(A, m, n.f)) in rebound
          && CopyRight(W, A, m, n.f, n.out, rebound[(n.f, Rebinding(A, m, n.f))])
          && CopiesRight(W, A, rebound, Rebinding(A, m, n.f), A.funcs[n.f].outputs[n.out].e))
  }

  // --- where nothing is captured -------------------------------------------------------------------

  lemma {:induction false} UncapturedRight<V(!new)>(W: World<V>, A: Arena, m: Map, f: nat, k: nat, r: nat)
    requires ArenaOk(A) && MapOk(A, m) && r < |A.nodes|
    requires f < |A.funcs| && k < |A.funcs[f].outputs| && A.funcs[f].outputs[k].Expr? && FuncOk(A, f)
    requires NoCapture(A, m, f, k) && SameValue(W, A, Rebinding(A, m, f), A.funcs[f].outputs[k].e, r)
    ensures CallRight(W, A, m, f, k, r)
  {
    hide Sees, Compose, Rebinding, Global;
    var params, b, t := A.funcs[f].params, A.funcs[f].outputs[k].e, Rebinding(A, m, f);
    forall env: Env<V>, vals: seq<V> | |vals| == |params| ensures SameCall(W, A, m, f, k, r, env, vals) {
      var inner, outer := BindEnv(env, params, vals), BindEnv(Compose(W, A, env, m), params, vals);
      forall s | Sees(A, b, s) ensures Look(W, Compose(W, A, inner, t), s) == Look(W, outer, s) {
        SeenInBody(W, A, m, f, k, env, vals, s);
      }
      SeenAgrees(W, A, Compose(W, A, inner, t), outer, b);
    }
  }

  lemma TableRight<V(!new)>(W: World<V>, A: Arena, rebound: Copies, m: Map, f: nat, k: nat)
    requires GraphOk(W, A, rebound) && MapOk(A, m)
    requires f < |A.funcs| && k < |A.funcs[f].outputs| && A.funcs[f].outputs[k].Expr? && FuncOk(A, f)
    requires NoCapture(A, m, f, k) && Uncaptured(A, Rebinding(A, m, f), A.funcs[f].outputs[k].e)
    requires (f, Rebinding(A, m, f)) in rebound
    ensures CopyRight(W, A, m, f, k, rebound[(f, Rebinding(A, m, f))])
  {
    hide NoCapture, Uncaptured, CallRight, Rebinding, HeightsOk, TableOk, SameValue;
    var t, o := Rebinding(A, m, f), A.funcs[f].outputs[k];
    var g := rebound[(f, t)];
    assert CopyOk(W, A, f, t, g) && FuncOk(A, f) && FuncOk(A, g);
    assert OutputCopyOk(W, A, t, o, A.funcs[g].outputs[k]);
    UncapturedRight(W, A, m, f, k, A.funcs[g].outputs[k].e);
  }

  /** Nothing captured, every copy made is right, in any scalar. */
  lemma {:induction false} UncapturedAllRight<V(!new)>(W: World<V>, A: Arena, rebound: Copies, m: Map, e: nat)
    requires GraphOk(W, A, rebound) && MapOk(A, m) && e < |A.nodes| && Copied(A, rebound, m, e) && Uncaptured(A, m, e)
    ensures CopiesRight(W, A, rebound, m, e)
    decreases e
  {
    hide GraphOk, Rebinding, NoCapture, CopyRight;
    assert ArenaOk(A) by { GraphArena(W, A, rebound); }
    assert NodeOk(A, e);
    var n := A.nodes[e];
    forall i | 0 <= i < |n.Operands()|
      ensures Below1(n.Operands()[i], e) && CopiesRight(W, A, rebound, m, n.Operands()[i]) {
      UncapturedAllRight(W, A, rebound, m, n.Operands()[i]);
    }
    if n.Call? && A.funcs[n.f].outputs[n.out].Expr? && Rebinding(A, m, n.f) != map[] {
      assert FuncOk(A, n.f);
      TableRight(W, A, rebound, m, n.f, n.out);
      UncapturedAllRight(W, A, rebound, Rebinding(A, m, n.f), A.funcs[n.f].outputs[n.out].e);
    }
  }

  lemma GraphArena<V(!new)>(W: World<V>, A: Arena, rebound: Copies)
    requires GraphOk(W, A, rebound)
    ensures ArenaOk(A)
  {
  }

  // --- where something is --------------------------------------------------------------------------

  /** Where a replacement depends on a parameter no body in those parameters is right: the
      parameter moving in the caller and its argument at rest, the original moves and a body
      cannot. */
  lemma CapturedWrong<V(!new)>(W: World<V>, rest: V, moved: V, A: Arena, m: Map, f: nat, k: nat, r: nat)
    requires MovesAlong(W, rest) && moved != rest && ArenaOk(A) && MapOk(A, m) && r < |A.nodes|
    requires f < |A.funcs| && k < |A.funcs[f].outputs| && A.funcs[f].outputs[k].Expr? && FuncOk(A, f)
    requires !NoCapture(A, m, f, k)
    ensures !CallRight(W, A, m, f, k, r)
  {
    hide Sees, Compose, MovesAlong, Eval, NoCapture, CallRight, SameCall;
    var s, p := CapturedBy(A, m, f, k);
    var params := A.funcs[f].params;
    var env, vals := map[p := moved], seq(|params|, _ => rest);
    CopyRests(W, rest, A, env, params, vals, r);
    OriginalMoves(W, rest, A, m, env, params, vals, A.funcs[f].outputs[k].e, s, p);
    NotRight(W, A, m, f, k, r, env, vals);
  }

  lemma {:induction false} CapturedBy(A: Arena, m: Map, f: nat, k: nat) returns (s: nat, p: nat)
    requires ArenaOk(A) && MapOk(A, m)
    requires f < |A.funcs| && k < |A.funcs[f].outputs| && A.funcs[f].outputs[k].Expr? && FuncOk(A, f)
    requires !NoCapture(A, m, f, k)
    ensures s in m && s !in A.funcs[f].params && Sees(A, A.funcs[f].outputs[k].e, s)
    ensures p in A.funcs[f].params && Sees(A, m[s], p)
  {
    hide Sees;
    var b, params := A.funcs[f].outputs[k].e, A.funcs[f].params;
    s, p :| s in m && s !in params && Sees(A, b, s) && p in params && Sees(A, m[s], p);
  }

  lemma NotRight<V(!new)>(W: World<V>, A: Arena, m: Map, f: nat, k: nat, r: nat, env: Env<V>, vals: seq<V>)
    requires ArenaOk(A) && MapOk(A, m) && r < |A.nodes|
    requires f < |A.funcs| && k < |A.funcs[f].outputs| && A.funcs[f].outputs[k].Expr? && FuncOk(A, f)
    requires |vals| == |A.funcs[f].params|
    requires Eval(W, A, BindEnv(env, A.funcs[f].params, vals), r) !=
             Eval(W, A, BindEnv(Compose(W, A, env, m), A.funcs[f].params, vals), A.funcs[f].outputs[k].e)
    ensures !CallRight(W, A, m, f, k, r)
  {
    hide Eval, Compose;
    assert !SameCall(W, A, m, f, k, r, env, vals);
  }

  lemma CopyRests<V(!new)>(W: World<V>, rest: V, A: Arena, env: Env<V>, params: seq<nat>, vals: seq<V>, r: nat)
    requires MovesAlong(W, rest) && ArenaOk(A) && r < |A.nodes| && |vals| == |params| && AllRest(vals, rest)
    requires forall x :: x in env ==> x in params
    ensures Eval(W, A, BindEnv(env, params, vals), r) == rest
  {
    hide Sees;
    var inner := BindEnv(env, params, vals);
    forall x ensures Look(W, inner, x) == rest { if x in params { assert inner[x] == vals[IndexOf(params, x)]; } }
    MovesWith(W, rest, A, inner, r);
  }

  lemma OriginalMoves<V(!new)>(W: World<V>, rest: V, A: Arena, m: Map, env: Env<V>, params: seq<nat>, vals: seq<V>,
                               b: nat, s: nat, p: nat)
    requires MovesAlong(W, rest) && ArenaOk(A) && MapOk(A, m) && b < |A.nodes| && |vals| == |params|
    requires s in m && s !in params && Sees(A, b, s) && Sees(A, m[s], p) && Look(W, env, p) != rest
    ensures Eval(W, A, BindEnv(Compose(W, A, env, m), params, vals), b) != rest
  {
    hide Sees, Compose;
    assert Moved(W, rest, A, env, m[s]);
    MovesWith(W, rest, A, env, m[s]);
    var outer := BindEnv(Compose(W, A, env, m), params, vals);
    assert Look(W, outer, s) != rest;
    assert Moved(W, rest, A, outer, b);
    MovesWith(W, rest, A, outer, b);
  }

  /** So where every copy is right in a scalar that moves, nothing is captured. */
  lemma {:induction false} AllRightUncaptured<V(!new)>(W: World<V>, rest: V, moved: V, A: Arena, rebound: Copies,
                                                       m: Map, e: nat)
    requires MovesAlong(W, rest) && moved != rest && ArenaOk(A) && MapOk(A, m) && e < |A.nodes|
    requires CopiesRight(W, A, rebound, m, e)
    ensures Uncaptured(A, m, e)
    decreases e
  {
    hide MovesAlong, Rebinding, NoCapture, CallRight;
    assert NodeOk(A, e);
    var n := A.nodes[e];
    forall i | 0 <= i < |n.Operands()| ensures Below1(n.Operands()[i], e) && Uncaptured(A, m, n.Operands()[i]) {
      AllRightUncaptured(W, rest, moved, A, rebound, m, n.Operands()[i]);
    }
    if n.Call? && A.funcs[n.f].outputs[n.out].Expr? && Rebinding(A, m, n.f) != map[] {
      assert FuncOk(A, n.f);
      var g := rebound[(n.f, Rebinding(A, m, n.f))];
      if !NoCapture(A, m, n.f, n.out) {
        CapturedWrong(W, rest, moved, A, m, n.f, n.out, A.funcs[g].outputs[n.out].e);
      }
      AllRightUncaptured(W, rest, moved, A, rebound, Rebinding(A, m, n.f), A.funcs[n.f].outputs[n.out].e);
    }
  }

  /** A scalar that moves with every operand, and has something to move. */
  ghost predicate Moving<V(!new)>(W: World<V>, rest: V, moved: V) { MovesAlong(W, rest) && moved != rest }

  /** In a scalar that moves with every operand the copies a substitution made are right
      exactly where nothing is captured. */
  lemma RightWhereUncaptured<V(!new)>(W: World<V>, rest: V, moved: V, A: Arena, rebound: Copies, m: Map, e: nat)
    requires GraphOk(W, A, rebound) && MapOk(A, m) && e < |A.nodes| && Copied(A, rebound, m, e)
    requires Moving(W, rest, moved)
    ensures Uncaptured(A, m, e) <==> CopiesRight(W, A, rebound, m, e)
  {
    hide GraphOk, Uncaptured, CopiesRight, MovesAlong, Copied;
    assert ArenaOk(A) by { GraphArena(W, A, rebound); }
    if Uncaptured(A, m, e) { UncapturedAllRight(W, A, rebound, m, e); }
    if CopiesRight(W, A, rebound, m, e) { AllRightUncaptured(W, rest, moved, A, rebound, m, e); }
  }

  /** Truth values: true moves, and every operation moves with each of its operands. */
  function Motion(zero: nat, fold: (nat, seq<nat>) -> Option<nat>): World<bool> {
    World(false, (c: nat) => false, (op: nat, xs: seq<bool>) => true in xs,
          (f: nat, k: nat, xs: seq<bool>) => true in xs, zero, fold)
  }

  /** There is such a scalar over any graph's constants and folding. */
  lemma MotionMoves(zero: nat, fold: (nat, seq<nat>) -> Option<nat>)
    ensures Moving(Motion(zero, fold), false, true) && SoundFolds(Motion(zero, fold))
  {
    var W := Motion(zero, fold);
    forall xs: seq<bool> ensures MovingOver(W, false, xs) {
      if !AllRest(xs, false) {
        var i :| 0 <= i < |xs| && xs[i] != false;
        assert xs[i] == true;
      }
    }
    forall op: nat, ks: seq<nat> ensures FoldsTo(W, op, ks) {}
  }
}
