/** When the classification is the inlined expression's: exactly where no called body's value
    depends on a symbol beyond its parameters. The degree it then returns is what it says. */
module ClosedBodies {
  import opened Arenas
  import opened Basics
  import opened Bindings
  import opened CallRewrites
  import opened Classification
  import opened Dependence
  import opened PolynomialDegrees
  import opened PolynomialLines
  import opened Rewriting
  import opened Specializing

  // --- the guard -----------------------------------------------------------------------------------------

  /** No body's value depends on a symbol that is not one of its parameters. */
  ghost predicate BodiesClosed(A: Arena)
    requires ArenaOk(A)
  {
    forall f, k :: 0 <= f < |A.funcs| && 0 <= k < |A.funcs[f].outputs| ==> BodyClosed(A, f, k)
  }

  ghost predicate BodyClosed(A: Arena, f: nat, k: nat)
    requires ArenaOk(A) && f < |A.funcs| && k < |A.funcs[f].outputs|
  {
    assert FuncOk(A, f);
    A.funcs[f].outputs[k].Expr? ==> forall s :: Sees(A, A.funcs[f].outputs[k].e, s) ==> s in A.funcs[f].params
  }

  /** A call of an output is classified as its body read in the caller's environment, whatever
      the operations are, the arguments' classes and the caller's symbols. */
  ghost predicate ClassifiedRight(A: Arena, zero: nat, fold: (nat, seq<nat>) -> Option<nat>, f: nat, k: nat)
    requires ArenaOk(A) && f < |A.funcs| && k < |A.funcs[f].outputs|
  {
    assert FuncOk(A, f);
    forall kind: nat -> Kind, parts: seq<Nonlinearity>, env: Env<Nonlinearity> :: |parts| == |A.funcs[f].params| ==>
      CallClass(ClassWorld(kind, zero, fold), A, f, k, parts, |A.nodes|) ==
      CallValue(ClassWorld(kind, zero, fold), A, env, f, k, parts, |A.nodes|)
  }

  /** Where every body is closed, the class found is that of the inlined expression. */
  lemma {:induction false} ClosedClass(C: World<Nonlinearity>, A: Arena, env: Env<Nonlinearity>, e: nat)
    requires ArenaOk(A) && e < |A.nodes| && BodiesClosed(A)
    ensures ClassIn(C, A, env, e) == Eval(C, A, env, e)
    decreases e
  {
    hide Sees;
    assert NodeOk(A, e);
    match A.nodes[e]
    case Const(_) =>
    case Symbol(_) =>
    case Op(op, args) =>
      forall i | 0 <= i < |args| ensures args[i] < e && ClassIn(C, A, env, args[i]) == Eval(C, A, env, args[i]) {
        assert args[i] in A.nodes[e].Operands();
        ClosedClass(C, A, env, args[i]);
      }
      assert ClassesIn(C, A, env, args, e) == Evals(C, A, env, args, e);
    case Call(f, out, ctx, list) =>
      var full := Args(A, e);
      forall i | 0 <= i < |full| ensures ClassIn(C, A, env, full[i]) == Eval(C, A, env, full[i]) {
        ClosedClass(C, A, env, full[i]);
      }
      var parts := ClassesIn(C, A, env, full, e);
      assert parts == Evals(C, A, env, full, e);
      ClosedCall(C, A, env, f, out, parts, e);
  }

  lemma ClosedCall(C: World<Nonlinearity>, A: Arena, env: Env<Nonlinearity>, f: nat, out: nat,
                   parts: seq<Nonlinearity>, bound: nat)
    requires ArenaOk(A) && BodiesClosed(A) && bound <= |A.nodes| && f < |A.funcs| && out < |A.funcs[f].outputs|
    requires |parts| == |A.funcs[f].params| && OutputOk(A.funcs[f].outputs[out], A.funcs[f].external, bound)
    ensures CallClass(C, A, f, out, parts, bound) == CallValue(C, A, env, f, out, parts, bound)
    decreases bound, 0
  {
    hide Sees;
    assert BodyClosed(A, f, out);
    var o := A.funcs[f].outputs[out];
    if o.Expr? {
      var params := A.funcs[f].params;
      var closed, outer := BindEnv(map[], params, parts), BindEnv(env, params, parts);
      ClosedClass(C, A, closed, o.e);
      SeenAgrees(C, A, closed, outer, o.e);
    }
  }

  // --- where a body is not closed ----------------------------------------------------------------------------

  /** Every operation moves with each of its operands. */
  function Moving(): nat -> Kind { (op: nat) => Binary(0) }

  lemma MovingOp(parts: seq<Nonlinearity>)
    ensures ClassOf(Binary(0), parts) == Constant() <==> AllConstant(parts)
    ensures OpaqueOf(parts) == Constant() <==> AllConstant(parts)
  {
  }

  lemma MovingClasses(zero: nat, fold: (nat, seq<nat>) -> Option<nat>)
    ensures MovesAlong(ClassWorld(Moving(), zero, fold), Constant())
  {
    hide ClassOf, OpaqueOf;
    var C := ClassWorld(Moving(), zero, fold);
    forall xs ensures MovingOver(C, Constant(), xs) { MovingOp(xs); }
  }

  /** From constants the sweep finds a constant. */
  lemma {:induction false} ConstantClass(kind: nat -> Kind, zero: nat, fold: (nat, seq<nat>) -> Option<nat>, A: Arena,
                                         env: Env<Nonlinearity>, e: nat)
    requires ArenaOk(A) && e < |A.nodes| && forall s :: s in env ==> env[s] == Constant()
    ensures ClassIn(ClassWorld(kind, zero, fold), A, env, e) == Constant()
    decreases e
  {
    hide ClassOf, OpaqueOf;
    var C := ClassWorld(kind, zero, fold);
    assert NodeOk(A, e);
    match A.nodes[e]
    case Const(_) =>
    case Symbol(_) =>
    case Op(op, args) =>
      forall i | 0 <= i < |args| ensures args[i] < e && ClassIn(C, A, env, args[i]) == Constant() {
        assert args[i] in A.nodes[e].Operands();
        ConstantClass(kind, zero, fold, A, env, args[i]);
      }
      ConstantOp(kind(op), ClassesIn(C, A, env, args, e));
    case Call(f, out, ctx, list) =>
      var full := Args(A, e);
      forall i | 0 <= i < |full| ensures ClassIn(C, A, env, full[i]) == Constant() {
        ConstantClass(kind, zero, fold, A, env, full[i]);
      }
      var parts := ClassesIn(C, A, env, full, e);
      match A.funcs[f].outputs[out]
      case Zero =>
      case External(_) => assert OpaqueOf(parts) == Constant() by { MovingOp(parts); }
      case Expr(b) =>
        var params := A.funcs[f].params;
        var closed := BindEnv(map[], params, parts);
        forall s | s in closed ensures closed[s] == Constant() { assert closed[s] == parts[IndexOf(params, s)]; }
        ConstantClass(kind, zero, fold, A, closed, b);
  }

  /** Every call is classified as its inlined body exactly where every body is closed. */
  lemma RightWhereClosed(A: Arena, zero: nat, fold: (nat, seq<nat>) -> Option<nat>)
    requires ArenaOk(A)
    ensures BodiesClosed(A) <==>
            forall f, k :: 0 <= f < |A.funcs| && 0 <= k < |A.funcs[f].outputs| ==> ClassifiedRight(A, zero, fold, f, k)
  {
    hide Sees;
    if BodiesClosed(A) {
      forall f, k | 0 <= f < |A.funcs| && 0 <= k < |A.funcs[f].outputs| ensures ClassifiedRight(A, zero, fold, f, k) {
        assert FuncOk(A, f);
        forall kind: nat -> Kind, parts: seq<Nonlinearity>, env: Env<Nonlinearity> | |parts| == |A.funcs[f].params|
          ensures CallClass(ClassWorld(kind, zero, fold), A, f, k, parts, |A.nodes|) ==
                  CallValue(ClassWorld(kind, zero, fold), A, env, f, k, parts, |A.nodes|)
        { ClosedCall(ClassWorld(kind, zero, fold), A, env, f, k, parts, |A.nodes|); }
      }
    } else {
      var f, k :| 0 <= f < |A.funcs| && 0 <= k < |A.funcs[f].outputs| && !BodyClosed(A, f, k);
      OpenMissed(A, zero, fold, f, k);
    }
  }

  /** A body that depends on a symbol beyond its parameters: its call counts as constant where
      that symbol moves. */
  lemma OpenMissed(A: Arena, zero: nat, fold: (nat, seq<nat>) -> Option<nat>, f: nat, k: nat)
    requires ArenaOk(A) && f < |A.funcs| && k < |A.funcs[f].outputs| && !BodyClosed(A, f, k)
    ensures !ClassifiedRight(A, zero, fold, f, k)
  {
    hide Sees, ClassOf, OpaqueOf;
    assert FuncOk(A, f);
    var params, b := A.funcs[f].params, A.funcs[f].outputs[k].e;
    var s: nat :| Sees(A, b, s) && s !in params;
    var C, env := ClassWorld(Moving(), zero, fold), map[s := Pure(Finite(1))];
    var parts := seq(|params|, _ => Constant());
    var closed, outer := BindEnv(map[], params, parts), BindEnv(env, params, parts);
    ConstantClass(Moving(), zero, fold, A, closed, b);
    assert Look(C, outer, s) != Constant();
    MovingClasses(zero, fold);
    MovesWith(C, Constant(), A, outer, b);
    assert CallClass(C, A, f, k, parts, |A.nodes|) != CallValue(C, A, env, f, k, parts, |A.nodes|);
  }

  // --- what the degree it returns promises ----------------------------------------------------------------

  lemma {:induction false} WorstCovers(cs: seq<Nonlinearity>, k: nat)
    requires k < |cs| && forall i :: 0 <= i < |cs| ==> FlagsOk(cs[i])
    ensures FlagsOk(Worst(cs))
    ensures Worst(cs).degree.Finite? ==> cs[k].degree.Finite? && cs[k].degree.d <= Worst(cs).degree.d
    decreases |cs|
  {
    if |cs| > 1 {
      WorstCovers(cs[..|cs| - 1], if k < |cs| - 1 then k else 0);
    } else {
      assert Worst(cs[..0]) == Constant();
    }
  }

  /** The classification of a system, the variables of degree one: flagged only where
      unbounded, and where finite every expression is along every line a polynomial with at
      most that many powers; every body closed, or the globals the calls read constant. */
  lemma SystemDegree(F: Functions, kind: nat -> Kind, zero: nat, fold: (nat, seq<nat>) -> Option<nat>, A: Arena,
                     exprs: seq<nat>,
                     base: Env<real>, dir: Env<real>, vars: set<nat>, k: nat) returns (p: seq<real>)
    requires ArenaOk(A) && k < |exprs| && forall i :: 0 <= i < |exprs| ==> exprs[i] < |A.nodes|
    requires BodiesClosed(A) ||
             forall i :: 0 <= i < |exprs| ==>
                 GlobalsConstant(ClassWorld(kind, zero, fold), A, LeafClasses(vars), exprs[i])
    ensures var acc := Worst(ClassesIn(ClassWorld(kind, zero, fold), A, LeafClasses(vars), exprs, |A.nodes|));
            && (acc.Flagged() ==> acc.degree.Unbounded?)
            && (acc.degree.Finite? ==>
                  && |p| <= acc.degree.d + 1
                  && forall t: real ::
                     Eval(RealWorld(F, kind, zero, fold), A, LineThrough(base, dir, vars)(t), exprs[k]) == At(p, t))
  {
    hide Worst, Eval, LineThrough, At, GlobalsConstant, ClassIn, Sees;
    var C, env := ClassWorld(kind, zero, fold), LeafClasses(vars);
    var classes := ClassesIn(C, A, env, exprs, |A.nodes|);
    forall i | 0 <= i < |classes| ensures FlagsOk(classes[i]) && classes[i] == Eval(C, A, env, exprs[i]) {
      if BodiesClosed(A) { ClosedClass(C, A, env, exprs[i]); } else { ClosedIs(C, A, env, exprs[i]); }
      FlagsUnbounded(kind, zero, fold, A, env, exprs[i]);
    }
    WorstCovers(classes, k);
    p := DegreeAlongLines(F, kind, zero, fold, A, base, dir, vars, exprs[k]);
  }
}
