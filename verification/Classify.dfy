/** The classification, sweep and memo, against a recursive definition in which a body knows only
    its parameters' classes; and against the inlined expression's class. */
module Classification {
  import opened Arenas
  import opened Basics
  import opened Bindings
  import opened CallRewrites
  import opened Inlining
  import opened PolynomialDegrees
  import opened Rewriting
  import opened Specializing

  /** The class of `e`, a body seeing nothing but its parameters. */
  ghost function ClassIn(C: World<Nonlinearity>, A: Arena, env: Env<Nonlinearity>, e: nat): Nonlinearity
    requires ArenaOk(A) && e < |A.nodes|
    decreases e, 2
  {
    assert NodeOk(A, e);
    match A.nodes[e]
    case Const(c) => C.konst(c)
    case Symbol(s) => Look(C, env, s)
    case Op(op, args) =>
      assert forall i :: 0 <= i < |args| ==> args[i] in A.nodes[e].Operands();
      C.op(op, ClassesIn(C, A, env, args, e))
    case Call(f, out, ctx, list) =>
      var full := FullArgs(ctx, |A.funcs[f].params|, list);
      assert forall i :: 0 <= i < |full| ==> full[i] < e by { FullBelow(A, e); }
      CallClass(C, A, f, out, ClassesIn(C, A, env, full, e), e)
  }

  ghost function ClassesIn(C: World<Nonlinearity>, A: Arena, env: Env<Nonlinearity>, es: seq<nat>,
                           bound: nat): (r: seq<Nonlinearity>)
    requires ArenaOk(A) && bound <= |A.nodes| && forall i :: 0 <= i < |es| ==> es[i] < bound
    ensures |r| == |es| && forall i :: 0 <= i < |es| ==> r[i] == ClassIn(C, A, env, es[i])
    decreases bound, 0
  {
    seq(|es|, i requires 0 <= i < |es| => ClassIn(C, A, env, es[i]))
  }

  ghost function CallClass(C: World<Nonlinearity>, A: Arena, f: nat, out: nat, parts: seq<Nonlinearity>,
                           bound: nat): Nonlinearity
    requires ArenaOk(A) && bound <= |A.nodes| && f < |A.funcs| && out < |A.funcs[f].outputs|
             && |parts| == |A.funcs[f].params|
    requires OutputOk(A.funcs[f].outputs[out], A.funcs[f].external, bound)
    decreases bound, 1
  {
    match A.funcs[f].outputs[out]
    case Zero => C.konst(C.zero)
    case External(k) => C.ext(f, k, parts)
    case Expr(b) => ClassIn(C, A, BindEnv(map[], A.funcs[f].params, parts), b)
  }

  lemma CallClassBound(C: World<Nonlinearity>, A: Arena, f: nat, out: nat, parts: seq<Nonlinearity>, a: nat, b: nat)
    requires ArenaOk(A) && a <= b <= |A.nodes| && f < |A.funcs| && out < |A.funcs[f].outputs|
             && |parts| == |A.funcs[f].params|
    requires OutputOk(A.funcs[f].outputs[out], A.funcs[f].external, a)
    ensures CallClass(C, A, f, out, parts, a) == CallClass(C, A, f, out, parts, b)
  {
  }

  // --- the sweep ---------------------------------------------------------------------------------------

  /** A call already classified: an output and the classes of its arguments. */
  datatype Key = Key(f: nat, out: nat, ctx: Context, parts: seq<Nonlinearity>)

  type CallMemo = map<Key, Nonlinearity>

  ghost predicate KeyOk(C: World<Nonlinearity>, A: Arena, k: Key, c: Nonlinearity)
    requires ArenaOk(A)
  {
    && k.f < |A.funcs| && k.out < |A.funcs[k.f].outputs| && |k.parts| == |A.funcs[k.f].params|
    && OutputOk(A.funcs[k.f].outputs[k.out], A.funcs[k.f].external, |A.nodes|)
    && c == CallClass(C, A, k.f, k.out, k.parts, |A.nodes|)
  }

  ghost predicate MemoOk(C: World<Nonlinearity>, A: Arena, calls: CallMemo)
    requires ArenaOk(A)
  { forall k :: k in calls ==> KeyOk(C, A, k, calls[k]) }

  /** The classes of `es` read off those found. */
  function Found(memo: map<nat, Nonlinearity>, es: seq<nat>): (r: seq<Nonlinearity>)
    requires forall i :: 0 <= i < |es| ==> es[i] in memo
    ensures |r| == |es| && forall i :: 0 <= i < |es| ==> r[i] == memo[es[i]]
  { seq(|es|, i requires 0 <= i < |es| => memo[es[i]]) }

  /** The classes of `exprs`, their symbols classified by `env`: one sweep over the nodes they
      reach, each after its operands. */
  method ClassifyCone(C: World<Nonlinearity>, A: Arena, exprs: seq<nat>, env: Env<Nonlinearity>, calls0: CallMemo,
                      bound: nat)
    returns (classes: seq<Nonlinearity>, calls: CallMemo)
    requires ArenaOk(A) && bound <= |A.nodes| && (forall i :: 0 <= i < |exprs| ==> exprs[i] < bound)
             && MemoOk(C, A, calls0)
    ensures |classes| == |exprs| && forall i :: 0 <= i < |exprs| ==> classes[i] == ClassIn(C, A, env, exprs[i])
    ensures MemoOk(C, A, calls)
    decreases bound, 0
  {
    hide ClassIn, CallClass, MemoOk, Schedule, NodeOk, FuncOk, Ordered;
    DagOrdered(A);
    assert forall e :: e in exprs ==> e < |A.nodes|;
    var order := Schedules(A.nodes, exprs, {});
    ghost var p := iset e: nat | SmallNode(e, bound);
    SmallDownward(A, bound);
    var memo: map<nat, Nonlinearity> := map[];
    calls := calls0;
    for k := 0 to |order|
      invariant MemoOk(C, A, calls)
      invariant forall e :: e in memo <==> e in order[..k]
      invariant forall e :: e in memo ==> e < |A.nodes| && memo[e] == ClassIn(C, A, env, e)
    {
      var e := order[k];
      ScheduleAt(A.nodes, exprs, {}, order, p, k);
      var c;
      c, calls := ClassifyNode(C, A, e, env, memo, calls);
      memo := memo[e := c];
    }
    ScheduleRoots(A.nodes, exprs, {}, order);
    assert forall i :: 0 <= i < |exprs| ==> exprs[i] in exprs;
    classes := Found(memo, exprs);
  }

  lemma DagOrdered(A: Arena)
    requires ArenaOk(A)
    ensures Ordered(A.nodes)
  {
    forall e, o | 0 <= e < |A.nodes| && o in A.nodes[e].Operands() ensures o < e { assert NodeOk(A, e); }
  }

  predicate SmallNode(e: nat, bound: nat) { e < bound }

  lemma SmallDownward(A: Arena, bound: nat)
    requires ArenaOk(A)
    ensures Downward(A.nodes, iset e: nat | SmallNode(e, bound))
  {
    DagOrdered(A);
  }

  /** One node classified from its operands' classes; a call by its arguments'. */
  method ClassifyNode(C: World<Nonlinearity>, A: Arena, e: nat, env: Env<Nonlinearity>, memo: map<nat, Nonlinearity>,
                      calls0: CallMemo)
    returns (c: Nonlinearity, calls: CallMemo)
    requires ArenaOk(A) && e < |A.nodes| && MemoOk(C, A, calls0)
             && (forall o :: o in A.nodes[e].Operands() ==> o in memo)
    requires forall d :: d in memo ==> d < |A.nodes| && memo[d] == ClassIn(C, A, env, d)
    ensures c == ClassIn(C, A, env, e) && MemoOk(C, A, calls)
    decreases e, 2
  {
    hide MemoOk, FuncOk, CallClass;
    calls := calls0;
    assert NodeOk(A, e);
    match A.nodes[e] {
      case Const(k) => c := C.konst(k);
      case Symbol(s) => c := Look(C, env, s);
      case Op(op, args) =>
        assert forall i :: 0 <= i < |args| ==> args[i] in A.nodes[e].Operands();
        var parts := Found(memo, args);
        assert parts == ClassesIn(C, A, env, args, e);
        c := C.op(op, parts);
      case Call(f, out, ctx, list) =>
        FullBelow(A, e);
        var full := FullArgs(ctx, |A.funcs[f].params|, list);
        forall i | 0 <= i < |full| ensures full[i] in memo {
          FullAmong(ctx, |A.funcs[f].params|, list, i);
          assert full[i] in A.nodes[e].Operands();
        }
        var parts := Found(memo, full);
        assert parts == ClassesIn(C, A, env, full, e);
        c, calls := ClassifyCall(C, A, f, out, ctx, parts, calls0, e);
    }
  }

  /** An output called on arguments of these classes. */
  method ClassifyCall(C: World<Nonlinearity>, A: Arena, f: nat, out: nat, ctx: Context, parts: seq<Nonlinearity>,
                      calls0: CallMemo, bound: nat)
    returns (c: Nonlinearity, calls: CallMemo)
    requires ArenaOk(A) && bound <= |A.nodes| && f < |A.funcs| && out < |A.funcs[f].outputs|
             && |parts| == |A.funcs[f].params|
    requires OutputOk(A.funcs[f].outputs[out], A.funcs[f].external, bound) && MemoOk(C, A, calls0)
    ensures c == CallClass(C, A, f, out, parts, bound) && MemoOk(C, A, calls)
    decreases bound, 1
  {
    calls := calls0;
    var key := Key(f, out, ctx, parts);
    CallClassBound(C, A, f, out, parts, bound, |A.nodes|);
    if key in calls { return calls[key], calls; }
    match A.funcs[f].outputs[out] {
      case Zero => c := C.konst(C.zero);
      case External(k) => c := C.ext(f, k, parts);
      case Expr(b) =>
        var cs;
        cs, calls := ClassifyCone(C, A, [b], BindEnv(map[], A.funcs[f].params, parts), calls0, b + 1);
        c := cs[0];
    }
    assert KeyOk(C, A, key, c);
    calls := calls[key := c];
  }

  /** The classification of a system: the worst degree and every flag. */
  method Nonlinearities(C: World<Nonlinearity>, A: Arena, exprs: seq<nat>, env: Env<Nonlinearity>)
    returns (acc: Nonlinearity)
    requires ArenaOk(A) && forall i :: 0 <= i < |exprs| ==> exprs[i] < |A.nodes|
    ensures acc == Worst(ClassesIn(C, A, env, exprs, |A.nodes|))
  {
    var classes, _ := ClassifyCone(C, A, exprs, env, map[], |A.nodes|);
    assert classes == ClassesIn(C, A, env, exprs, |A.nodes|);
    acc := Constant();
    for k := 0 to |classes|
      invariant acc == Worst(classes[..k])
    {
      assert classes[..k + 1][..k] == classes[..k];
      acc := acc.(degree := Plus(acc.degree, classes[k].degree)).Absorb(classes[k]);
    }
    assert classes[..|classes|] == classes;
  }

  function Worst(cs: seq<Nonlinearity>): Nonlinearity {
    if cs == [] then Constant()
    else
      var rest, c := Worst(cs[..|cs| - 1]), cs[|cs| - 1];
      rest.(degree := Plus(rest.degree, c.degree)).Absorb(c)
  }

  // --- the inlined expression's class ------------------------------------------------------------------------

  /** Every global a called body reads is constant where it is called, however deep. */
  ghost predicate GlobalsConstant(C: World<Nonlinearity>, A: Arena, env: Env<Nonlinearity>, e: nat)
    requires ArenaOk(A) && e < |A.nodes|
    decreases e, 1
  {
    assert NodeOk(A, e);
    var n := A.nodes[e];
    && (forall i :: 0 <= i < |n.Operands()| ==>
      Below1(n.Operands()[i], e) && GlobalsConstant(C, A, env, n.Operands()[i]))
    && (n.Call? && A.funcs[n.f].outputs[n.out].Expr? ==>
          var b, params := A.funcs[n.f].outputs[n.out].e, A.funcs[n.f].params;
          && (forall s :: Reads(A, b, s) && s !in params ==> Look(C, env, s) == C.unbound)
          && GlobalsConstant(C, A, BindEnv(map[], params, FullClasses(C, A, env, e)), b))
  }

  ghost function FullClasses(C: World<Nonlinearity>, A: Arena, env: Env<Nonlinearity>, e: nat): (r: seq<Nonlinearity>)
    requires ArenaOk(A) && e < |A.nodes| && A.nodes[e].Call?
    ensures NodeOk(A, e) && |r| == |A.funcs[A.nodes[e].f].params|
    decreases e, 0
  {
    assert NodeOk(A, e);
    var n := A.nodes[e];
    var full := FullArgs(n.ctx, |A.funcs[n.f].params|, n.list);
    assert forall i :: 0 <= i < |full| ==> full[i] < e by { FullBelow(A, e); }
    ClassesIn(C, A, env, full, e)
  }

  /** Where they are, the class found is the class with every body read in its caller's
      environment. */
  lemma {:induction false} ClosedIs(C: World<Nonlinearity>, A: Arena, env: Env<Nonlinearity>, e: nat)
    requires ArenaOk(A) && e < |A.nodes| && GlobalsConstant(C, A, env, e)
    ensures ClassIn(C, A, env, e) == Eval(C, A, env, e)
    decreases e
  {
    hide Reads;
    assert NodeOk(A, e);
    var n := A.nodes[e];
    forall i | 0 <= i < |n.Operands()|
      ensures n.Operands()[i] < e && ClassIn(C, A, env, n.Operands()[i]) == Eval(C, A, env, n.Operands()[i]) {
      assert Below1(n.Operands()[i], e);
      ClosedIs(C, A, env, n.Operands()[i]);
    }
    match n
    case Const(_) =>
    case Symbol(_) =>
    case Op(op, args) =>
      assert ClassesIn(C, A, env, args, e) == Evals(C, A, env, args, e);
    case Call(f, out, ctx, list) =>
      FullBelow(A, e);
      var params := A.funcs[f].params;
      var full := FullArgs(ctx, |params|, list);
      forall i | 0 <= i < |full| ensures ClassIn(C, A, env, full[i]) == Eval(C, A, env, full[i]) {
        FullAmong(ctx, |params|, list, i);
        var j :| 0 <= j < |n.Operands()| && n.Operands()[j] == full[i];
      }
      var parts := ClassesIn(C, A, env, full, e);
      assert parts == Evals(C, A, env, full, e);
      var o := A.funcs[f].outputs[out];
      if o.Expr? {
        var closed, outer := BindEnv(map[], params, parts), BindEnv(env, params, parts);
        ClosedIs(C, A, closed, o.e);
        EvalAgrees(C, A, closed, outer, o.e);
      }
  }

  /** The class of a root is the class of the root with every call inlined, where the globals
      its calls read are constant. */
  method ClassOfInlined(g: CallGraph<Nonlinearity>, kind: nat -> Kind, zero: nat,
                        fold: (nat, seq<nat>) -> Option<nat>, root: nat, ghost env: Env<Nonlinearity>)
    returns (inlined: nat)
    requires g.Valid() && g.W == ClassWorld(kind, zero, fold) && root < |g.nodes|
             && GlobalsConstant(g.W, g.A(), env, root)
    modifies g
    ensures g.Valid() && Extends(old(g.A()), g.A()) && inlined < |g.nodes|
    ensures OnlyExternal(g.A(), inlined)
    ensures Eval(g.W, g.A(), env, inlined) == old(ClassIn(g.W, g.A(), env, root))
  {
    ghost var A0 := g.A();
    ClosedIs(g.W, A0, env, root);
    var out := InlineAll(g, [root]);
    inlined := out[0];
    assert Equal(g.W, g.A(), root, inlined);
    EvalExtends(g.W, A0, g.A(), env, root);
  }

  /** A call of `f() = s` where the variable is `s`. */
  function GlobalArena(): Arena { Arena([Symbol(1), Call(0, 0, NoContext, [])],
                                        [Function([], [], false, [Expr(0)], 1)]) }

  /** Where a body reads a variable as a global its call counts as constant and is not. */
  lemma GlobalMissed(kind: nat -> Kind, zero: nat, fold: (nat, seq<nat>) -> Option<nat>)
    ensures ArenaOk(GlobalArena())
    ensures var C, env := ClassWorld(kind, zero, fold), map[1 := Pure(Finite(1))];
            && ClassIn(C, GlobalArena(), env, 1) == Constant()
            && Eval(C, GlobalArena(), env, 1) == Pure(Finite(1))
  {
    var A := GlobalArena();
    assert FuncOk(A, 0);
    assert NodeOk(A, 0) && NodeOk(A, 1);
    var C, env := ClassWorld(kind, zero, fold), map[1 := Pure(Finite(1))];
    assert FullArgs(NoContext, 0, []) == [];
    assert ClassIn(C, A, BindEnv(map[], [], []), 0) == Constant();
    assert Eval(C, A, BindEnv(env, [], []), 0) == Pure(Finite(1));
  }
}
