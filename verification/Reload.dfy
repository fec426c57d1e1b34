/** What a loaded module computes, and that the module of a graph loads back to that graph. */
module Reloads {
  import opened Basics
  import opened Bindings
  import opened Arenas
  import Rewriting
  import opened Modules
  import opened Loading

  // --- the module as a graph of its own ----------------------------------------------------------------

  ghost function ResolvedContext(m: Module, o: nat, f: nat, n: nat): Context
    requires o < |m.contexts|
  {
    match m.contexts[o]
    case None => NoContext
    case Some((at, l)) => ContextOver(f, n, at, Slice(m, l))
  }

  ghost function ResolvedNode(m: Module, j: nat): GraphNode
    requires Passes(m) && j < |m.nodes|
  {
    NodeFacts(m, j);
    match m.nodes[j]
    case Const(c) => Rewriting.Const(m.consts[c])
    case Symbol(s) => Rewriting.Symbol(s)
    case Inline(op, args) => Rewriting.Op(op, args)
    case Listed(op, _, l) => Rewriting.Op(op, Slice(m, l))
    case Call(o, l) =>
      CallFacts(m, j, o, l);
      var (f, k) := m.callOutputs[o];
      Rewriting.Call(f, k, ResolvedContext(m, o, f, |m.funcs[f].params|), Slice(m, l))
  }

  ghost function ResolvedFunc(m: Module, f: nat): Function
    requires f < |m.funcs|
  {
    var data := m.funcs[f];
    var keeps := seq(|data.params|, k requires 0 <= k < |data.params| => k < |data.keeps| && data.keeps[k]);
    Function(data.params, keeps, data.body.Some?, data.outputs, 0)
  }

  /** The graph the module is the data of, its windows read. */
  ghost function Resolved(m: Module): Arena
    requires Passes(m)
  {
    Arena(seq(|m.nodes|, j requires 0 <= j < |m.nodes| => ResolvedNode(m, j)),
          seq(|m.funcs|, f requires 0 <= f < |m.funcs| => ResolvedFunc(m, f)))
  }

  /** Names and parameters are told apart, and only a function with a body has slots of it. */
  ghost predicate Sound(m: Module) {
    && Distinct(m.symbols)
    && forall f :: 0 <= f < |m.funcs| ==> FuncSound(m.funcs[f])
  }

  ghost predicate FuncSound(fn: FunctionData) {
    && Distinct(fn.params)
    && forall k :: 0 <= k < |fn.outputs| ==>
        (fn.outputs[k].Expr? ==> fn.body.None?) && (fn.outputs[k].External? ==> fn.body.Some?)
  }

  lemma ContextOverOk(f: nat, n: nat, at: seq<nat>, exprs: seq<nat>)
    requires |at| == |exprs| && AscendingStep(at) && forall j :: 0 <= j < |at| ==> at[j] < n
    ensures ContextOk(ContextOver(f, n, at, exprs), n)
  {
    forall i, j | 0 <= i < j < |at| ensures at[i] < at[j] { Ascends(at, i, j); }
    forall j | 0 <= j < |at| ensures SlotsOf(at, n)[at[j]] == Bound(j) {
      assert at[IndexOf(at, at[j])] == at[j];
    }
  }

  lemma ResolvedCall(m: Module, j: nat, o: nat, l: Window)
    requires Passes(m) && LoadReady(m) && j < |m.nodes| && m.nodes[j] == Call(o, l)
    ensures var n := ResolvedNode(m, j);
            && n.Call? && n.f < |m.funcs|
            && n.out < |m.funcs[n.f].outputs| && OutputBefore(m.funcs[n.f].outputs[n.out], j)
            && ContextOk(n.ctx, |m.funcs[n.f].params|) && |n.list| == Arity(n.ctx, |m.funcs[n.f].params|)
            && forall k :: 0 <= k < |n.Operands()| ==> n.Operands()[k] < j
  {
    hide Passes, Ready, RefersFit, ContextOk, ContextOver, AscendingStep;
    assert NodeReady(m, j);
    CallFacts(m, j, o, l);
    var (f, k) := m.callOutputs[o];
    if m.contexts[o].None? {
      NoContextOk(|m.funcs[f].params|);
    } else {
      var (at, w) := m.contexts[o].value;
      ContextOverOk(f, |m.funcs[f].params|, at, Slice(m, w));
      ContextOverIs(f, |m.funcs[f].params|, at, Slice(m, w));
    }
  }

  lemma NoContextOk(n: nat)
    ensures ContextOk(NoContext, n)
  {
  }

  lemma ContextOverIs(f: nat, n: nat, at: seq<nat>, exprs: seq<nat>)
    requires |at| == |exprs|
    ensures var c := ContextOver(f, n, at, exprs);
            c.Exprs() == exprs && Arity(c, n) == n - |at| && (c.NoContext? <==> at == []) && (c.Context? ==> c.at == at)
  {
    if at == [] { assert exprs == []; }
  }

  lemma ResolvedOk(m: Module)
    requires Passes(m) && LoadReady(m) && Sound(m)
    ensures ArenaOk(Resolved(m))
  {
    hide Passes, NodeFits, FuncFits, ContextOk;
    var A := Resolved(m);
    forall f | 0 <= f < |A.funcs| ensures FuncOk(A, f) {
      assert FuncSound(m.funcs[f]);
      FuncFacts(m, f);
    }
    forall e | 0 <= e < |A.nodes| ensures NodeOk(A, e) {
      assert FuncsOk(A);
      ResolvedNodeOk(m, e);
    }
  }

  ghost predicate FuncsOk(A: Arena) { forall f :: 0 <= f < |A.funcs| ==> FuncOk(A, f) }

  lemma FuncFacts(m: Module, f: nat)
    requires Passes(m) && f < |m.funcs|
    ensures RefersFit(m, f) && ParamsMet(m, f, |m.nodes|)
  {
    assert FuncFits(m, f);
  }

  lemma ResolvedNodeOk(m: Module, e: nat)
    requires Passes(m) && LoadReady(m) && e < |m.nodes| && FuncsOk(Resolved(m))
    ensures NodeOk(Resolved(m), e)
  {
    hide Passes, LoadReady, ContextOk, Ready, CallFits;
    NodeFacts(m, e);
    var A := Resolved(m);
    match m.nodes[e]
    case Const(_) =>
    case Symbol(_) =>
    case Inline(_, _) =>
    case Listed(_, _, l) =>
      forall o | o in Slice(m, l) ensures o < e {
        var k :| 0 <= k < |Slice(m, l)| && Slice(m, l)[k] == o;
        assert m.pool[l.start + k] < e;
      }
    case Call(o, l) =>
      ResolvedCall(m, e, o, l);
      var n := ResolvedNode(m, e);
      assert FuncOk(A, n.f);
  }

  // --- the loaded graph is in order ----------------------------------------------------------------------

  /** Two symbols of the module are two symbols of the graph. */
  lemma SymbolsApart(m: Module, map': LoadMap, names: seq<string>, s: nat, t: nat)
    requires Distinct(m.symbols) && SymbolsMapped(m, map', names) && s < |m.symbols| && t < |m.symbols|
    requires map'.symbols[s].Some? && map'.symbols[s] == map'.symbols[t]
    ensures s == t
  {
  }

  lemma ParamsDistinct(m: Module, map': LoadMap, names: seq<string>, fn: Function, f: nat)
    requires f < |m.funcs| && Distinct(m.symbols) && Distinct(m.funcs[f].params)
    requires SymbolsMapped(m, map', names) && FuncImage(m, map', fn, f)
    ensures Distinct(fn.params)
  {
    hide SymbolsMapped, Met;
    var params := m.funcs[f].params;
    forall i, j | 0 <= i < j < |fn.params| ensures fn.params[i] != fn.params[j] {
      assert |map'.symbols| == |m.symbols| by { SymbolsCount(m, map', names); }
      if fn.params[i] == fn.params[j] { SymbolsApart(m, map', names, params[i], params[j]); }
    }
  }

  lemma SymbolsCount(m: Module, map': LoadMap, names: seq<string>)
    requires SymbolsMapped(m, map', names)
    ensures |map'.symbols| == |m.symbols|
  {
  }

  lemma LoadedFuncOk(m: Module, map': LoadMap, A: Arena, base: nat, names: seq<string>, zero: nat, f: nat)
    requires Sound(m) && LoadedAs(m, map', base, A, names, zero) && Arranged(A) && f < |m.funcs|
    ensures base + f < |A.funcs| && FuncOk(A, base + f)
  {
    hide NodesMapped, SymbolsMapped, NodeArranged;
    assert FuncSound(m.funcs[f]) && map'.funcs[f] == Some(base + f);
    assert FuncImage(m, map', A.funcs[base + f], f) && FuncArranged(A, base + f);
    ParamsDistinct(m, map', names, A.funcs[base + f], f);
  }

  lemma LoadedOk(m: Module, map': LoadMap, was: Arena, A: Arena, names: seq<string>, zero: nat)
    requires Sound(m) && LoadedAs(m, map', |was.funcs|, A, names, zero) && Arranged(A)
    requires ArenaOk(was) && Extends(was, A)
    ensures ArenaOk(A)
  {
    hide NodesMapped, SymbolsMapped, NodeArranged, FuncImage, ContextOk;
    var base := |was.funcs|;
    forall f | 0 <= f < |A.funcs| ensures FuncOk(A, f) {
      if f < base { assert FuncOk(was, f); } else { LoadedFuncOk(m, map', A, base, names, zero, f - base); }
    }
    forall e | 0 <= e < |A.nodes| ensures NodeOk(A, e) {
      assert NodeArranged(A, A.nodes[e], e) && FuncsOk(A);
      ArrangedOk(A, e);
    }
  }

  lemma ArrangedOk(A: Arena, e: nat)
    requires e < |A.nodes| && NodeArranged(A, A.nodes[e], e) && FuncsOk(A)
    ensures NodeOk(A, e)
  {
    hide ContextOk;
    var n := A.nodes[e];
    if n.Call? { assert FuncOk(A, n.f); }
  }

  // --- values ----------------------------------------------------------------------------------------------

  /** The two graphs compute alike, the bodies of the module's functions included. */
  ghost predicate Alike<V(!new)>(W: World<V>, X: World<V>, m: Module, base: nat) {
    X.konst == W.konst && X.op == W.op &&
    forall f: nat, k: nat, vals: seq<V> :: f < |m.funcs| ==> X.ext(base + f, k, vals) == W.ext(f, k, vals)
  }

  /** The symbols of the module read the same where they are mapped. */
  ghost predicate Related<V>(W: World<V>, X: World<V>, m: Module, map': LoadMap, env: Env<V>, env': Env<V>) {
    |map'.symbols| == |m.symbols| && forall s :: 0 <= s < |m.symbols| && map'.symbols[s].Some? ==>
        Look(X, env', map'.symbols[s].value) == Look(W, env, s)
  }

  lemma BindRelated<V(!new)>(W: World<V>, X: World<V>, m: Module, map': LoadMap, names: seq<string>, fn: Function,
                             f: nat, env: Env<V>, env': Env<V>, vals: seq<V>)
    requires f < |m.funcs| && Distinct(m.symbols) && SymbolsMapped(m, map', names) && FuncImage(m, map', fn, f)
    requires Distinct(m.funcs[f].params) && Distinct(fn.params) && |vals| == |fn.params|
    requires Related(W, X, m, map', env, env')
    ensures Related(W, X, m, map', BindEnv(env, m.funcs[f].params, vals), BindEnv(env', fn.params, vals))
  {
    hide Met;
    var params := m.funcs[f].params;
    var inner, inner' := BindEnv(env, params, vals), BindEnv(env', fn.params, vals);
    forall s | 0 <= s < |m.symbols| && map'.symbols[s].Some?
      ensures Look(X, inner', map'.symbols[s].value) == Look(W, inner, s) {
      var t := map'.symbols[s].value;
      if s in params {
        var k := IndexOf(params, s);
        assert fn.params[k] == t && IndexOf(fn.params, t) == k;
      } else if t in fn.params {
        var k := IndexOf(fn.params, t);
        SymbolsApart(m, map', names, s, params[k]);
        assert false;
      }
    }
  }

  /** What a load of `m` left, where the graph has the module's operations and bodies. */
  ghost predicate Loads<V(!new)>(W: World<V>, X: World<V>, m: Module, map': LoadMap, base: nat, A: Arena,
                                 names: seq<string>, zero: nat) {
    && Passes(m) && LoadReady(m) && Sound(m) && ArenaOk(Resolved(m))
    && ArenaOk(A) && LoadedAs(m, map', base, A, names, zero) && Distinct(names)
    && Alike(W, X, m, base) && zero < |A.nodes| && A.nodes[zero] == Rewriting.Const(W.zero)
  }

  /** The values of operands, mapped one by one. */
  lemma ListValues<V(!new)>(W: World<V>, X: World<V>, m: Module, map': LoadMap, base: nat, A: Arena, names: seq<string>,
                            zero: nat, env: Env<V>, env': Env<V>, es: seq<nat>, j: nat, news: seq<nat>, e: nat)
    requires Loads(W, X, m, map', base, A, names, zero) && j < |m.nodes| && e < |A.nodes|
    requires Related(W, X, m, map', env, env') && |news| == |es|
    requires forall k :: 0 <= k < |es| ==> es[k] < j && news[k] < e && news[k] == map'.exprs[es[k]]
    ensures Evals(X, A, env', news, e) == Evals(W, Resolved(m), env, es, j)
    decreases j, 0
  {
    hide Passes, LoadReady, Sound, LoadedAs, Alike, Related, Eval, ArenaOk;
    forall k | 0 <= k < |es|
      ensures Evals(X, A, env', news, e)[k] == Evals(W, Resolved(m), env, es, j)[k] {
      Value(W, X, m, map', base, A, names, zero, env, env', es[k]);
      EvalsAt(X, A, env', news, e, k);
      EvalsAt(W, Resolved(m), env, es, j, k);
    }
  }

  /** The operands of a call in parameter order, mapped one by one. */
  lemma FullImage(m: Module, exprs: seq<nat>, o: nat, l: Window, f: nat, g: nat, n: nat, c: Context, list: seq<nat>,
                  p: nat)
    requires o < |m.contexts| && ListMapped(m, exprs, l, list) && ContextImage(m, exprs, o, g, n, c)
    requires m.contexts[o].Some? ==> |m.contexts[o].value.0| == m.contexts[o].value.1.len
    requires var d := ResolvedContext(m, o, f, n);
             ContextOk(c, n) && ContextOk(d, n) && |list| == Arity(c, n) && |Slice(m, l)| == Arity(d, n) && p < n
    ensures var was := FullArgs(ResolvedContext(m, o, f, n), n, Slice(m, l))[p];
            was < |exprs| && FullArgs(c, n, list)[p] == exprs[was]
  {
    hide ContextOk, FullArgs, ContextOver, AscendingStep;
    var d := ResolvedContext(m, o, f, n);
    if m.contexts[o].Some? {
      var (at, w) := m.contexts[o].value;
      var bound :| ListMapped(m, exprs, w, bound) && c == ContextOver(g, n, at, bound);
      ContextOverIs(g, n, at, bound);
      ContextOverIs(f, n, at, Slice(m, w));
      assert forall i :: 0 <= i < |bound| ==> Slice(m, w)[i] < |exprs| && bound[i] == exprs[Slice(m, w)[i]];
    }
    var i := FullMapped(d, c, n, Slice(m, l), list, p);
  }

  /** A call of a graph in order. */
  lemma CallOk(A: Arena, e: nat, f: nat, k: nat, c: Context, list: seq<nat>)
    requires ArenaOk(A) && e < |A.nodes| && A.nodes[e] == Rewriting.Call(f, k, c, list)
    ensures f < |A.funcs| && ContextOk(c, |A.funcs[f].params|) && |list| == Arity(c, |A.funcs[f].params|)
    ensures forall p :: 0 <= p < |A.funcs[f].params| ==> FullArgs(c, |A.funcs[f].params|, list)[p] < e
  {
    hide ContextOk;
    assert NodeOk(A, e);
    FullBelow(A, e);
  }

  lemma LoadedFunc(m: Module, map': LoadMap, A: Arena, base: nat, names: seq<string>, zero: nat, f: nat)
    requires LoadedAs(m, map', base, A, names, zero) && f < |m.funcs|
    ensures base + f < |A.funcs| && FuncImage(m, map', A.funcs[base + f], f)
    ensures |A.funcs[base + f].outputs| == |m.funcs[f].outputs|
  {
    hide FuncImage, NodesMapped, SymbolsMapped;
    assert map'.funcs[f] == Some(base + f) && AllOutputs(m, A, base, f);
  }

  lemma ExprsBelow(m: Module, map': LoadMap, A: Arena, base: nat, names: seq<string>, zero: nat)
    requires LoadedAs(m, map', base, A, names, zero)
    ensures |map'.exprs| == |m.nodes| && forall j :: 0 <= j < |m.nodes| ==> map'.exprs[j] < |A.nodes|
  {
  }

  /** A call's operands have the values of the call it stands for. */
  lemma CallOperands<V(!new)>(W: World<V>, X: World<V>, m: Module, map': LoadMap, base: nat, A: Arena,
                              names: seq<string>, zero: nat, env: Env<V>, env': Env<V>, j: nat, o: nat, l: Window,
                              c: Context, list: seq<nat>)
    requires Loads(W, X, m, map', base, A, names, zero) && j < |m.nodes| && Related(W, X, m, map', env, env')
    requires m.nodes[j] == Call(o, l) && CallOutput(m, o)
    requires j < |map'.exprs| && map'.exprs[j] < |A.nodes|
    requires CallImage(m, map'.exprs, base, A, zero, o, l, map'.exprs[j], c, list)
    requires A.nodes[map'.exprs[j]] == Rewriting.Call(base + m.callOutputs[o].0, m.callOutputs[o].1, c, list)
    ensures var (f, k) := m.callOutputs[o];
            var S, e := Resolved(m), map'.exprs[j];
            var n, d := |m.funcs[f].params|, ResolvedContext(m, o, f, |m.funcs[f].params|);
            && ContextOk(c, n) && ContextOk(d, n) && |list| == Arity(c, n) && |Slice(m, l)| == Arity(d, n)
            && (forall p :: 0 <= p < n ==> FullArgs(d, n, Slice(m, l))[p] < j && FullArgs(c, n, list)[p] < e)
            && Evals(X, A, env', FullArgs(c, n, list), e) == Evals(W, S, env, FullArgs(d, n, Slice(m, l)), j)
    decreases j, 1
  {
    hide Passes, LoadReady, Sound, LoadedAs, Alike, Related, Eval, ContextOk, FullArgs, ContextImage, ListMapped,
      ArenaOk, CallOutputFits, ResolvedContext;
    var (f, k) := m.callOutputs[o];
    var S, e := Resolved(m), map'.exprs[j];
    ResolvedAt(m, j, o, l);
    var n, c', was := |m.funcs[f].params|, ResolvedContext(m, o, f, |m.funcs[f].params|), Slice(m, l);
    LoadedFunc(m, map', A, base, names, zero, f);
    ExprsBelow(m, map', A, base, names, zero);
    CallOk(A, e, base + f, k, c, list);
    CallOk(S, j, f, k, c', was);
    forall p | 0 <= p < n
      ensures FullArgs(c', n, was)[p] < j && FullArgs(c, n, list)[p] < e
              && FullArgs(c, n, list)[p] == map'.exprs[FullArgs(c', n, was)[p]] {
      FullImage(m, map'.exprs, o, l, f, base + f, n, c, list, p);
    }
    ListValues(W, X, m, map', base, A, names, zero, env, env', FullArgs(c', n, was), j, FullArgs(c, n, list), e);
  }

  lemma ResolvedAt(m: Module, j: nat, o: nat, l: Window)
    requires Passes(m) && j < |m.nodes| && m.nodes[j] == Call(o, l)
    ensures CallOutput(m, o) && m.callOutputs[o].0 < |m.funcs|
    ensures var (f, k) := m.callOutputs[o];
            && Resolved(m).nodes[j] == Rewriting.Call(f, k, ResolvedContext(m, o, f, |m.funcs[f].params|), Slice(m, l))
            && |Resolved(m).funcs| == |m.funcs| && Resolved(m).funcs[f].params == m.funcs[f].params
            && (m.contexts[o].Some? ==> |m.contexts[o].value.0| == m.contexts[o].value.1.len)
            && k < |m.funcs[f].outputs| && OutputBefore(m.funcs[f].outputs[k], j)
            && Resolved(m).funcs[f].outputs == m.funcs[f].outputs
  {
    hide Passes, ResolvedContext;
    CallFacts(m, j, o, l);
  }

  lemma OpBelow(A: Arena, e: nat)
    requires ArenaOk(A) && e < |A.nodes| && A.nodes[e].Op?
    ensures forall k :: 0 <= k < |A.nodes[e].args| ==> A.nodes[e].args[k] < e
  {
    assert NodeOk(A, e);
    forall k | 0 <= k < |A.nodes[e].args| ensures A.nodes[e].args[k] < e {
      assert A.nodes[e].args[k] in A.nodes[e].Operands();
    }
  }

  lemma SameOps<V(!new)>(W: World<V>, X: World<V>, m: Module, base: nat)
    requires Alike(W, X, m, base)
    ensures X.konst == W.konst && X.op == W.op
  {
  }

  lemma OpValue<V(!new)>(W: World<V>, X: World<V>, m: Module, map': LoadMap, base: nat, A: Arena, names: seq<string>,
                         zero: nat, env: Env<V>, env': Env<V>, j: nat, e: nat)
    requires Loads(W, X, m, map', base, A, names, zero) && j < |m.nodes| && Related(W, X, m, map', env, env')
    requires e < |A.nodes| && A.nodes[e].Op? && Resolved(m).nodes[j].Op? && A.nodes[e].op == Resolved(m).nodes[j].op
    requires |A.nodes[e].args| == |Resolved(m).nodes[j].args|
    requires forall k :: 0 <= k < |A.nodes[e].args| ==>
               && Resolved(m).nodes[j].args[k] < |map'.exprs|
               && A.nodes[e].args[k] == map'.exprs[Resolved(m).nodes[j].args[k]]
    ensures Eval(X, A, env', e) == Eval(W, Resolved(m), env, j)
    decreases j, 1
  {
    hide Passes, LoadReady, Sound, LoadedAs, Alike, Related, ArenaOk;
    var S := Resolved(m);
    OpBelow(A, e);
    OpBelow(S, j);
    ListValues(W, X, m, map', base, A, names, zero, env, env', S.nodes[j].args, j, A.nodes[e].args, e);
    SameOps(W, X, m, base);
  }

  lemma ImageAt(m: Module, map': LoadMap, A: Arena, base: nat, names: seq<string>, zero: nat, j: nat)
    requires LoadedAs(m, map', base, A, names, zero) && j < |m.nodes|
    ensures j < |map'.exprs| && map'.exprs[j] < |A.nodes|
    ensures NodeImage(m, map'.exprs, base, A, names, zero, j, map'.exprs[j])
  {
    hide NodeImage, FuncsMapped, SymbolsMapped;
  }

  /** The symbol of a symbol's node is the one mapped. */
  lemma SymbolImage(m: Module, map': LoadMap, A: Arena, base: nat, names: seq<string>, zero: nat, j: nat, s: nat)
    requires LoadedAs(m, map', base, A, names, zero) && Distinct(names) && j < |m.nodes| && m.nodes[j] == Symbol(s)
    requires j < |map'.exprs| && map'.exprs[j] < |A.nodes|
    requires NodeImage(m, map'.exprs, base, A, names, zero, j, map'.exprs[j])
    ensures s < |map'.symbols| == |m.symbols| && map'.symbols[s].Some?
    ensures A.nodes[map'.exprs[j]] == Rewriting.Symbol(map'.symbols[s].value)
  {
    hide NodesMapped, FuncsMapped, AllOutputs;
    assert Met(m, s, |map'.exprs|);
  }

  lemma EvalConst<V>(W: World<V>, A: Arena, env: Env<V>, e: nat)
    requires ArenaOk(A) && e < |A.nodes| && A.nodes[e].Const?
    ensures Eval(W, A, env, e) == W.konst(A.nodes[e].c)
  {
  }

  lemma SameExt<V(!new)>(W: World<V>, X: World<V>, m: Module, base: nat, f: nat, k: nat, vals: seq<V>)
    requires Alike(W, X, m, base) && f < |m.funcs|
    ensures X.ext(base + f, k, vals) == W.ext(f, k, vals)
  {
  }

  lemma EvalCall<V>(W: World<V>, A: Arena, env: Env<V>, e: nat, f: nat, k: nat, c: Context, list: seq<nat>)
    requires ArenaOk(A) && e < |A.nodes| && A.nodes[e] == Rewriting.Call(f, k, c, list)
    ensures f < |A.funcs| && k < |A.funcs[f].outputs| && ContextOk(c, |A.funcs[f].params|)
    ensures |list| == Arity(c, |A.funcs[f].params|)
    ensures OutputOk(A.funcs[f].outputs[k], A.funcs[f].external, e)
    ensures var full := FullArgs(c, |A.funcs[f].params|, list);
            (forall p :: 0 <= p < |full| ==> full[p] < e)
            && Eval(W, A, env, e) == CallValue(W, A, env, f, k, Evals(W, A, env, full, e), e)
  {
    hide ContextOk, FullArgs, CallValue;
    assert NodeOk(A, e);
    FullBelow(A, e);
  }

  lemma MappedOutput(m: Module, map': LoadMap, A: Arena, base: nat, f: nat, k: nat)
    requires f < |m.funcs| && k < |m.funcs[f].outputs|
    requires base + f < |A.funcs| && FuncImage(m, map', A.funcs[base + f], f)
    requires |A.funcs[base + f].outputs| == |m.funcs[f].outputs|
    ensures OutputBefore(m.funcs[f].outputs[k], |map'.exprs|)
    ensures A.funcs[base + f].outputs[k] == MapOutput(map'.exprs, m.funcs[f].outputs[k])
    ensures |A.funcs[base + f].params| == |m.funcs[f].params|
  {
  }

  /** A body's value where its parameters have these values. */
  lemma BodyValue<V(!new)>(W: World<V>, X: World<V>, m: Module, map': LoadMap, base: nat, A: Arena,
                           names: seq<string>, zero: nat, env: Env<V>, env': Env<V>, f: nat, b: nat, vals: seq<V>)
    requires Loads(W, X, m, map', base, A, names, zero) && Related(W, X, m, map', env, env') && f < |m.funcs|
    requires base + f < |A.funcs| && |vals| == |A.funcs[base + f].params| == |m.funcs[f].params| && b < |m.nodes|
    ensures b < |map'.exprs| && map'.exprs[b] < |A.nodes|
    ensures Eval(X, A, BindEnv(env', A.funcs[base + f].params, vals), map'.exprs[b])
         == Eval(W, Resolved(m), BindEnv(env, m.funcs[f].params, vals), b)
    decreases b, 4
  {
    hide Passes, LoadReady, Alike, Related, ArenaOk, NodesMapped, FuncsMapped, AllOutputs, SymbolsMapped, FuncImage;
    assert FuncSound(m.funcs[f]);
    LoadedFunc(m, map', A, base, names, zero, f);
    ParamsDistinct(m, map', names, A.funcs[base + f], f);
    BindRelated(W, X, m, map', names, A.funcs[base + f], f, env, env', vals);
    Value(W, X, m, map', base, A, names, zero, BindEnv(env, m.funcs[f].params, vals),
          BindEnv(env', A.funcs[base + f].params, vals), b);
  }

  /** A call of the module and what it is loaded as have one value. */
  lemma CallValues<V(!new)>(W: World<V>, X: World<V>, m: Module, map': LoadMap, base: nat, A: Arena,
                            names: seq<string>, zero: nat, env: Env<V>, env': Env<V>, j: nat, o: nat, l: Window,
                            c: Context, list: seq<nat>)
    requires Loads(W, X, m, map', base, A, names, zero) && j < |m.nodes| && Related(W, X, m, map', env, env')
    requires m.nodes[j] == Call(o, l) && CallOutput(m, o) && m.callOutputs[o].0 < |m.funcs|
    requires j < |map'.exprs| && map'.exprs[j] < |A.nodes|
    requires CallImage(m, map'.exprs, base, A, zero, o, l, map'.exprs[j], c, list)
    ensures Eval(X, A, env', map'.exprs[j]) == Eval(W, Resolved(m), env, j)
    decreases j, 2
  {
    hide Passes, LoadReady, Sound, LoadedAs, Related, Eval, Alike, ContextOk, FullArgs, ContextImage, ListMapped,
      ArenaOk, ResolvedContext, CallOutputFits, FuncImage;
    var (f, k) := m.callOutputs[o];
    var S, e := Resolved(m), map'.exprs[j];
    ResolvedAt(m, j, o, l);
    LoadedFunc(m, map', A, base, names, zero, f);
    SameOps(W, X, m, base);
    var n, c', was := |m.funcs[f].params|, ResolvedContext(m, o, f, |m.funcs[f].params|), Slice(m, l);
    CallOk(S, j, f, k, c', was);
    var vals := Evals(W, S, env, FullArgs(c', n, was), j);
    EvalCall(W, S, env, j, f, k, c', was);
    match m.funcs[f].outputs[k]
    case Zero =>
      MappedOutput(m, map', A, base, f, k);
      EvalConst(X, A, env', zero);
    case External(q) =>
      MappedOutput(m, map', A, base, f, k);
      CallOperands(W, X, m, map', base, A, names, zero, env, env', j, o, l, c, list);
      CallOk(A, e, base + f, k, c, list);
      EvalCall(X, A, env', e, base + f, k, c, list);
      SameExt(W, X, m, base, f, q, vals);
    case Expr(b) =>
      MappedOutput(m, map', A, base, f, k);
      BodyValue(W, X, m, map', base, A, names, zero, env, env', f, b, vals);
      if A.nodes[map'.exprs[b]].Const? {
        EvalConst(X, A, env', e);
        EvalConst(X, A, BindEnv(env', A.funcs[base + f].params, vals), e);
      } else {
        CallOperands(W, X, m, map', base, A, names, zero, env, env', j, o, l, c, list);
        CallOk(A, e, base + f, k, c, list);
        EvalCall(X, A, env', e, base + f, k, c, list);
      }
  }

  /** A node of the module and the node it is loaded as have one value. */
  lemma {:induction false} Value<V(!new)>(W: World<V>, X: World<V>, m: Module, map': LoadMap, base: nat, A: Arena,
                                          names: seq<string>, zero: nat, env: Env<V>, env': Env<V>, j: nat)
    requires Loads(W, X, m, map', base, A, names, zero) && j < |m.nodes| && Related(W, X, m, map', env, env')
    ensures j < |map'.exprs| && map'.exprs[j] < |A.nodes|
    ensures Eval(X, A, env', map'.exprs[j]) == Eval(W, Resolved(m), env, j)
    decreases j, 3
  {
    hide Passes, LoadReady, Sound, LoadedAs, Related, Alike, ArenaOk, CallImage, ListMapped, Met;
    ImageAt(m, map', A, base, names, zero, j);
    var e := map'.exprs[j];
    NodeFacts(m, j);
    match m.nodes[j]
    case Const(_) => SameOps(W, X, m, base);
    case Symbol(s) =>
      SymbolImage(m, map', A, base, names, zero, j, s);
      RelatedAt(W, X, m, map', env, env', s);
    case Inline(_, _) =>
      OpValue(W, X, m, map', base, A, names, zero, env, env', j, e);
    case Listed(_, _, l) =>
      ListSlice(m, map'.exprs, l, A.nodes[e].args);
      OpValue(W, X, m, map', base, A, names, zero, env, env', j, e);
    case Call(o, l) =>
      ResolvedAt(m, j, o, l);
      var c, list :| CallImage(m, map'.exprs, base, A, zero, o, l, e, c, list);
      CallValues(W, X, m, map', base, A, names, zero, env, env', j, o, l, c, list);
  }

  lemma RelatedAt<V>(W: World<V>, X: World<V>, m: Module, map': LoadMap, env: Env<V>, env': Env<V>, s: nat)
    requires Related(W, X, m, map', env, env') && s < |map'.symbols| && map'.symbols[s].Some?
    ensures Look(X, env', map'.symbols[s].value) == Look(W, env, s)
  {
  }

  lemma ListSlice(m: Module, exprs: seq<nat>, l: Window, r: seq<nat>)
    requires ListMapped(m, exprs, l, r)
    ensures |Slice(m, l)| == |r|
    ensures forall k :: 0 <= k < |r| ==> Slice(m, l)[k] < |exprs| && r[k] == exprs[Slice(m, l)[k]]
  {
  }

  /** Loading keeps the values of the graph loaded into, and gives every node of the module its
      value in the module. */
  lemma LoadKeepsValues<V(!new)>(W: World<V>, X: World<V>, m: Module, map': LoadMap, was: Arena, A: Arena,
                                 names: seq<string>, zero: nat, env: Env<V>, env': Env<V>, j: nat, e: nat)
    requires Passes(m) && LoadReady(m) && Sound(m) && j < |m.nodes|
    requires ArenaOk(was) && Extends(was, A) && Arranged(A) && Distinct(names) && e < |was.nodes|
    requires LoadedAs(m, map', |was.funcs|, A, names, zero)
    requires Alike(W, X, m, |was.funcs|) && zero < |A.nodes| && A.nodes[zero] == Rewriting.Const(W.zero)
    requires Related(W, X, m, map', env, env')
    ensures ArenaOk(Resolved(m)) && ArenaOk(A)
    ensures map'.exprs[j] < |A.nodes| && Eval(X, A, env', map'.exprs[j]) == Eval(W, Resolved(m), env, j)
    ensures Eval(X, A, env', e) == Eval(X, was, env', e)
  {
    hide Passes, LoadReady, Sound, Alike, Related, LoadedAs, Arranged, Eval, ArenaOk;
    ResolvedOk(m);
    LoadedOk(m, map', was, A, names, zero);
    ExprsBelow(m, map', A, |was.funcs|, names, zero);
    Value(W, X, m, map', |was.funcs|, A, names, zero, env, env', j);
    EvalExtends(X, was, A, env', e);
  }
}
