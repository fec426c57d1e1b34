/** What a rewrite that substitutes expressions for symbols has to leave: the value of the
    original where the symbols are bound to the expressions' values. It does so as long as
    no expression put into a called body depends on a parameter of that body. */
module Substitutions {
  import opened Arenas
  import opened Bindings
  import opened Dependence
  import opened Rewriting

  type Map = map<nat, nat>

  ghost predicate MapOk(A: Arena, m: Map) { forall s :: s in m ==> m[s] < |A.nodes| }

  /** `env` as the substituted expressions bind it. */
  ghost function Compose<V(!new)>(W: World<V>, A: Arena, env: Env<V>, m: Map): (r: Env<V>)
    requires ArenaOk(A) && MapOk(A, m)
    ensures forall s :: Look(W, r, s) == if s in m then Eval(W, A, env, m[s]) else Look(W, env, s)
  {
    map s | s in env.Keys + m.Keys :: if s in m then Eval(W, A, env, m[s]) else env[s]
  }

  /** What `m` binds of the globals of `f`, to something else than themselves. */
  function Rebinding(A: Arena, m: Map, f: nat): (r: Map)
    requires ArenaOk(A) && MapOk(A, m) && f < |A.funcs|
    ensures MapOk(A, r) && forall s :: s in r <==> s in m && Global(A, f, s) && A.nodes[m[s]] != Symbol(s)
    ensures forall s :: s in r ==> r[s] == m[s]
  {
    map s | s in m && Global(A, f, s) && A.nodes[m[s]] != Symbol(s) :: m[s]
  }

  /** Output `k` of `f` depends on no replaced symbol whose replacement depends on a parameter. */
  ghost predicate NoCapture(A: Arena, m: Map, f: nat, k: nat)
    requires ArenaOk(A) && MapOk(A, m)
    requires f < |A.funcs| && k < |A.funcs[f].outputs| && A.funcs[f].outputs[k].Expr?
  {
    assert FuncOk(A, f);
    var params, b := A.funcs[f].params, A.funcs[f].outputs[k].e;
    forall s, p :: s in m && s !in params && Sees(A, b, s) && p in params ==> !Sees(A, m[s], p)
  }

  /** Nothing is captured in any body `m` is put into, however deep. */
  ghost predicate Uncaptured(A: Arena, m: Map, e: nat)
    requires ArenaOk(A) && MapOk(A, m) && e < |A.nodes|
    decreases e
  {
    assert NodeOk(A, e);
    var n := A.nodes[e];
    && (forall i :: 0 <= i < |n.Operands()| ==> Below1(n.Operands()[i], e) && Uncaptured(A, m, n.Operands()[i]))
    && (n.Call? && A.funcs[n.f].outputs[n.out].Expr? && Rebinding(A, m, n.f) != map[] ==>
          NoCapture(A, m, n.f, n.out) && Uncaptured(A, Rebinding(A, m, n.f), A.funcs[n.f].outputs[n.out].e))
  }

  /** Every call among `e` and what it is built of is of a function in `fs`. */
  ghost predicate Calls(A: Arena, e: nat, fs: iset<nat>)
    requires ArenaOk(A) && e < |A.nodes|
    decreases e
  {
    assert NodeOk(A, e);
    var n := A.nodes[e];
    && (n.Call? ==> n.f in fs)
    && forall i :: 0 <= i < |n.Operands()| ==> Below1(n.Operands()[i], e) && Calls(A, n.Operands()[i], fs)
  }

  /** `d` is `e`, or an operand reached from it through operands. */
  ghost predicate Reaches(A: Arena, e: nat, d: nat)
    requires ArenaOk(A) && e < |A.nodes|
    decreases e
  {
    assert NodeOk(A, e);
    d == e || exists o :: o in A.nodes[e].Operands() && Below1(o, e) && Reaches(A, o, d)
  }

  /** Keeping to a set of functions, read off the nodes reached. */
  lemma {:induction false} ReachedCalls(A: Arena, e: nat, fs: iset<nat>, d: nat)
    requires ArenaOk(A) && e < |A.nodes| && Calls(A, e, fs) && Reaches(A, e, d)
    ensures d < |A.nodes| && (A.nodes[d].Call? ==> A.nodes[d].f in fs)
    decreases e
  {
    assert NodeOk(A, e);
    if d != e {
      var o :| o in A.nodes[e].Operands() && Below1(o, e) && Reaches(A, o, d);
      var i :| 0 <= i < |A.nodes[e].Operands()| && A.nodes[e].Operands()[i] == o;
      ReachedCalls(A, o, fs, d);
    }
  }

  lemma {:induction false} ReachesExtends(A: Arena, B: Arena, e: nat, d: nat)
    requires ArenaOk(A) && ArenaOk(B) && Extends(A, B) && e < |A.nodes|
    ensures Reaches(B, e, d) <==> Reaches(A, e, d)
    ensures Reaches(A, e, d) ==> d <= e
    decreases e
  {
    assert NodeOk(A, e);
    forall o | o in A.nodes[e].Operands() ensures Reaches(B, o, d) <==> Reaches(A, o, d)
      ensures Reaches(A, o, d) ==> d <= o < e {
      ReachesExtends(A, B, o, d);
    }
  }

  /** The functions of a height below `h`. */
  ghost function Lower(A: Arena, h: nat): iset<nat> { iset f: nat | f < |A.funcs| && A.funcs[f].height < h }

  ghost predicate ReadsNoGlobal(A: Arena, f: nat)
    requires ArenaOk(A)
  { f < |A.funcs| && forall s :: !Global(A, f, s) }

  /** The functions that read nothing but their parameters. */
  ghost function Pure(A: Arena): iset<nat>
    requires ArenaOk(A)
  { iset f: nat | ReadsNoGlobal(A, f) }

  /** The bodies of a function call lower ones only. */
  ghost predicate HeightOk(A: Arena, f: nat)
    requires ArenaOk(A) && f < |A.funcs|
  {
    assert FuncOk(A, f);
    forall k :: 0 <= k < |A.funcs[f].outputs| && A.funcs[f].outputs[k].Expr? ==>
      Calls(A, A.funcs[f].outputs[k].e, Lower(A, A.funcs[f].height))
  }

  ghost predicate HeightsOk(A: Arena)
    requires ArenaOk(A)
  { forall f :: 0 <= f < |A.funcs| ==> HeightOk(A, f) }

  ghost predicate AllConst(A: Arena, m: Map) { forall s :: s in m ==> m[s] < |A.nodes| && A.nodes[m[s]].Const? }

  ghost predicate MapCalls(A: Arena, m: Map, fs: iset<nat>)
    requires ArenaOk(A) && MapOk(A, m)
  { forall s :: s in m ==> Calls(A, m[s], fs) }

  // --- what a substitution leaves ---------------------------------------------------------------------

  ghost predicate SameValue<V(!new)>(W: World<V>, A: Arena, m: Map, e: nat, r: nat)
    requires ArenaOk(A) && MapOk(A, m) && e < |A.nodes| && r < |A.nodes|
  { forall env: Env<V> :: Eval(W, A, env, r) == Eval(W, A, Compose(W, A, env, m), e) }

  /** Whatever functions of parameters alone `e` and the replacements keep to, `r` keeps to:
      no call is made that neither had. */
  ghost predicate KeepsCalls(A: Arena, m: Map, e: nat, r: nat)
    requires ArenaOk(A) && MapOk(A, m) && e < |A.nodes| && r < |A.nodes|
  { forall fs: iset<nat> :: fs <= Pure(A) && MapCalls(A, m, fs) && Calls(A, e, fs) ==> Calls(A, r, fs) }

  /** `r` is `e` with `m` put in. */
  ghost predicate SubstOk<V(!new)>(W: World<V>, A: Arena, m: Map, e: nat, r: nat)
    requires ArenaOk(A) && MapOk(A, m)
  {
    && e < |A.nodes| && r < |A.nodes|
    && (Uncaptured(A, m, e) ==> SameValue(W, A, m, e, r))
    && (AllConst(A, m) ==> forall h: nat :: Calls(A, e, Lower(A, h)) ==> Calls(A, r, Lower(A, h)))
    && KeepsCalls(A, m, e, r)
  }

  /** `g` is `f` with `m` put into its bodies. */
  ghost predicate CopyOk<V(!new)>(W: World<V>, A: Arena, f: nat, m: Map, g: nat)
    requires ArenaOk(A) && MapOk(A, m)
  {
    && f < |A.funcs| && g < |A.funcs|
    && A.funcs[g].params == A.funcs[f].params && A.funcs[g].keeps == A.funcs[f].keeps
    && |A.funcs[g].outputs| == |A.funcs[f].outputs|
    && (AllConst(A, m) ==> A.funcs[g].height <= A.funcs[f].height)
    && forall k :: 0 <= k < |A.funcs[f].outputs| ==> OutputCopyOk(W, A, m, A.funcs[f].outputs[k], A.funcs[g].outputs[k])
  }

  ghost predicate OutputCopyOk<V(!new)>(W: World<V>, A: Arena, m: Map, o: Output, p: Output)
    requires ArenaOk(A) && MapOk(A, m)
  {
    match o
    case Expr(b) => p.Expr? && SubstOk(W, A, m, b, p.e)
    case External(_) => false
    case Zero => p.Zero?
  }

  // --- growth -----------------------------------------------------------------------------------------------

  lemma RebindingExtends(A: Arena, B: Arena, m: Map, f: nat)
    requires ArenaOk(A) && ArenaOk(B) && Extends(A, B) && MapOk(A, m) && f < |A.funcs|
    ensures MapOk(B, m) && Rebinding(B, m, f) == Rebinding(A, m, f)
  {
    hide Global;
    forall s | s in m ensures Global(B, f, s) <==> Global(A, f, s) { GlobalExtends(A, B, f, s); }
  }

  lemma NoCaptureExtends(A: Arena, B: Arena, m: Map, f: nat, k: nat)
    requires ArenaOk(A) && ArenaOk(B) && Extends(A, B) && MapOk(A, m)
    requires f < |A.funcs| && k < |A.funcs[f].outputs| && A.funcs[f].outputs[k].Expr?
    ensures MapOk(B, m) && (NoCapture(B, m, f, k) <==> NoCapture(A, m, f, k))
  {
    hide Sees;
    assert FuncOk(A, f);
    var b := A.funcs[f].outputs[k].e;
    forall s, p | s in m ensures (Sees(B, b, s) <==> Sees(A, b, s)) && (Sees(B, m[s], p) <==> Sees(A, m[s], p)) {
      SeesExtends(A, B, b, s);
      SeesExtends(A, B, m[s], p);
    }
  }

  lemma {:induction false} CaptureExtends(A: Arena, B: Arena, m: Map, e: nat)
    requires ArenaOk(A) && ArenaOk(B) && Extends(A, B) && MapOk(A, m) && e < |A.nodes|
    ensures MapOk(B, m) && (Uncaptured(B, m, e) <==> Uncaptured(A, m, e))
    decreases e
  {
    hide Rebinding, NoCapture;
    assert NodeOk(A, e);
    var n := A.nodes[e];
    forall i | 0 <= i < |n.Operands()|
      ensures n.Operands()[i] < e && (Uncaptured(B, m, n.Operands()[i]) <==> Uncaptured(A, m, n.Operands()[i])) {
      assert n.Operands()[i] in n.Operands();
      CaptureExtends(A, B, m, n.Operands()[i]);
    }
    if n.Call? && A.funcs[n.f].outputs[n.out].Expr? {
      RebindingExtends(A, B, m, n.f);
      NoCaptureExtends(A, B, m, n.f, n.out);
      CaptureExtends(A, B, Rebinding(A, m, n.f), A.funcs[n.f].outputs[n.out].e);
    }
  }

  lemma {:induction false} CallsExtends(A: Arena, B: Arena, e: nat, fs: iset<nat>, gs: iset<nat>)
    requires ArenaOk(A) && ArenaOk(B) && Extends(A, B) && e < |A.nodes|
    requires forall f :: 0 <= f < |A.funcs| ==> (f in fs <==> f in gs)
    ensures Calls(B, e, gs) <==> Calls(A, e, fs)
    decreases e
  {
    assert NodeOk(A, e);
    var n := A.nodes[e];
    forall i | 0 <= i < |n.Operands()|
      ensures n.Operands()[i] < e && (Calls(B, n.Operands()[i], gs) <==> Calls(A, n.Operands()[i], fs)) {
      assert n.Operands()[i] in n.Operands();
      CallsExtends(A, B, n.Operands()[i], fs, gs);
    }
  }

  lemma PureExtends(A: Arena, B: Arena)
    requires ArenaOk(A) && ArenaOk(B) && Extends(A, B)
    ensures forall f :: 0 <= f < |A.funcs| ==> (f in Pure(A) <==> f in Pure(B))
  {
    hide Global;
    forall f | 0 <= f < |A.funcs| ensures f in Pure(A) <==> f in Pure(B) {
      forall s ensures Global(B, f, s) <==> Global(A, f, s) { GlobalExtends(A, B, f, s); }
    }
  }

  lemma ComposeExtends<V(!new)>(W: World<V>, A: Arena, B: Arena, env: Env<V>, m: Map, e: nat)
    requires ArenaOk(A) && ArenaOk(B) && Extends(A, B) && MapOk(A, m) && e < |A.nodes|
    ensures MapOk(B, m) && Eval(W, B, Compose(W, B, env, m), e) == Eval(W, A, Compose(W, A, env, m), e)
  {
    var a, b := Compose(W, A, env, m), Compose(W, B, env, m);
    forall s ensures Look(W, a, s) == Look(W, b, s) { if s in m { EvalExtends(W, A, B, env, m[s]); } }
    EvalExtends(W, A, B, b, e);
    EvalAgrees(W, A, a, b, e);
  }

  lemma KeepsExtends(A: Arena, B: Arena, m: Map, e: nat, r: nat)
    requires ArenaOk(A) && ArenaOk(B) && Extends(A, B) && MapOk(A, m) && e < |A.nodes| && r < |A.nodes|
    requires KeepsCalls(A, m, e, r)
    ensures MapOk(B, m) && KeepsCalls(B, m, e, r)
  {
    hide Calls, Pure;
    PureExtends(A, B);
    forall fs: iset<nat> | fs <= Pure(B) && MapCalls(B, m, fs) && Calls(B, e, fs) ensures Calls(B, r, fs) {
      var gs := iset f: nat | f in fs && f < |A.funcs|;
      forall s | s in m ensures Calls(A, m[s], gs) { CallsExtends(A, B, m[s], gs, fs); }
      CallsExtends(A, B, e, gs, fs);
      CallsExtends(A, B, r, gs, fs);
      assert gs <= Pure(A);
    }
  }

  lemma SubstExtends<V(!new)>(W: World<V>, A: Arena, B: Arena, m: Map, e: nat, r: nat)
    requires ArenaOk(A) && ArenaOk(B) && Extends(A, B) && MapOk(A, m) && SubstOk(W, A, m, e, r)
    ensures MapOk(B, m) && SubstOk(W, B, m, e, r)
  {
    hide Eval, Uncaptured, Calls, KeepsCalls, Compose;
    CaptureExtends(A, B, m, e);
    if Uncaptured(B, m, e) {
      forall env: Env<V> ensures Eval(W, B, env, r) == Eval(W, B, Compose(W, B, env, m), e) {
        ComposeExtends(W, A, B, env, m, e);
        EvalExtends(W, A, B, env, r);
      }
    }
    forall h: nat ensures Calls(B, e, Lower(B, h)) <==> Calls(A, e, Lower(A, h))
      ensures Calls(B, r, Lower(B, h)) <==> Calls(A, r, Lower(A, h)) {
      CallsExtends(A, B, e, Lower(A, h), Lower(B, h));
      CallsExtends(A, B, r, Lower(A, h), Lower(B, h));
    }
    KeepsExtends(A, B, m, e, r);
  }

  lemma CopyExtends<V(!new)>(W: World<V>, A: Arena, B: Arena, f: nat, m: Map, g: nat)
    requires ArenaOk(A) && ArenaOk(B) && Extends(A, B) && MapOk(A, m) && CopyOk(W, A, f, m, g)
    ensures MapOk(B, m) && CopyOk(W, B, f, m, g)
  {
    hide SubstOk;
    forall k | 0 <= k < |A.funcs[f].outputs|
      ensures OutputCopyOk(W, B, m, B.funcs[f].outputs[k], B.funcs[g].outputs[k]) {
      var o := A.funcs[f].outputs[k];
      assert OutputCopyOk(W, A, m, o, A.funcs[g].outputs[k]);
      if o.Expr? { SubstExtends(W, A, B, m, o.e, A.funcs[g].outputs[k].e); }
    }
  }

  // --- one node ------------------------------------------------------------------------------------------------

  lemma SubstLeaf<V(!new)>(W: World<V>, A: Arena, m: Map, e: nat)
    requires ArenaOk(A) && MapOk(A, m) && e < |A.nodes| && (A.nodes[e].Const? || A.nodes[e].Symbol?)
    ensures SubstOk(W, A, m, e, if A.nodes[e].Symbol? && A.nodes[e].s in m then m[A.nodes[e].s] else e)
  {
    hide Compose, Uncaptured;
    assert NodeOk(A, e);
    var n := A.nodes[e];
    var r := if n.Symbol? && n.s in m then m[n.s] else e;
    forall env: Env<V> ensures Eval(W, A, env, r) == Eval(W, A, Compose(W, A, env, m), e) {}
    if AllConst(A, m) {
      forall h: nat ensures Calls(A, r, Lower(A, h)) { if r != e { assert NodeOk(A, r); } }
    }
  }

  /** `r` is operation `op` over `news`. */
  ghost predicate BuiltOk<V(!new)>(W: World<V>, A: Arena, op: nat, news: seq<nat>, r: nat)
    requires ArenaOk(A)
  {
    && r < |A.nodes| && (forall i :: 0 <= i < |news| ==> news[i] < |A.nodes|)
    && (A.nodes[r].Const? || A.nodes[r] == Op(op, news))
    && (forall env: Env<V> :: Eval(W, A, env, r) == W.op(op, Evals(W, A, env, news, |A.nodes|)))
    && (forall fs: iset<nat> :: (forall i :: 0 <= i < |news| ==> Calls(A, news[i], fs)) ==> Calls(A, r, fs))
  }

  /** `news` are the operands of `e` with `m` put in. */
  ghost predicate OperandsOk<V(!new)>(W: World<V>, A: Arena, m: Map, e: nat, news: seq<nat>)
    requires ArenaOk(A) && MapOk(A, m)
  {
    e < |A.nodes| && |news| == |A.nodes[e].Operands()|
        && forall i :: 0 <= i < |news| ==> SubstOk(W, A, m, A.nodes[e].Operands()[i], news[i])
  }

  /** What the operands' calls say of the node's. */
  lemma OperandCalls<V(!new)>(W: World<V>, A: Arena, m: Map, e: nat, news: seq<nat>, i: nat)
    requires ArenaOk(A) && MapOk(A, m) && OperandsOk(W, A, m, e, news) && i < |news|
    ensures A.nodes[e].Operands()[i] < e && news[i] < |A.nodes|
    ensures AllConst(A, m) ==> forall h: nat :: Calls(A, e, Lower(A, h)) ==> Calls(A, news[i], Lower(A, h))
    ensures forall fs: iset<nat> :: fs <= Pure(A) && MapCalls(A, m, fs) && Calls(A, e, fs) ==> Calls(A, news[i], fs)
    ensures Uncaptured(A, m, e) ==> SameValue(W, A, m, A.nodes[e].Operands()[i], news[i])
  {
    hide Lower, Pure, SameValue;
    assert NodeOk(A, e);
    var o := A.nodes[e].Operands()[i];
    assert o in A.nodes[e].Operands();
    assert SubstOk(W, A, m, o, news[i]);
  }

  lemma SubstOp<V(!new)>(W: World<V>, A: Arena, m: Map, e: nat, news: seq<nat>, r: nat)
    requires ArenaOk(A) && MapOk(A, m) && OperandsOk(W, A, m, e, news) && A.nodes[e].Op?
             && BuiltOk(W, A, A.nodes[e].op, news, r)
    ensures SubstOk(W, A, m, e, r)
  {
    hide Uncaptured, Calls, Compose, OperandsOk, Lower, Pure;
    LengthOk(W, A, m, e, news);
    assert NodeOk(A, e);
    var args := A.nodes[e].args;
    forall i | 0 <= i < |news| ensures args[i] < e && news[i] < |A.nodes| { OperandCalls(W, A, m, e, news, i); }
    if Uncaptured(A, m, e) {
      forall env: Env<V> ensures Eval(W, A, env, r) == Eval(W, A, Compose(W, A, env, m), e) {
        forall i | 0 <= i < |news| ensures Eval(W, A, env, news[i]) == Eval(W, A, Compose(W, A, env, m), args[i]) {
          OperandCalls(W, A, m, e, news, i);
        }
        assert Evals(W, A, env, news, |A.nodes|) == Evals(W, A, Compose(W, A, env, m), args, e);
      }
    }
    if AllConst(A, m) {
      forall h: nat | Calls(A, e, Lower(A, h)) ensures Calls(A, r, Lower(A, h)) {
        forall i | 0 <= i < |news| ensures Calls(A, news[i], Lower(A, h)) { OperandCalls(W, A, m, e, news, i); }
      }
    }
    forall fs: iset<nat> | fs <= Pure(A) && MapCalls(A, m, fs) && Calls(A, e, fs) ensures Calls(A, r, fs) {
      forall i | 0 <= i < |news| ensures Calls(A, news[i], fs) { OperandCalls(W, A, m, e, news, i); }
    }
  }

  lemma LengthOk<V(!new)>(W: World<V>, A: Arena, m: Map, e: nat, news: seq<nat>)
    requires ArenaOk(A) && MapOk(A, m) && OperandsOk(W, A, m, e, news)
    ensures e < |A.nodes| && |news| == |A.nodes[e].Operands()|
  {
  }

  /** `r` is the call of output `out` of `f` over the operands `full`. */
  ghost predicate CalledOk<V(!new)>(W: World<V>, A: Arena, f: nat, out: nat, full: seq<nat>, r: nat)
    requires ArenaOk(A)
  {
    && r < |A.nodes| && f < |A.funcs| && out < |A.funcs[f].outputs| && |full| == |A.funcs[f].params|
    && OutputOk(A.funcs[f].outputs[out], A.funcs[f].external, |A.nodes|)
    && (forall i :: 0 <= i < |full| ==> full[i] < |A.nodes|)
    && (forall env: Env<V> :: Eval(W, A, env, r) == CallValue(W, A, env, f, out, Evals(W, A, env, full, |A.nodes|),
                                                              |A.nodes|))
  }

  /** The calls of a call are its function's and its operands'. */
  ghost predicate CallCalls(A: Arena, f: nat, news: seq<nat>, r: nat)
    requires ArenaOk(A)
  {
    && r < |A.nodes| && (forall i :: 0 <= i < |news| ==> news[i] < |A.nodes|)
    && forall fs: iset<nat> :: f in fs && (forall i :: 0 <= i < |news| ==> Calls(A, news[i], fs)) ==> Calls(A, r, fs)
  }

  /** `g` is what a call of `f` must become under `m`: `f` itself if `m` binds none of its
      globals, else a copy. */
  ghost predicate TargetOk<V(!new)>(W: World<V>, A: Arena, m: Map, f: nat, g: nat)
    requires ArenaOk(A) && MapOk(A, m)
  {
    && f < |A.funcs| && g < |A.funcs|
    && if Rebinding(A, m, f) == map[] then g == f else CopyOk(W, A, f, Rebinding(A, m, f), g)
  }

  /** Inside the called body: what the copy depends on under the call's environment is what
      the original does under the substituted one. */
  lemma SeenInBody<V(!new)>(W: World<V>, A: Arena, m: Map, f: nat, k: nat, env: Env<V>, vals: seq<V>, s: nat)
    requires ArenaOk(A) && MapOk(A, m)
    requires f < |A.funcs| && k < |A.funcs[f].outputs| && A.funcs[f].outputs[k].Expr? && FuncOk(A, f)
    requires |vals| == |A.funcs[f].params| && Sees(A, A.funcs[f].outputs[k].e, s)
    requires Rebinding(A, m, f) != map[] ==> NoCapture(A, m, f, k)
    ensures var params := A.funcs[f].params;
            Look(W, Compose(W, A, BindEnv(env, params, vals), Rebinding(A, m, f)), s) ==
            Look(W, BindEnv(Compose(W, A, env, m), params, vals), s)
  {
    hide Sees, Reads;
    var params, t := A.funcs[f].params, Rebinding(A, m, f);
    var inner := BindEnv(env, params, vals);
    if s !in params {
      SeesReads(A, A.funcs[f].outputs[k].e, s);
      assert OutputReads(A, f, k, s) && Global(A, f, s);
      if s in t {
        forall p | Sees(A, t[s], p) ensures Look(W, inner, p) == Look(W, env, p) {}
        SeenAgrees(W, A, inner, env, t[s]);
      } else if s in m {
        assert NodeOk(A, m[s]);
        assert Eval(W, A, env, m[s]) == Look(W, env, s);
      }
    }
  }

  /** A call of the function bound as `m` binds it has the value of the original where `m`
      holds. */
  lemma CallSame<V(!new)>(W: World<V>, A: Arena, m: Map, f: nat, g: nat, out: nat, env: Env<V>, vals: seq<V>,
                          bound: nat)
    requires ArenaOk(A) && MapOk(A, m) && TargetOk(W, A, m, f, g) && out < |A.funcs[f].outputs|
             && |vals| == |A.funcs[f].params|
    requires bound <= |A.nodes| && OutputOk(A.funcs[f].outputs[out], A.funcs[f].external, bound)
    requires A.funcs[f].outputs[out].Expr? && Rebinding(A, m, f) != map[] ==>
               NoCapture(A, m, f, out) && Uncaptured(A, Rebinding(A, m, f), A.funcs[f].outputs[out].e)
    ensures |A.funcs[g].params| == |A.funcs[f].params| && out < |A.funcs[g].outputs|
    ensures OutputOk(A.funcs[g].outputs[out], A.funcs[g].external, |A.nodes|)
    ensures CallValue(W, A, env, g, out, vals, |A.nodes|) == CallValue(W, A, Compose(W, A, env, m), f, out, vals, bound)
  {
    hide Sees, Compose, NoCapture, Uncaptured;
    assert FuncOk(A, f) && FuncOk(A, g);
    var params, t, o := A.funcs[f].params, Rebinding(A, m, f), A.funcs[f].outputs[out];
    if t != map[] { assert OutputCopyOk(W, A, t, o, A.funcs[g].outputs[out]); }
    if o.Expr? {
      var inner, outer := BindEnv(env, params, vals), BindEnv(Compose(W, A, env, m), params, vals);
      forall s | Sees(A, o.e, s) ensures Look(W, Compose(W, A, inner, t), s) == Look(W, outer, s) {
        SeenInBody(W, A, m, f, out, env, vals, s);
      }
      SeenAgrees(W, A, Compose(W, A, inner, t), outer, o.e);
      if t == map[] {
        SeenAgrees(W, A, Compose(W, A, inner, t), inner, o.e);
      } else {
        assert SameValue(W, A, t, o.e, A.funcs[g].outputs[out].e);
      }
    } else if t != map[] {
      assert o.Zero?;
    }
  }

  /** `x` is an operand of `e`, `y` what it is with `m` put in. */
  ghost predicate OperandPut<V(!new)>(W: World<V>, A: Arena, m: Map, e: nat, x: nat, y: nat)
    requires ArenaOk(A) && MapOk(A, m) && e < |A.nodes|
  { SubstOk(W, A, m, x, y) && x in A.nodes[e].Operands() }

  /** `full` is the operands of call `e` in parameter order, each with `m` put in. */
  ghost predicate FullOk<V(!new)>(W: World<V>, A: Arena, m: Map, e: nat, full: seq<nat>)
    requires ArenaOk(A) && MapOk(A, m)
  {
    && e < |A.nodes| && A.nodes[e].Call? && NodeOk(A, e)
    && var n := A.nodes[e];
       var was := FullArgs(n.ctx, |A.funcs[n.f].params|, n.list);
       |full| == |was| && forall i :: 0 <= i < |was| ==> OperandPut(W, A, m, e, was[i], full[i])
  }

  lemma SubstCallValue<V(!new)>(W: World<V>, A: Arena, m: Map, e: nat, full: seq<nat>, g: nat, r: nat, env: Env<V>)
    requires ArenaOk(A) && MapOk(A, m) && FullOk(W, A, m, e, full) && TargetOk(W, A, m, A.nodes[e].f, g)
    requires CalledOk(W, A, g, A.nodes[e].out, full, r) && Uncaptured(A, m, e)
    ensures Eval(W, A, env, r) == Eval(W, A, Compose(W, A, env, m), e)
  {
    hide Compose, TargetOk, Rebinding, NoCapture, OutputOk;
    var n := A.nodes[e];
    var k := |A.funcs[n.f].params|;
    var was := FullArgs(n.ctx, k, n.list);
    FullBelow(A, e);
    var c := Compose(W, A, env, m);
    forall i | 0 <= i < k ensures Eval(W, A, env, full[i]) == Eval(W, A, c, was[i]) {
      assert OperandPut(W, A, m, e, was[i], full[i]);
      var j :| 0 <= j < |n.Operands()| && n.Operands()[j] == was[i];
      assert Uncaptured(A, m, n.Operands()[j]);
    }
    var vals := Evals(W, A, c, was, e);
    assert Evals(W, A, env, full, |A.nodes|) == vals;
    CallSame(W, A, m, n.f, g, n.out, env, vals, e);
  }

  lemma SubstCall<V(!new)>(W: World<V>, A: Arena, m: Map, e: nat, news: seq<nat>, full: seq<nat>, g: nat, r: nat)
    requires ArenaOk(A) && MapOk(A, m) && OperandsOk(W, A, m, e, news) && FullOk(W, A, m, e, full)
    requires TargetOk(W, A, m, A.nodes[e].f, g) && CalledOk(W, A, g, A.nodes[e].out, full, r)
             && CallCalls(A, g, news, r)
    ensures SubstOk(W, A, m, e, r)
  {
    hide Uncaptured, Compose, OperandsOk, FullOk, CalledOk, TargetOk;
    LengthOk(W, A, m, e, news);
    CallIs(W, A, m, e, full);
    if Uncaptured(A, m, e) {
      forall env: Env<V> ensures Eval(W, A, env, r) == Eval(W, A, Compose(W, A, env, m), e) {
        SubstCallValue(W, A, m, e, full, g, r, env);
      }
    }
    TargetCalls(W, A, m, A.nodes[e].f, g);
    if AllConst(A, m) {
      forall h: nat | Calls(A, e, Lower(A, h)) ensures Calls(A, r, Lower(A, h)) {
        forall i | 0 <= i < |news| ensures Calls(A, news[i], Lower(A, h)) { OperandCalls(W, A, m, e, news, i); }
      }
    }
    forall fs: iset<nat> | fs <= Pure(A) && MapCalls(A, m, fs) && Calls(A, e, fs) ensures Calls(A, r, fs) {
      forall i | 0 <= i < |news| ensures Calls(A, news[i], fs) { OperandCalls(W, A, m, e, news, i); }
    }
  }

  lemma CallIs<V(!new)>(W: World<V>, A: Arena, m: Map, e: nat, full: seq<nat>)
    requires ArenaOk(A) && MapOk(A, m) && FullOk(W, A, m, e, full)
    ensures e < |A.nodes| && A.nodes[e].Call? && NodeOk(A, e)
  {
  }

  lemma TargetCalls<V(!new)>(W: World<V>, A: Arena, m: Map, f: nat, g: nat)
    requires ArenaOk(A) && MapOk(A, m) && TargetOk(W, A, m, f, g)
    ensures f < |A.funcs| && g < |A.funcs|
    ensures AllConst(A, m) ==> A.funcs[g].height <= A.funcs[f].height
    ensures f in Pure(A) ==> g == f
  {
    hide Global, OutputCopyOk;
    if AllConst(A, m) { assert AllConst(A, Rebinding(A, m, f)); }
    if f in Pure(A) {
      forall s ensures s !in Rebinding(A, m, f) {}
    }
  }

  // --- where nothing can be captured ---------------------------------------------------------------------------

  /** Constants are captured nowhere. */
  lemma {:induction false} ConstantsFree(A: Arena, m: Map, e: nat)
    requires ArenaOk(A) && MapOk(A, m) && e < |A.nodes| && AllConst(A, m)
    ensures Uncaptured(A, m, e)
    decreases e
  {
    hide Rebinding;
    assert NodeOk(A, e);
    var n := A.nodes[e];
    forall i | 0 <= i < |n.Operands()| ensures Below1(n.Operands()[i], e) && Uncaptured(A, m, n.Operands()[i]) {
      assert n.Operands()[i] in n.Operands();
      ConstantsFree(A, m, n.Operands()[i]);
    }
    if n.Call? && A.funcs[n.f].outputs[n.out].Expr? {
      var t := Rebinding(A, m, n.f);
      forall s, p | s in m ensures !Sees(A, m[s], p) { assert A.nodes[m[s]].Const? && NodeOk(A, m[s]); }
      ConstantsFree(A, t, A.funcs[n.f].outputs[n.out].e);
    }
  }

  /** Nor is anything where the calls left read nothing but their parameters. */
  lemma {:induction false} PureFree(A: Arena, m: Map, e: nat)
    requires ArenaOk(A) && MapOk(A, m) && e < |A.nodes| && Calls(A, e, Pure(A))
    ensures Uncaptured(A, m, e)
    decreases e
  {
    hide Global;
    assert NodeOk(A, e);
    var n := A.nodes[e];
    forall i | 0 <= i < |n.Operands()| ensures Below1(n.Operands()[i], e) && Uncaptured(A, m, n.Operands()[i]) {
      assert n.Operands()[i] in n.Operands();
      PureFree(A, m, n.Operands()[i]);
    }
    if n.Call? {
      assert n.f in Pure(A);
      forall s ensures s !in Rebinding(A, m, n.f) {}
      assert Rebinding(A, m, n.f) == map[];
    }
  }
}
