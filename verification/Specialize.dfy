/** Calls redirected to copies of their functions specialized to the constants they pass. */
module Specializing {
  import opened Arenas
  import opened Basics
  import opened Bindings
  import opened CallRewrites
  import opened Rewriting
  import opened Substitutions

  /** `r` has the value of `e` in every environment. */
  ghost predicate Equal<V(!new)>(W: World<V>, A: Arena, e: nat, r: nat)
    requires ArenaOk(A)
  { e < |A.nodes| && r < |A.nodes| && forall env: Env<V> :: Eval(W, A, env, r) == Eval(W, A, env, e) }

  /** Node `d` calls a symbolic function with a constant for a parameter that is not kept. */
  ghost predicate PassesConst(A: Arena, d: nat)
    requires ArenaOk(A) && d < |A.nodes|
  {
    assert NodeOk(A, d);
    var n := A.nodes[d];
    n.Call? && !A.funcs[n.f].external && FuncOk(A, n.f) &&
    var full := FullArgs(n.ctx, |A.funcs[n.f].params|, n.list);
    exists k: nat :: k < |full| && PassedConst(A, n.f, full, k)
  }

  ghost predicate PassedConst(A: Arena, f: nat, full: seq<nat>, k: nat) {
    f < |A.funcs| && k < |full| && k < |A.funcs[f].keeps| && !A.funcs[f].keeps[k]
        && full[k] < |A.nodes| && A.nodes[full[k]].Const?
  }

  /** No call reached from `e` could be specialized further. */
  ghost predicate Settled(A: Arena, e: nat)
    requires ArenaOk(A)
  { e < |A.nodes| && forall d: nat :: d < |A.nodes| && Reaches(A, e, d) ==> !PassesConst(A, d) }

  lemma SettledExtends(A: Arena, B: Arena, e: nat)
    requires ArenaOk(A) && ArenaOk(B) && Extends(A, B) && Settled(A, e)
    ensures Settled(B, e)
  {
    hide Reaches, PassesConst;
    forall d: nat | d < |B.nodes| && Reaches(B, e, d) ensures !PassesConst(B, d) {
      ReachesExtends(A, B, e, d);
      if PassesConst(B, d) { StillPasses(A, B, d); }
    }
  }

  lemma StillPasses(A: Arena, B: Arena, d: nat)
    requires ArenaOk(A) && ArenaOk(B) && Extends(A, B) && d < |A.nodes| && PassesConst(B, d)
    ensures PassesConst(A, d)
  {
    assert NodeOk(A, d);
    var n := A.nodes[d];
    assert FuncOk(A, n.f);
    FullBelow(A, d);
    var full := FullArgs(n.ctx, |A.funcs[n.f].params|, n.list);
    var k: nat :| k < |full| && PassedConst(B, n.f, full, k);
    assert PassedConst(A, n.f, full, k);
  }

  /** A node over settled operands is settled unless it passes a constant itself. */
  lemma SettledNode(A: Arena, e: nat)
    requires ArenaOk(A) && e < |A.nodes| && !PassesConst(A, e)
    requires forall o :: o in A.nodes[e].Operands() ==> Settled(A, o)
    ensures Settled(A, e)
  {
    hide PassesConst;
    assert NodeOk(A, e);
    forall d: nat | d < |A.nodes| && Reaches(A, e, d) ensures !PassesConst(A, d) {
      if d != e {
        var o :| o in A.nodes[e].Operands() && Below1(o, e) && Reaches(A, o, d);
        assert Settled(A, o);
      }
    }
  }

  /** And its calls are no higher, and settled. */
  ghost predicate Same<V(!new)>(W: World<V>, A: Arena, e: nat, r: nat)
    requires ArenaOk(A)
  {
    && Equal(W, A, e, r) && Settled(A, r)
    && forall h: nat :: Calls(A, e, Lower(A, h)) ==> Calls(A, r, Lower(A, h))
  }

  lemma EqualExtends<V(!new)>(W: World<V>, A: Arena, B: Arena, e: nat, r: nat)
    requires ArenaOk(A) && ArenaOk(B) && Extends(A, B) && Equal(W, A, e, r)
    ensures Equal(W, B, e, r)
  {
    forall env: Env<V> ensures Eval(W, B, env, r) == Eval(W, B, env, e) {
      EvalExtends(W, A, B, env, r);
      EvalExtends(W, A, B, env, e);
    }
  }

  lemma SameExtends<V(!new)>(W: World<V>, A: Arena, B: Arena, e: nat, r: nat)
    requires ArenaOk(A) && ArenaOk(B) && Extends(A, B) && Same(W, A, e, r)
    ensures Same(W, B, e, r)
  {
    hide Calls, Eval, Settled;
    EqualExtends(W, A, B, e, r);
    SettledExtends(A, B, r);
    forall h: nat ensures (Calls(B, e, Lower(B, h)) <==> Calls(A, e, Lower(A, h)))
        && (Calls(B, r, Lower(B, h)) <==> Calls(A, r, Lower(A, h))) {
      CallsExtends(A, B, e, Lower(A, h), Lower(B, h));
      CallsExtends(A, B, r, Lower(A, h), Lower(B, h));
    }
  }

  ghost predicate SameMemo<V(!new)>(W: World<V>, A: Arena, memo: map<nat, nat>)
    requires ArenaOk(A)
  { forall e :: e in memo ==> Same(W, A, e, memo[e]) }

  lemma SameMemoExtends<V(!new)>(W: World<V>, A: Arena, B: Arena, memo: map<nat, nat>)
    requires ArenaOk(A) && ArenaOk(B) && Extends(A, B) && SameMemo(W, A, memo)
    ensures SameMemo(W, B, memo)
  {
    hide Same;
    forall e | e in memo ensures Same(W, B, e, memo[e]) { SameExtends(W, A, B, e, memo[e]); }
  }

  /** The operands of `e`, each rewritten. */
  ghost predicate SameOperands<V(!new)>(W: World<V>, A: Arena, e: nat, news: seq<nat>)
    requires ArenaOk(A)
  { e < |A.nodes| && |news| == |A.nodes[e].Operands()|
   && forall i :: 0 <= i < |news| ==> Same(W, A, A.nodes[e].Operands()[i], news[i]) }

  lemma SameOperandsExtend<V(!new)>(W: World<V>, A: Arena, B: Arena, e: nat, news: seq<nat>)
    requires ArenaOk(A) && ArenaOk(B) && Extends(A, B) && SameOperands(W, A, e, news)
    ensures SameOperands(W, B, e, news)
  {
    hide Same;
    forall i | 0 <= i < |news| ensures Same(W, B, A.nodes[e].Operands()[i], news[i]) {
      SameExtends(W, A, B, A.nodes[e].Operands()[i], news[i]);
    }
  }

  lemma OperandSame<V(!new)>(W: World<V>, A: Arena, e: nat, news: seq<nat>, i: nat)
    requires ArenaOk(A) && SameOperands(W, A, e, news) && i < |news|
    ensures A.nodes[e].Operands()[i] < e && news[i] < |A.nodes| && Equal(W, A, A.nodes[e].Operands()[i], news[i])
    ensures forall h: nat :: Calls(A, e, Lower(A, h)) ==> Calls(A, news[i], Lower(A, h))
    ensures Settled(A, news[i])
  {
    hide Equal, Lower, Settled;
    assert NodeOk(A, e);
    assert A.nodes[e].Operands()[i] in A.nodes[e].Operands();
    assert Same(W, A, A.nodes[e].Operands()[i], news[i]);
    assert Equal(W, A, A.nodes[e].Operands()[i], news[i]);
    EqualExists(W, A, A.nodes[e].Operands()[i], news[i]);
  }

  lemma EqualExists<V(!new)>(W: World<V>, A: Arena, e: nat, r: nat)
    requires ArenaOk(A) && Equal(W, A, e, r)
    ensures e < |A.nodes| && r < |A.nodes|
  {
  }

  lemma SameLeaf<V(!new)>(W: World<V>, A: Arena, e: nat)
    requires ArenaOk(A) && e < |A.nodes| && (A.nodes[e].Const? || A.nodes[e].Symbol?)
    ensures Same(W, A, e, e)
  {
    SettledNode(A, e);
  }

  lemma SameOp<V(!new)>(W: World<V>, A: Arena, e: nat, news: seq<nat>, r: nat)
    requires ArenaOk(A) && SameOperands(W, A, e, news) && A.nodes[e].Op? && BuiltOk(W, A, A.nodes[e].op, news, r)
    ensures Same(W, A, e, r)
  {
    hide Calls, Lower, SameOperands, Settled, PassesConst;
    OperandsExist(W, A, e, news);
    assert NodeOk(A, e);
    OpSettled(W, A, e, news, r);
    var args := A.nodes[e].args;
    forall i | 0 <= i < |news| ensures args[i] < e && news[i] < |A.nodes| { OperandSame(W, A, e, news, i); }
    forall env: Env<V> ensures Eval(W, A, env, r) == Eval(W, A, env, e) {
      forall i | 0 <= i < |news| ensures Eval(W, A, env, news[i]) == Eval(W, A, env, args[i]) {
        OperandSame(W, A, e, news, i);
      }
      assert Evals(W, A, env, news, |A.nodes|) == Evals(W, A, env, args, e);
    }
    forall h: nat | Calls(A, e, Lower(A, h)) ensures Calls(A, r, Lower(A, h)) {
      forall i | 0 <= i < |news| ensures Calls(A, news[i], Lower(A, h)) { OperandSame(W, A, e, news, i); }
    }
  }

  lemma OpSettled<V(!new)>(W: World<V>, A: Arena, e: nat, news: seq<nat>, r: nat)
    requires ArenaOk(A) && SameOperands(W, A, e, news) && A.nodes[e].Op? && BuiltOk(W, A, A.nodes[e].op, news, r)
    ensures Settled(A, r)
  {
    hide Settled, SameOperands;
    OperandsExist(W, A, e, news);
    forall o | o in news ensures Settled(A, o) {
      var i :| 0 <= i < |news| && news[i] == o;
      OperandSame(W, A, e, news, i);
    }
    SettledNode(A, r);
  }

  lemma OperandsExist<V(!new)>(W: World<V>, A: Arena, e: nat, news: seq<nat>)
    requires ArenaOk(A) && SameOperands(W, A, e, news)
    ensures e < |A.nodes| && |news| == |A.nodes[e].Operands()|
  {
  }

  // --- the parameters kept ------------------------------------------------------------------------

  /** The elements of the first `n` positions that `consts` does not name. */
  function Kept<T>(s: seq<T>, consts: Map, n: nat): seq<T>
    requires n <= |s|
  { if n == 0 then [] else Kept(s, consts, n - 1) + if n - 1 in consts then [] else [s[n - 1]] }

  lemma {:induction false} KeptBoth<S, T>(s: seq<S>, t: seq<T>, consts: Map, n: nat)
    requires n <= |s| && n <= |t|
    ensures |Kept(s, consts, n)| == |Kept(t, consts, n)|
    decreases n
  {
    if n > 0 { KeptBoth(s, t, consts, n - 1); }
  }

  lemma {:induction false} KeptPrefix<T>(s: seq<T>, consts: Map, k: nat, n: nat)
    requires k <= n <= |s|
    ensures Kept(s, consts, k) <= Kept(s, consts, n)
    decreases n
  {
    if k < n { KeptPrefix(s, consts, k, n - 1); }
  }

  /** A kept position is where its element went. */
  lemma {:induction false} KeptAt<T>(s: seq<T>, consts: Map, k: nat, n: nat)
    requires k < n <= |s| && k !in consts
    ensures |Kept(s, consts, k)| < |Kept(s, consts, n)| && Kept(s, consts, n)[|Kept(s, consts, k)|] == s[k]
  {
    KeptNext(s, consts, k);
    KeptPrefix(s, consts, k + 1, n);
    hide Kept;
    var a, b := Kept(s, consts, k), Kept(s, consts, n);
    assert Kept(s, consts, k + 1)[|a|] == b[|a|];
  }

  lemma KeptNext<T>(s: seq<T>, consts: Map, k: nat)
    requires k < |s| && k !in consts
    ensures Kept(s, consts, k + 1) == Kept(s, consts, k) + [s[k]]
  {
  }

  /** What is kept comes from a position not named. */
  lemma {:induction false} KeptFrom<T>(s: seq<T>, consts: Map, n: nat, j: nat) returns (k: nat)
    requires n <= |s| && j < |Kept(s, consts, n)|
    ensures k < n && k !in consts && |Kept(s, consts, k)| == j && Kept(s, consts, n)[j] == s[k]
    decreases n
  {
    if j < |Kept(s, consts, n - 1)| { k := KeptFrom(s, consts, n - 1, j); } else { k := n - 1; }
  }

  lemma {:induction false} KeptLess<T>(s: seq<T>, consts: Map, i: nat, k: nat)
    requires i < k <= |s| && i !in consts
    ensures |Kept(s, consts, i)| < |Kept(s, consts, k)|
  {
    KeptAt(s, consts, i, k);
  }

  /** Distinct parameters stay distinct. */
  lemma KeptDistinct(s: seq<nat>, consts: Map)
    requires Distinct(s)
    ensures Distinct(Kept(s, consts, |s|))
  {
    var r := Kept(s, consts, |s|);
    forall i, j | 0 <= i < j < |r| ensures r[i] != r[j] {
      var a := KeptFrom(s, consts, |s|, i);
      var b := KeptFrom(s, consts, |s|, j);
      if a >= b { if a > b { KeptLess(s, consts, b, a); } }
    }
  }

  // --- a specialized copy --------------------------------------------------------------------------

  ghost predicate ConstsOk(A: Arena, f: nat, consts: Map) {
    && f < |A.funcs| && !A.funcs[f].external
    && forall k :: k in consts ==> k < |A.funcs[f].params| && consts[k] < |A.nodes| && A.nodes[consts[k]].Const?
  }

  /** The operands' values at the named positions are the constants'. */
  ghost predicate ConstsHold<V>(W: World<V>, A: Arena, consts: Map, vals: seq<V>) {
    forall k :: k in consts ==>
      k < |vals| && consts[k] < |A.nodes| && A.nodes[consts[k]].Const? && vals[k] == W.konst(A.nodes[consts[k]].c)
  }

  /** Where the constants hold, output `out` of `g` over the operands kept is `f`'s over all. */
  ghost predicate OutputSpecOk<V(!new)>(W: World<V>, A: Arena, f: nat, consts: Map, g: nat, out: nat)
    requires ArenaOk(A) && f < |A.funcs| && g < |A.funcs|
  {
    && out < |A.funcs[f].outputs| && out < |A.funcs[g].outputs|
    && OutputOk(A.funcs[f].outputs[out], A.funcs[f].external, |A.nodes|)
       && OutputOk(A.funcs[g].outputs[out], A.funcs[g].external, |A.nodes|)
    && forall env: Env<V>, vals: seq<V> :: SpecAt(W, A, f, consts, g, out, env, vals)
  }

  ghost predicate SpecAt<V(!new)>(W: World<V>, A: Arena, f: nat, consts: Map, g: nat, out: nat, env: Env<V>,
                                  vals: seq<V>)
    requires ArenaOk(A) && f < |A.funcs| && g < |A.funcs| && out < |A.funcs[f].outputs| && out < |A.funcs[g].outputs|
    requires OutputOk(A.funcs[f].outputs[out], A.funcs[f].external, |A.nodes|)
             && OutputOk(A.funcs[g].outputs[out], A.funcs[g].external, |A.nodes|)
  {
    |vals| == |A.funcs[f].params| && ConstsHold(W, A, consts, vals) ==>
      && |Kept(vals, consts, |vals|)| == |A.funcs[g].params|
      && CallValue(W, A, env, g, out, Kept(vals, consts, |vals|), |A.nodes|) ==
         CallValue(W, A, env, f, out, vals, |A.nodes|)
  }

  /** `g` is `f` specialized to `consts`. */
  ghost predicate SpecOk<V(!new)>(W: World<V>, A: Arena, f: nat, consts: Map, g: nat)
    requires ArenaOk(A)
  {
    && ConstsOk(A, f, consts) && g < |A.funcs| && !A.funcs[g].external && A.funcs[g].height <= A.funcs[f].height
    && A.funcs[g].params == Kept(A.funcs[f].params, consts, |A.funcs[f].params|)
    && |A.funcs[f].keeps| == |A.funcs[f].params|
    && A.funcs[g].keeps == Kept(A.funcs[f].keeps, consts, |A.funcs[f].params|)
    && |A.funcs[g].outputs| == |A.funcs[f].outputs|
    && (forall k :: 0 <= k < |A.funcs[g].outputs| && A.funcs[g].outputs[k].Expr? ==>
          Settled(A, A.funcs[g].outputs[k].e))
    && forall out :: 0 <= out < |A.funcs[f].outputs| ==> OutputSpecOk(W, A, f, consts, g, out)
  }

  type Specialized = map<(nat, Map), nat>

  ghost predicate MadeOk<V(!new)>(W: World<V>, A: Arena, made: Specialized)
    requires ArenaOk(A)
  { forall key :: key in made ==> SpecOk(W, A, key.0, key.1, made[key]) }

  lemma CallExtends<V(!new)>(W: World<V>, A: Arena, B: Arena, env: Env<V>, f: nat, out: nat, vals: seq<V>)
    requires ArenaOk(A) && ArenaOk(B) && Extends(A, B) && f < |A.funcs| && out < |A.funcs[f].outputs|
             && |vals| == |A.funcs[f].params|
    requires OutputOk(A.funcs[f].outputs[out], A.funcs[f].external, |A.nodes|)
    ensures CallValue(W, B, env, f, out, vals, |B.nodes|) == CallValue(W, A, env, f, out, vals, |A.nodes|)
  {
    var o := A.funcs[f].outputs[out];
    if o.Expr? { EvalExtends(W, A, B, BindEnv(env, A.funcs[f].params, vals), o.e); }
  }

  lemma OutputSpecExtends<V(!new)>(W: World<V>, A: Arena, B: Arena, f: nat, consts: Map, g: nat, out: nat)
    requires ArenaOk(A) && ArenaOk(B) && Extends(A, B) && f < |A.funcs| && g < |A.funcs|
             && OutputSpecOk(W, A, f, consts, g, out)
    requires ConstsOk(A, f, consts)
    ensures OutputSpecOk(W, B, f, consts, g, out)
  {
    forall env: Env<V>, vals: seq<V> ensures SpecAt(W, B, f, consts, g, out, env, vals) {
      if |vals| == |B.funcs[f].params| && ConstsHold(W, B, consts, vals) {
        assert SpecAt(W, A, f, consts, g, out, env, vals);
        assert ConstsHold(W, A, consts, vals);
        CallExtends(W, A, B, env, f, out, vals);
        CallExtends(W, A, B, env, g, out, Kept(vals, consts, |vals|));
      }
    }
  }

  lemma MadeExtends<V(!new)>(W: World<V>, A: Arena, B: Arena, made: Specialized)
    requires ArenaOk(A) && ArenaOk(B) && Extends(A, B) && MadeOk(W, A, made)
    ensures MadeOk(W, B, made)
  {
    hide OutputSpecOk, Settled;
    forall key | key in made ensures SpecOk(W, B, key.0, key.1, made[key]) {
      var f, g := key.0, made[key];
      assert SpecOk(W, A, f, key.1, g);
      forall k | 0 <= k < |A.funcs[g].outputs| && A.funcs[g].outputs[k].Expr?
        ensures Settled(B, A.funcs[g].outputs[k].e) {
        SettledExtends(A, B, A.funcs[g].outputs[k].e);
      }
      forall out | 0 <= out < |A.funcs[f].outputs| ensures OutputSpecOk(W, B, f, key.1, g, out) {
        OutputSpecExtends(W, A, B, f, key.1, g, out);
      }
    }
  }

  // --- the value of a specialized body ----------------------------------------------------------------

  /** The parameters named, at their constants. */
  function BoundAt(params: seq<nat>, consts: Map): (m: Map)
    requires forall k :: k in consts ==> k < |params|
    ensures forall s :: s in m <==> s in params && IndexOf(params, s) in consts
    ensures forall s :: s in m ==> m[s] == consts[IndexOf(params, s)]
  {
    map s | s in params && IndexOf(params, s) in consts :: consts[IndexOf(params, s)]
  }

  lemma IndexIs(params: seq<nat>, k: nat)
    requires Distinct(params) && k < |params|
    ensures IndexOf(params, params[k]) == k
  {
  }

  /** The kept parameters bound and the constants put in bind every parameter. */
  lemma {:induction false} KeptEnv<V(!new)>(W: World<V>, A: Arena, f: nat, consts: Map, env: Env<V>, vals: seq<V>,
                                            s: nat)
    requires ArenaOk(A) && ConstsOk(A, f, consts) && |vals| == |A.funcs[f].params| && ConstsHold(W, A, consts, vals)
    ensures var params := A.funcs[f].params;
            var kp, kv := Kept(params, consts, |params|), Kept(vals, consts, |vals|);
            && |kp| == |kv| && MapOk(A, BoundAt(params, consts))
            && Look(W, Compose(W, A, BindEnv(env, kp, kv), BoundAt(params, consts)), s) ==
               Look(W, BindEnv(env, params, vals), s)
  {
    assert FuncOk(A, f);
    var params := A.funcs[f].params;
    var n, m := |params|, BoundAt(params, consts);
    var kp, kv := Kept(params, consts, n), Kept(vals, consts, n);
    KeptBoth(params, vals, consts, n);
    KeptDistinct(params, consts);
    if s in params {
      var k := IndexOf(params, s);
      if k in consts {
        assert s in m && NodeOk(A, m[s]);
      } else {
        KeptAt(params, consts, k, n);
        KeptAt(vals, consts, k, n);
        KeptBoth(params, vals, consts, k);
        var j := |Kept(params, consts, k)|;
        assert kp[j] == s && kv[j] == vals[k];
        IndexIs(kp, j);
      }
    } else {
      if s in kp {
        var j :| 0 <= j < |kp| && kp[j] == s;
        var k := KeptFrom(params, consts, n, j);
      }
    }
  }

  /** Output `out` of the copy, its body the original's with the constants put in and its own
      calls specialized. */
  lemma {:induction false} SpecBody<V(!new)>(W: World<V>, A: Arena, f: nat, consts: Map, b: nat, mid: nat, r: nat,
                                             env: Env<V>, vals: seq<V>)
    requires ArenaOk(A) && ConstsOk(A, f, consts) && b < |A.nodes| && |vals| == |A.funcs[f].params|
             && ConstsHold(W, A, consts, vals)
    requires MapOk(A, BoundAt(A.funcs[f].params, consts)) && SubstOk(W, A, BoundAt(A.funcs[f].params, consts), b, mid)
             && Equal(W, A, mid, r)
    ensures var params := A.funcs[f].params; var kp, kv := Kept(params, consts, |params|), Kept(vals, consts, |vals|);
            |kp| == |kv| && Eval(W, A, BindEnv(env, kp, kv), r) == Eval(W, A, BindEnv(env, params, vals), b)
  {
    hide Compose, Calls, Reads;
    var params := A.funcs[f].params;
    var m := BoundAt(params, consts);
    KeptBoth(params, vals, consts, |params|);
    var inner, outer := BindEnv(env, Kept(params, consts, |params|), Kept(vals, consts, |vals|)),
        BindEnv(env, params, vals);
    ConstantsFree(A, m, b);
    assert Eval(W, A, inner, mid) == Eval(W, A, Compose(W, A, inner, m), b);
    forall s ensures Look(W, Compose(W, A, inner, m), s) == Look(W, outer, s) {
      KeptEnv(W, A, f, consts, env, vals, s);
    }
    EvalAgrees(W, A, Compose(W, A, inner, m), outer, b);
  }

  // --- the rewrite -------------------------------------------------------------------------------------

  /** A call of `g` over `full` has the value of call `e`. */
  ghost predicate SameCallValue<V(!new)>(W: World<V>, A: Arena, e: nat, g: nat, full: seq<nat>)
    requires ArenaOk(A)
  {
    && e < |A.nodes| && A.nodes[e].Call? && NodeOk(A, e) && g < |A.funcs| && A.nodes[e].out < |A.funcs[g].outputs|
    && |full| == |A.funcs[g].params| && OutputOk(A.funcs[g].outputs[A.nodes[e].out], A.funcs[g].external, |A.nodes|)
    && (forall i :: 0 <= i < |full| ==> full[i] < |A.nodes|)
    && forall env: Env<V> ::
         CallValue(W, A, env, g, A.nodes[e].out, Evals(W, A, env, full, |A.nodes|), |A.nodes|) == Eval(W, A, env, e)
  }

  lemma SameCall<V(!new)>(W: World<V>, A: Arena, e: nat, news: seq<nat>, g: nat, full: seq<nat>, ops: seq<nat>, r: nat)
    requires ArenaOk(A) && SameOperands(W, A, e, news) && SameCallValue(W, A, e, g, full)
    requires CalledOk(W, A, g, A.nodes[e].out, full, r) && CallCalls(A, g, ops, r) && Settled(A, r)
    requires A.funcs[g].height <= A.funcs[A.nodes[e].f].height && forall x :: x in ops ==> x in news
    ensures Same(W, A, e, r)
  {
    hide Calls, SameOperands, Settled;
    OperandsExist(W, A, e, news);
    forall h: nat | Calls(A, e, Lower(A, h)) ensures Calls(A, r, Lower(A, h)) {
      CallFacts(A, e, h);
      forall i | 0 <= i < |ops| ensures ops[i] < |A.nodes| && Calls(A, ops[i], Lower(A, h)) {
        assert ops[i] in news;
        var j :| 0 <= j < |news| && news[j] == ops[i];
        OperandSame(W, A, e, news, j);
      }
    }
  }

  /** The operands of a call in parameter order, each rewritten, have the values the call's
      have. */
  ghost predicate SameFull<V(!new)>(W: World<V>, A: Arena, e: nat, full: seq<nat>)
    requires ArenaOk(A)
  {
    && e < |A.nodes| && A.nodes[e].Call? && NodeOk(A, e)
    && var n := A.nodes[e];
       var was := FullArgs(n.ctx, |A.funcs[n.f].params|, n.list);
       |full| == |was| && forall i :: 0 <= i < |was| ==> Equal(W, A, was[i], full[i])
  }

  lemma FullValues<V(!new)>(W: World<V>, A: Arena, e: nat, full: seq<nat>, env: Env<V>)
    requires ArenaOk(A) && SameFull(W, A, e, full)
    ensures var n := A.nodes[e]; var was := FullArgs(n.ctx, |A.funcs[n.f].params|, n.list);
            && |full| == |A.funcs[n.f].params| && (forall i :: 0 <= i < |full| ==> was[i] < e && full[i] < |A.nodes|)
            && OutputOk(A.funcs[n.f].outputs[n.out], A.funcs[n.f].external, |A.nodes|)
            && Eval(W, A, env, e) == CallValue(W, A, env, n.f, n.out, Evals(W, A, env, full, |A.nodes|), |A.nodes|)
  {
    var n := A.nodes[e];
    var was := FullArgs(n.ctx, |A.funcs[n.f].params|, n.list);
    FullBelow(A, e);
    forall i | 0 <= i < |was| ensures full[i] < |A.nodes| && Eval(W, A, env, full[i]) == Eval(W, A, env, was[i]) {
      assert Equal(W, A, was[i], full[i]);
    }
    assert Evals(W, A, env, was, e) == Evals(W, A, env, full, |A.nodes|);
  }

  /** The operands of `e`, each with its value. */
  ghost predicate EqualOperands<V(!new)>(W: World<V>, A: Arena, e: nat, news: seq<nat>)
    requires ArenaOk(A)
  { e < |A.nodes| && |news| == |A.nodes[e].Operands()|
   && forall i :: 0 <= i < |news| ==> Equal(W, A, A.nodes[e].Operands()[i], news[i]) }

  lemma SameAreEqual<V(!new)>(W: World<V>, A: Arena, e: nat, news: seq<nat>)
    requires ArenaOk(A) && SameOperands(W, A, e, news)
    ensures EqualOperands(W, A, e, news)
  {
    hide Equal, Calls;
    forall i | 0 <= i < |news| ensures Equal(W, A, A.nodes[e].Operands()[i], news[i]) {
      assert Same(W, A, A.nodes[e].Operands()[i], news[i]);
    }
  }

  lemma FullSame<V(!new)>(W: World<V>, A: Arena, e: nat, news: seq<nat>, l: seq<nat>, c: Context)
    requires ArenaOk(A) && EqualOperands(W, A, e, news) && A.nodes[e].Call? && NodeOk(A, e) && l + c.Exprs() == news
    requires var n := A.nodes[e]; var k := |A.funcs[n.f].params|;
             ContextOk(c, k) && |l| == |n.list| && (c.NoContext? <==> n.ctx.NoContext?)
                 && (c.Context? ==> c.at == n.ctx.at)
    ensures var n := A.nodes[e]; var k := |A.funcs[n.f].params|;
            && |l| == Arity(c, k) && SameFull(W, A, e, FullArgs(c, k, l))
            && forall i :: 0 <= i < k ==> FullArgs(c, k, l)[i] in news
  {
    hide Equal;
    var n := A.nodes[e];
    var k := |A.funcs[n.f].params|;
    var was, full := FullArgs(n.ctx, k, n.list), FullArgs(c, k, l);
    forall i | 0 <= i < k ensures Equal(W, A, was[i], full[i]) && full[i] in news {
      var j := FullMapped(n.ctx, c, k, n.list, l, i);
      assert n.Operands()[j] == was[i] && news[j] == full[i];
      assert Equal(W, A, n.Operands()[j], news[j]);
    }
    assert |l| == Arity(c, k);
    assert SameFull(W, A, e, full);
  }

  lemma {:induction false} RebuiltValue<V(!new)>(W: World<V>, A: Arena, e: nat, full: seq<nat>)
    requires ArenaOk(A) && SameFull(W, A, e, full)
    ensures SameCallValue(W, A, e, A.nodes[e].f, full)
  {
    hide SameFull;
    FullValues(W, A, e, full, map[]);
    CallOf(W, A, e, full);
    forall env: Env<V> { FullValues(W, A, e, full, env); }
  }

  lemma CallOf<V(!new)>(W: World<V>, A: Arena, e: nat, full: seq<nat>)
    requires ArenaOk(A) && SameFull(W, A, e, full)
    ensures e < |A.nodes| && A.nodes[e].Call? && NodeOk(A, e)
  {
  }

  /** Which parameters of the call are constants, and what they are. */
  function ConstsOf(nodes: seq<Node>, keeps: seq<bool>, full: seq<nat>): (r: Map)
    requires |keeps| == |full| && forall i :: 0 <= i < |full| ==> full[i] < |nodes|
    ensures forall k: nat :: k in r <==> k < |full| && nodes[full[k]].Const? && !keeps[k]
    ensures forall k :: k in r ==> r[k] == full[k]
  {
    map k: nat | 0 <= k < |full| && nodes[full[k]].Const? && !keeps[k] :: full[k]
  }

  lemma {:induction false} KeptEvals<V(!new)>(W: World<V>, A: Arena, env: Env<V>, full: seq<nat>, consts: Map, n: nat)
    requires ArenaOk(A) && n <= |full| && forall i :: 0 <= i < |full| ==> full[i] < |A.nodes|
    ensures forall i :: 0 <= i < |Kept<nat>(full, consts, n)| ==> Kept<nat>(full, consts, n)[i] < |A.nodes|
    ensures Kept(Evals(W, A, env, full, |A.nodes|), consts, n) ==
            Evals(W, A, env, Kept<nat>(full, consts, n), |A.nodes|)
    decreases n
  {
    if n > 0 { KeptEvals(W, A, env, full, consts, n - 1); }
  }

  /** The specialized call over the operands kept is the call. */
  lemma {:induction false} SpecValue<V(!new)>(W: World<V>, A: Arena, e: nat, full: seq<nat>, g: nat)
    requires ArenaOk(A) && SameFull(W, A, e, full)
    requires var f := A.nodes[e].f;
             && f < |A.funcs| && |A.funcs[f].keeps| == |full| && (forall i :: 0 <= i < |full| ==> full[i] < |A.nodes|)
             && SpecOk(W, A, f, ConstsOf(A.nodes, A.funcs[f].keeps, full), g)
    ensures SameCallValue(W, A, e, g, Kept<nat>(full, ConstsOf(A.nodes, A.funcs[A.nodes[e].f].keeps, full), |full|))
  {
    hide SameFull, Eval, CallValue, OutputSpecOk;
    CallOf(W, A, e, full);
    FullValues(W, A, e, full, map[]);
    var f, out := A.nodes[e].f, A.nodes[e].out;
    var consts := ConstsOf(A.nodes, A.funcs[f].keeps, full);
    KeptBoth(full, A.funcs[f].params, consts, |full|);
    KeptEvals(W, A, map[], full, consts, |full|);
    assert OutputSpecOk(W, A, f, consts, g, out);
    OutputFits(W, A, f, consts, g, out);
    forall env: Env<V> { SpecValueAt(W, A, e, full, g, env); }
  }

  lemma OutputFits<V(!new)>(W: World<V>, A: Arena, f: nat, consts: Map, g: nat, out: nat)
    requires ArenaOk(A) && f < |A.funcs| && g < |A.funcs| && OutputSpecOk(W, A, f, consts, g, out)
    ensures out < |A.funcs[g].outputs| && OutputOk(A.funcs[g].outputs[out], A.funcs[g].external, |A.nodes|)
  {
  }

  lemma SpecValueAt<V(!new)>(W: World<V>, A: Arena, e: nat, full: seq<nat>, g: nat, env: Env<V>)
    requires ArenaOk(A) && SameFull(W, A, e, full) && A.nodes[e].Call? && NodeOk(A, e)
    requires var f := A.nodes[e].f;
             && g < |A.funcs| && |A.funcs[f].keeps| == |full| == |A.funcs[f].params|
                && (forall i :: 0 <= i < |full| ==> full[i] < |A.nodes|)
             && OutputSpecOk(W, A, f, ConstsOf(A.nodes, A.funcs[f].keeps, full), g, A.nodes[e].out)
             && |A.funcs[g].params| == |Kept<nat>(full, ConstsOf(A.nodes, A.funcs[f].keeps, full), |full|)|
    ensures var kept: seq<nat> := Kept<nat>(full, ConstsOf(A.nodes, A.funcs[A.nodes[e].f].keeps, full), |full|);
            && (forall i :: 0 <= i < |kept| ==> kept[i] < |A.nodes|) && A.nodes[e].out < |A.funcs[g].outputs|
            && OutputOk(A.funcs[g].outputs[A.nodes[e].out], A.funcs[g].external, |A.nodes|)
            && CallValue(W, A, env, g, A.nodes[e].out, Evals(W, A, env, kept, |A.nodes|), |A.nodes|) ==
               Eval(W, A, env, e)
  {
    hide SameFull, Eval, CallValue, Kept;
    CallOf(W, A, e, full);
    var f, out := A.nodes[e].f, A.nodes[e].out;
    var consts := ConstsOf(A.nodes, A.funcs[f].keeps, full);
    FullValues(W, A, e, full, env);
    KeptEvals(W, A, env, full, consts, |full|);
    var vals := Evals(W, A, env, full, |A.nodes|);
    forall k | k in consts ensures k < |vals| && vals[k] == W.konst(A.nodes[consts[k]].c) {
      ConstEval(W, A, env, full[k]);
      EvalsAt(W, A, env, full, |A.nodes|, k);
    }
    assert ConstsHold(W, A, consts, vals);
    assert SpecAt(W, A, f, consts, g, out, env, vals);
  }

  lemma ConstEval<V(!new)>(W: World<V>, A: Arena, env: Env<V>, e: nat)
    requires ArenaOk(A) && e < |A.nodes| && A.nodes[e].Const?
    ensures Eval(W, A, env, e) == W.konst(A.nodes[e].c)
  {
    assert NodeOk(A, e);
  }

  /** Elements of what is kept, passed or bound are elements of the whole. */
  lemma {:induction false} KeptAmong(full: seq<nat>, consts: Map, n: nat)
    requires n <= |full|
    ensures forall x :: x in Kept(full, consts, n) ==> x in full
    decreases n
  {
    if n > 0 { KeptAmong(full, consts, n - 1); }
  }

  lemma {:induction false} PassedAmong(full: seq<nat>, b: set<nat>, n: nat)
    requires n <= |full|
    ensures forall x :: x in PassedOf(full, b, n) ==> x in full
    ensures forall q :: q in BoundOf(full, b, n) ==> q.0 < |full| && q.1 in full
    decreases n
  {
    if n > 0 { PassedAmong(full, b, n - 1); }
  }

  /** Positions of `b` at or after `p` do not matter before it. */
  lemma {:induction false} PassedSame(full: seq<nat>, more: seq<nat>, b: set<nat>, c: set<nat>, p: nat)
    requires p <= |full| && full <= more && forall k :: 0 <= k < p ==> (k in b <==> k in c)
    ensures PassedOf(full, b, p) == PassedOf(more, c, p) && BoundOf(full, b, p) == BoundOf(more, c, p)
    decreases p
  {
    if p > 0 { PassedSame(full, more, b, c, p - 1); }
  }

  /** Where a specialized call goes: the function, what stays bound, what is still passed. */
  datatype Target = Target(g: nat, ctx: Context, rest: seq<nat>)

  /** The copy's operands are the call's, the constants left out, in parameter order. */
  ghost predicate TargetFits(A: Arena, full: seq<nat>, consts: Map, t: Target) {
    && t.g < |A.funcs| && |A.funcs[t.g].params| == |Kept<nat>(full, consts, |full|)|
    && ContextOk(t.ctx, |A.funcs[t.g].params|) && |t.rest| == Arity(t.ctx, |A.funcs[t.g].params|)
    && FullArgs(t.ctx, |A.funcs[t.g].params|, t.rest) == Kept<nat>(full, consts, |full|)
    && forall x :: x in t.rest + t.ctx.Exprs() ==> x in full
  }

  /** What a context binds stays bound in the copy, the rest is passed: the operands kept
      taken apart so come back in order. */
  method Reassemble(g: nat, full: seq<nat>, consts: Map, at: seq<nat>) returns (ctx: Context, rest: seq<nat>)
    ensures ContextOk(ctx, |Kept<nat>(full, consts, |full|)|) && |rest| == Arity(ctx, |Kept<nat>(full, consts, |full|)|)
    ensures FullArgs(ctx, |Kept<nat>(full, consts, |full|)|, rest) == Kept<nat>(full, consts, |full|)
    ensures forall x :: x in rest + ctx.Exprs() ==> x in full
  {
    hide KeptPairs;
    ghost var kept := Kept<nat>(full, consts, |full|);
    ghost var b: set<nat> := {};
    var rebound: seq<(nat, nat)> := [];
    rest := [];
    var j: nat := 0;
    for k := 0 to |full|
      invariant j == |Kept<nat>(full, consts, k)| <= |kept| && (forall i :: i in b ==> i < j)
      invariant rest == PassedOf(kept, b, j) && rebound == BoundOf(kept, b, j)
    {
      KeptPrefix(full, consts, k + 1, |full|);
      if k !in consts {
        KeptAt(full, consts, k, |full|);
        ghost var c := if k in at then b + {j} else b;
        PassedSame(kept, kept, b, c, j);
        if k in at { rebound := rebound + [(j, full[k])]; } else { rest := rest + [full[k]]; }
        b := c;
        j := j + 1;
      }
    }
    PassedAmong(kept, b, |kept|);
    ctx := Bind(g, j, rebound);
    RoundTrip(kept, b, ctx);
    KeptAmong(full, consts, |full|);
    ContextAmong(ctx, rebound, full);
  }

  lemma ContextAmong(ctx: Context, pairs: seq<(nat, nat)>, full: seq<nat>)
    requires ctx.Context? ==> ctx.exprs == Seconds(KeptPairs(pairs))
    requires forall q :: q in pairs ==> q.1 in full
    ensures forall x :: x in ctx.Exprs() ==> x in full
  {
    if ctx.Context? {
      var kp := KeptPairs(pairs);
      forall x | x in ctx.exprs ensures x in full {
        var i :| 0 <= i < |kp| && kp[i].1 == x;
        assert kp[i] in kp;
      }
    }
  }

  /** The copy of `f` with its parameters at `consts` bound to their constants: its bodies the
      originals' with the constants put in, their own calls specialized. */
  method SpecializeFunction<V(!new)>(g: CallGraph<V>, f: nat, consts: Map, made0: Specialized)
    returns (copy: nat, made: Specialized)
    requires g.Valid() && MadeOk(g.W, g.A(), made0) && ConstsOk(g.A(), f, consts)
    modifies g
    ensures g.Valid() && Extends(old(g.A()), g.A()) && MadeOk(g.W, g.A(), made) && SpecOk(g.W, g.A(), f, consts, copy)
    decreases g.funcs[f].height, 5
  {
    hide GraphOk, SoundFolds, Calls, SubstOk, Same, SpecOk, MadeOk, MemoOk, SameMemo, ConstsOk, BoundAt, ExprsOf,
         FuncOk, NodeOk;
    ghost var A0 := g.A();
    ConstsFit(A0, f, consts);
    var fn := g.funcs[f];
    var exprs := ExprsOf(fn.outputs);
    var mids, folded := PutConstants(g, f, consts, exprs);
    ghost var A1 := g.A();
    MadeExtends(g.W, A0, A1, made0);
    FunctionStays(A0, A1, f);
    var memo;
    memo, made := SpecializeCallsIn(g, folded, made0, fn.height);
    ghost var A2 := g.A();
    FunctionStays(A1, A2, f);
    MemoExtends(g.W, A1, A2, BoundAt(fn.params, consts), mids);
    ConstsExtend(A1, A2, f, consts);
    FoldedAll(exprs, mids, memo, folded);
    copy := AddSpecialized(g, f, consts, mids, memo);
    MadeExtends(g.W, A2, g.A(), made);
  }

  lemma FunctionStays(A: Arena, B: Arena, f: nat)
    requires Extends(A, B) && f < |A.funcs|
    ensures f < |B.funcs| && B.funcs[f] == A.funcs[f]
  {
  }

  lemma ConstsFit(A: Arena, f: nat, consts: Map)
    requires ConstsOk(A, f, consts)
    ensures f < |A.funcs| && forall k :: k in consts ==> k < |A.funcs[f].params|
  {
  }

  lemma ConstsExtend(A: Arena, B: Arena, f: nat, consts: Map)
    requires Extends(A, B) && ConstsOk(A, f, consts)
    ensures ConstsOk(B, f, consts)
  {
  }

  lemma FoldedAll(exprs: seq<nat>, mids: map<nat, nat>, memo: map<nat, nat>, folded: seq<nat>)
    requires (forall e :: e in exprs ==> e in mids) && folded == Rewritten(mids, exprs)
             && forall e :: e in folded ==> e in memo
    ensures forall e :: e in exprs ==> e in mids && mids[e] in memo
  {
    forall e | e in exprs ensures mids[e] in memo {
      var i :| 0 <= i < |exprs| && exprs[i] == e;
      assert folded[i] in folded;
    }
  }

  /** The bodies of `f` with the constants put in. */
  method PutConstants<V(!new)>(g: CallGraph<V>, f: nat, consts: Map, exprs: seq<nat>)
    returns (mids: map<nat, nat>, folded: seq<nat>)
    requires g.Valid() && ConstsOk(g.A(), f, consts) && forall e :: e in exprs <==> Expr(e) in g.funcs[f].outputs
    modifies g
    ensures g.Valid() && Extends(old(g.A()), g.A()) && ConstsOk(g.A(), f, consts)
            && MapOk(g.A(), BoundAt(g.funcs[f].params, consts))
    ensures MemoOk(g.W, g.A(), BoundAt(g.funcs[f].params, consts), mids) && forall e :: e in exprs ==> e in mids
    ensures folded == Rewritten(mids, exprs)
    ensures forall e :: e in folded ==> e < |g.nodes| && Calls(g.A(), e, Lower(g.A(), old(g.funcs)[f].height))
  {
    hide GraphOk, SoundFolds, Calls, SubstOk, MemoOk;
    ghost var A0 := g.A();
    var m := BoundAt(g.funcs[f].params, consts);
    BoundConst(A0, f, consts);
    BodiesLow(g.W, A0, g.rebound, f, exprs);
    NoMemo(g.W, A0, m);
    mids := g.SubstituteFrom(exprs, m, map[], g.funcs[f].height);
    folded := Rewritten(mids, exprs);
    BodiesLow(g.W, g.A(), g.rebound, f, exprs);
    MidsLow(g.W, g.A(), f, consts, exprs, mids, folded);
  }

  /** What becomes of an output: its body folded, or nothing where that is zero. */
  function SpecOutput(nodes: seq<Node>, zero: nat, mids: map<nat, nat>, memo: map<nat, nat>, o: Output): Output {
    if o.Expr? && o.e in mids && mids[o.e] in memo && memo[mids[o.e]] < |nodes| then
      if nodes[memo[mids[o.e]]] == Const(zero) then Zero else Expr(memo[mids[o.e]])
    else Zero
  }

  lemma BoundConst(A: Arena, f: nat, consts: Map)
    requires ConstsOk(A, f, consts)
    ensures var m := BoundAt(A.funcs[f].params, consts); MapOk(A, m) && AllConst(A, m)
  {
  }

  lemma MidsLow<V(!new)>(W: World<V>, A: Arena, f: nat, consts: Map, exprs: seq<nat>, mids: map<nat, nat>,
                         folded: seq<nat>)
    requires ArenaOk(A) && ConstsOk(A, f, consts)
    requires MapOk(A, BoundAt(A.funcs[f].params, consts)) && MemoOk(W, A, BoundAt(A.funcs[f].params, consts), mids)
    requires (forall e :: e in exprs ==> e < |A.nodes| && Calls(A, e, Lower(A, A.funcs[f].height)) && e in mids)
             && folded == Rewritten(mids, exprs)
    ensures forall e :: e in folded ==> e < |A.nodes| && Calls(A, e, Lower(A, A.funcs[f].height))
  {
    hide Calls, Uncaptured;
    var h, m := A.funcs[f].height, BoundAt(A.funcs[f].params, consts);
    assert AllConst(A, m);
    forall e | e in folded ensures e < |A.nodes| && Calls(A, e, Lower(A, h)) {
      var i :| 0 <= i < |folded| && folded[i] == e;
      assert exprs[i] in exprs;
      assert SubstOk(W, A, m, exprs[i], e);
    }
  }

  method AddSpecialized<V(!new)>(g: CallGraph<V>, f: nat, consts: Map, mids: map<nat, nat>, memo: map<nat, nat>)
    returns (at: nat)
    requires g.Valid() && ConstsOk(g.A(), f, consts) && MapOk(g.A(), BoundAt(g.funcs[f].params, consts))
    requires MemoOk(g.W, g.A(), BoundAt(g.funcs[f].params, consts), mids) && SameMemo(g.W, g.A(), memo)
    requires forall e :: e in ExprsOf(g.funcs[f].outputs) ==> e in mids && mids[e] in memo
    modifies g
    ensures g.Valid() && Extends(old(g.A()), g.A()) && SpecOk(g.W, g.A(), f, consts, at)
  {
    hide GraphOk, SoundFolds, MemoOk, SameMemo, SpecOk, NextFuncOk, Kept, SpecOutput, NodeOk, BoundAt, ConstsOk,
         ExprsOf;
    ConstsFit(g.A(), f, consts);
    var fn, ns, zero := g.funcs[f], g.nodes, g.W.zero;
    var n := |fn.params|;
    assert FuncOk(g.A(), f);
    forall e | Expr(e) in fn.outputs ensures e in mids && mids[e] in memo { assert e in ExprsOf(fn.outputs); }
    var outputs := seq(|fn.outputs|, k
                       requires 0 <= k < |fn.outputs| => SpecOutput(ns, zero, mids, memo, fn.outputs[k]));
    var copy := Function(Kept(fn.params, consts, n), Kept(fn.keeps, consts, n), false, outputs, fn.height);
    SpecNext(g.W, g.A(), g.rebound, f, consts, mids, memo, copy);
    GrowFuncs(g.W, g.A(), g.rebound, copy);
    ghost var A0 := g.A();
    at := |g.funcs|;
    g.funcs := g.funcs + [copy];
    SpecMade(g.W, A0, g.A(), f, consts, mids, memo, copy);
  }

  /** The copy as made. */
  ghost predicate SpecShape<V>(W: World<V>, A: Arena, f: nat, consts: Map, mids: map<nat, nat>, memo: map<nat, nat>,
                               copy: Function) {
    && f < |A.funcs| && |A.funcs[f].keeps| == |A.funcs[f].params|
    && copy == Function(Kept(A.funcs[f].params, consts, |A.funcs[f].params|),
                        Kept(A.funcs[f].keeps, consts, |A.funcs[f].params|), false,
                        copy.outputs, A.funcs[f].height)
    && |copy.outputs| == |A.funcs[f].outputs|
    && (forall e :: Expr(e) in A.funcs[f].outputs ==> e in mids && mids[e] in memo)
    && forall k :: 0 <= k < |copy.outputs| ==>
       copy.outputs[k] == SpecOutput(A.nodes, W.zero, mids, memo, A.funcs[f].outputs[k])
  }

  lemma SpecNext<V(!new)>(W: World<V>, A: Arena, rebound: Copies, f: nat, consts: Map, mids: map<nat, nat>,
                          memo: map<nat, nat>, copy: Function)
    requires GraphOk(W, A, rebound) && ConstsOk(A, f, consts) && MapOk(A, BoundAt(A.funcs[f].params, consts))
    requires MemoOk(W, A, BoundAt(A.funcs[f].params, consts), mids) && SameMemo(W, A, memo)
             && SpecShape(W, A, f, consts, mids, memo, copy)
    ensures NextFuncOk(A, copy)
  {
    hide Calls, Uncaptured, Kept, MemoOk, SameMemo, BoundAt;
    assert FuncOk(A, f) && HeightOk(A, f);
    var fn := A.funcs[f];
    KeptDistinct(fn.params, consts);
    KeptBoth(fn.params, fn.keeps, consts, |fn.params|);
    forall k | 0 <= k < |copy.outputs| && copy.outputs[k].Expr?
      ensures OutputOk(copy.outputs[k], false, |A.nodes|) && Calls(A, copy.outputs[k].e, Lower(A, fn.height)) {
      assert fn.outputs[k] in fn.outputs;
      BodyLow(W, A, f, consts, mids, memo, fn.outputs[k].e);
    }
  }

  lemma BodyLow<V(!new)>(W: World<V>, A: Arena, f: nat, consts: Map, mids: map<nat, nat>, memo: map<nat, nat>, b: nat)
    requires ArenaOk(A) && ConstsOk(A, f, consts) && MapOk(A, BoundAt(A.funcs[f].params, consts)) && b in mids
             && mids[b] in memo
    requires MemoOk(W, A, BoundAt(A.funcs[f].params, consts), mids) && SameMemo(W, A, memo)
    requires b < |A.nodes| && Calls(A, b, Lower(A, A.funcs[f].height))
    ensures memo[mids[b]] < |A.nodes| && Calls(A, memo[mids[b]], Lower(A, A.funcs[f].height))
  {
    hide Calls, Uncaptured;
    assert AllConst(A, BoundAt(A.funcs[f].params, consts));
    assert SubstOk(W, A, BoundAt(A.funcs[f].params, consts), b, mids[b]);
    assert Same(W, A, mids[b], memo[mids[b]]);
  }

  lemma {:induction false} SpecMade<V(!new)>(W: World<V>, A: Arena, B: Arena, f: nat, consts: Map,
                                             mids: map<nat, nat>, memo: map<nat, nat>, copy: Function)
    requires ArenaOk(A) && ArenaOk(B) && B == Arena(A.nodes, A.funcs + [copy]) && ConstsOk(A, f, consts)
             && MapOk(A, BoundAt(A.funcs[f].params, consts))
    requires MemoOk(W, A, BoundAt(A.funcs[f].params, consts), mids) && SameMemo(W, A, memo)
             && SpecShape(W, A, f, consts, mids, memo, copy)
    ensures SpecOk(W, B, f, consts, |A.funcs|)
  {
    hide OutputSpecOk, SubstOk, Settled, Kept;
    assert FuncOk(A, f);
    forall k | 0 <= k < |copy.outputs| && copy.outputs[k].Expr? ensures Settled(B, copy.outputs[k].e) {
      assert A.funcs[f].outputs[k] in A.funcs[f].outputs;
      var mid := mids[A.funcs[f].outputs[k].e];
      assert Same(W, A, mid, memo[mid]);
      SettledExtends(A, B, memo[mid]);
    }
    forall out | 0 <= out < |copy.outputs| ensures OutputSpecOk(W, B, f, consts, |A.funcs|, out) {
      SpecOutputMade(W, A, B, f, consts, mids, memo, copy, out);
    }
  }

  lemma SpecOutputMade<V(!new)>(W: World<V>, A: Arena, B: Arena, f: nat, consts: Map, mids: map<nat, nat>,
                                memo: map<nat, nat>, copy: Function, out: nat)
    requires ArenaOk(A) && ArenaOk(B) && B == Arena(A.nodes, A.funcs + [copy]) && ConstsOk(A, f, consts)
             && MapOk(A, BoundAt(A.funcs[f].params, consts))
    requires MemoOk(W, A, BoundAt(A.funcs[f].params, consts), mids) && SameMemo(W, A, memo)
             && SpecShape(W, A, f, consts, mids, memo, copy)
    requires out < |copy.outputs|
    ensures OutputSpecOk(W, B, f, consts, |A.funcs|, out)
  {
    hide SubstOk, Kept, CallValue;
    assert FuncOk(B, f) && FuncOk(B, |A.funcs|);
    var fn, g, m := A.funcs[f], |A.funcs|, BoundAt(A.funcs[f].params, consts);
    var o := fn.outputs[out];
    var mid, r := 0, 0;
    if o.Expr? {
      assert o in fn.outputs;
      mid, r := mids[o.e], memo[mids[o.e]];
      assert SubstOk(W, A, m, o.e, mid) && Same(W, A, mid, r);
      SubstExtends(W, A, B, m, o.e, mid);
      EqualExtends(W, A, B, mid, r);
    }
    forall env: Env<V>, vals: seq<V> ensures SpecAt(W, B, f, consts, g, out, env, vals) {
      if |vals| == |fn.params| && ConstsHold(W, B, consts, vals) {
        SpecCallOut(W, B, f, consts, mid, r, env, vals, g, out);
      }
    }
  }

  lemma SpecCallOut<V(!new)>(W: World<V>, A: Arena, f: nat, consts: Map, mid: nat, r: nat, env: Env<V>, vals: seq<V>,
                             g: nat, out: nat)
    requires ArenaOk(A) && ConstsOk(A, f, consts) && |vals| == |A.funcs[f].params| && ConstsHold(W, A, consts, vals)
    requires g < |A.funcs| && A.funcs[g].params == Kept(A.funcs[f].params, consts, |A.funcs[f].params|)
    requires out < |A.funcs[f].outputs| && out < |A.funcs[g].outputs|
    requires OutputOk(A.funcs[f].outputs[out], A.funcs[f].external, |A.nodes|)
             && OutputOk(A.funcs[g].outputs[out], A.funcs[g].external, |A.nodes|)
    requires var o, p := A.funcs[f].outputs[out], A.funcs[g].outputs[out];
             if o.Expr? then
               && MapOk(A, BoundAt(A.funcs[f].params, consts))
                  && SubstOk(W, A, BoundAt(A.funcs[f].params, consts), o.e, mid) && Equal(W, A, mid, r)
               && (p == Expr(r) || (p == Zero && r < |A.nodes| && A.nodes[r] == Const(W.zero)))
             else o.Zero? && p.Zero?
    ensures |Kept(vals, consts, |vals|)| == |A.funcs[g].params|
    ensures CallValue(W, A, env, g, out, Kept(vals, consts, |vals|), |A.nodes|) ==
            CallValue(W, A, env, f, out, vals, |A.nodes|)
  {
    hide SubstOk, Kept, Equal;
    var o := A.funcs[f].outputs[out];
    KeptBoth(vals, A.funcs[f].params, consts, |vals|);
    if o.Expr? {
      EqualExists(W, A, mid, r);
      SpecBody(W, A, f, consts, o.e, mid, r, env, vals);
      if A.funcs[g].outputs[out].Zero? {
        ConstEval(W, A, BindEnv(env, A.funcs[g].params, Kept(vals, consts, |vals|)), r);
      }
    }
  }

  /** What a call specialized on its constants runs; nothing where it passes none, or where the
      function's body is external. A parameter that is kept stays an argument even where it is
      constant. */
  method SpecializeInstance<V(!new)>(g: CallGraph<V>, f: nat, ctx: Context, l: seq<nat>, made0: Specialized,
                                     ghost h: nat)
    returns (t: Option<Target>, made: Specialized, full: seq<nat>)
    requires g.Valid() && MadeOk(g.W, g.A(), made0) && f < |g.funcs| && g.funcs[f].height < h
    requires ContextOk(ctx, |g.funcs[f].params|) && |l| == Arity(ctx, |g.funcs[f].params|)
    requires forall x :: x in l + ctx.Exprs() ==> x < |g.nodes|
    modifies g
    ensures g.Valid() && Extends(old(g.A()), g.A()) && MadeOk(g.W, g.A(), made)
    ensures full == FullArgs(ctx, |old(g.funcs)[f].params|, l) && |g.funcs[f].keeps| == |full|
    ensures forall i :: 0 <= i < |full| ==> full[i] < |g.nodes|
    ensures t.Some? ==> SpecOk(g.W, g.A(), f, ConstsOf(g.nodes, g.funcs[f].keeps, full), t.value.g)
                        && TargetFits(g.A(), full, ConstsOf(g.nodes, g.funcs[f].keeps, full), t.value)
    ensures t.None? ==> ConstsOf(g.nodes, g.funcs[f].keeps, full) == map[] || g.funcs[f].external
    decreases h, 0
  {
    hide GraphOk, SoundFolds, MadeOk;
    assert FuncOk(g.A(), f);
    ghost var A0 := g.A();
    full := FullArgs(ctx, |g.funcs[f].params|, l);
    FullExists(g.A(), f, ctx, l);
    var consts := ConstsOf(g.nodes, g.funcs[f].keeps, full);
    t, made := None, made0;
    if consts == map[] || g.funcs[f].external { return; }
    var copy;
    if (f, consts) in made0 {
      copy := made0[(f, consts)];
      MadeHas(g.W, g.A(), made0, f, consts);
    } else {
      hide SpecOk;
      copy, made := SpecializeFunction(g, f, consts, made0);
      made := AddMade(g, made, f, consts, copy);
    }
    ConstsKept(A0, g.A(), f, full);
    KeptBoth(full, g.funcs[f].params, consts, |full|);
    var at := if ctx.NoContext? then [] else ctx.at;
    var c, rest := Reassemble(copy, full, consts, at);
    assert g.funcs[copy].params == Kept(g.funcs[f].params, consts, |g.funcs[f].params|);
    t := Some(Target(copy, c, rest));
  }

  method AddMade<V(!new)>(g: CallGraph<V>, made0: Specialized, f: nat, consts: Map, copy: nat)
    returns (made: Specialized)
    requires g.Valid() && MadeOk(g.W, g.A(), made0) && SpecOk(g.W, g.A(), f, consts, copy)
    ensures MadeOk(g.W, g.A(), made) && (f, consts) in made && made[(f, consts)] == copy
  {
    hide SpecOk;
    made := made0[(f, consts) := copy];
  }

  lemma MadeHas<V(!new)>(W: World<V>, A: Arena, made: Specialized, f: nat, consts: Map)
    requires ArenaOk(A) && MadeOk(W, A, made) && (f, consts) in made
    ensures SpecOk(W, A, f, consts, made[(f, consts)])
  {
    hide SpecOk;
  }

  lemma ConstsKept(A: Arena, B: Arena, f: nat, full: seq<nat>)
    requires Extends(A, B) && f < |A.funcs| && |A.funcs[f].keeps| == |full|
             && forall i :: 0 <= i < |full| ==> full[i] < |A.nodes|
    ensures ConstsOf(B.nodes, B.funcs[f].keeps, full) == ConstsOf(A.nodes, A.funcs[f].keeps, full)
  {
  }

  /** A call over its operands rewritten: of the copy it runs, or rebuilt. */
  method SpecCallOver<V(!new)>(g: CallGraph<V>, e: nat, ghost news: seq<nat>, c: Context, l: seq<nat>,
                               made0: Specialized, ghost h: nat)
    returns (r: nat, made: Specialized)
    requires g.Valid() && MadeOk(g.W, g.A(), made0) && e < |g.nodes| && g.nodes[e].Call? && NodeOk(g.A(), e)
             && SameOperands(g.W, g.A(), e, news) && g.funcs[g.nodes[e].f].height < h
    requires l + c.Exprs() == news && forall i :: 0 <= i < |news| ==> news[i] < |g.nodes|
    requires var k := |g.funcs[g.nodes[e].f].params|;
             ContextOk(c, k) && |l| == Arity(c, k) && SameFull(g.W, g.A(), e, FullArgs(c, k, l))
             && forall i :: 0 <= i < k ==> FullArgs(c, k, l)[i] in news
    modifies g
    ensures g.Valid() && Extends(old(g.A()), g.A()) && MadeOk(g.W, g.A(), made) && Same(g.W, g.A(), e, r)
    decreases h, 1
  {
    hide GraphOk, SoundFolds, Same, SpecOk, MadeOk, SameFull, SameOperands, CalledOk, CallCalls, ContextOk, TargetFits,
         Arity;
    ghost var A0 := g.A();
    var Call(f, out, _, _) := g.nodes[e];
    var t, made1, full := SpecializeInstance(g, f, c, l, made0, h);
    made := made1;
    ghost var A1 := g.A();
    SameOperandsExtend(g.W, A0, A1, e, news);
    SameFullExtends(g.W, A0, A1, e, full);
    if t.None? {
      r := g.CallListIn(f, out, c, l);
      ConstsKept(A1, g.A(), f, full);
      SameOperandsExtend(g.W, A1, g.A(), e, news);
      SameFullExtends(g.W, A1, g.A(), e, full);
      SameRebuilt(g.W, g.A(), e, news, c, l, r);
      MadeExtends(g.W, A1, g.A(), made);
    } else {
      r := SpecRedirect(g, e, news, full, t.value, made);
    }
  }

  /** The call of the copy over what is still passed. */
  method SpecRedirect<V(!new)>(g: CallGraph<V>, e: nat, ghost news: seq<nat>, ghost full: seq<nat>, t: Target,
                               ghost made: Specialized)
    returns (r: nat)
    requires g.Valid() && MadeOk(g.W, g.A(), made) && e < |g.nodes| && g.nodes[e].Call? && NodeOk(g.A(), e)
             && SameOperands(g.W, g.A(), e, news) && SameFull(g.W, g.A(), e, full)
    requires |g.funcs[g.nodes[e].f].keeps| == |full|
             && forall i :: 0 <= i < |full| ==> full[i] < |g.nodes| && full[i] in news
    requires var f := g.nodes[e].f; var consts := ConstsOf(g.nodes, g.funcs[f].keeps, full);
             SpecOk(g.W, g.A(), f, consts, t.g) && TargetFits(g.A(), full, consts, t)
    modifies g
    ensures g.Valid() && Extends(old(g.A()), g.A()) && MadeOk(g.W, g.A(), made) && Same(g.W, g.A(), e, r)
  {
    hide GraphOk, SoundFolds, Same, SpecOk, MadeOk, SameFull, SameOperands, CalledOk, CallCalls, ContextOk, TargetFits,
         Arity;
    ghost var A1 := g.A();
    SpecHeight(g.W, A1, g.nodes[e].f, full, t);
    TargetNext(g.W, A1, e, full, t, news);
    r := g.CallListIn(t.g, g.nodes[e].out, t.ctx, t.rest);
    SameRedirected(g.W, A1, g.A(), e, news, full, t, r);
    MadeExtends(g.W, A1, g.A(), made);
  }

  /** A call rewritten, its operands being. */
  method SpecCall<V(!new)>(g: CallGraph<V>, e: nat, news: seq<nat>, made0: Specialized, ghost h: nat)
    returns (r: nat, made: Specialized)
    requires g.Valid() && MadeOk(g.W, g.A(), made0) && e < |g.nodes| && g.nodes[e].Call?
             && SameOperands(g.W, g.A(), e, news)
    requires Calls(g.A(), e, Lower(g.A(), h)) && forall i :: 0 <= i < |news| ==> news[i] < |g.nodes|
    modifies g
    ensures g.Valid() && Extends(old(g.A()), g.A()) && MadeOk(g.W, g.A(), made) && Same(g.W, g.A(), e, r)
    decreases h, 2
  {
    hide GraphOk, SoundFolds, Calls, Same, MadeOk, SameFull, SameOperands, EqualOperands, ContextOk, Lower, Arity;
    ghost var A0 := g.A();
    var Call(f, _, ctx, list) := g.nodes[e];
    CallFacts(A0, e, h);
    OperandsExist(g.W, A0, e, news);
    var l, exprs := news[..|list|], news[|list|..];
    var c := g.ContextOver(ctx, f, |g.funcs[f].params|, exprs);
    assert l + c.Exprs() == news;
    SameAreEqual(g.W, A0, e, news);
    FullSame(g.W, A0, e, news, l, c);
    r, made := SpecCallOver(g, e, news, c, l, made0, h);
  }

  lemma SameFullExtends<V(!new)>(W: World<V>, A: Arena, B: Arena, e: nat, full: seq<nat>)
    requires ArenaOk(A) && ArenaOk(B) && Extends(A, B) && SameFull(W, A, e, full)
    ensures SameFull(W, B, e, full)
  {
    hide Equal;
    assert NodeOk(B, e);
    var n := A.nodes[e];
    var was := FullArgs(n.ctx, |A.funcs[n.f].params|, n.list);
    forall i | 0 <= i < |was| ensures Equal(W, B, was[i], full[i]) { EqualExtends(W, A, B, was[i], full[i]); }
  }

  /** A rebuilt call is settled where it passes no constant that could be bound. */
  lemma CallSettled<V(!new)>(W: World<V>, A: Arena, e: nat, news: seq<nat>, g: nat, ctx: Context, l: seq<nat>, r: nat)
    requires ArenaOk(A) && SameOperands(W, A, e, news) && r < |A.nodes|
    requires A.nodes[r].Const? || (A.nodes[r].Call? && A.nodes[r] == Call(g, A.nodes[r].out, ctx, l))
    requires g < |A.funcs| && ContextOk(ctx, |A.funcs[g].params|) && |l| == Arity(ctx, |A.funcs[g].params|)
             && (forall x :: x in l + ctx.Exprs() ==> x in news)
    requires A.funcs[g].external
             || (forall k: nat :: !PassedConst(A, g, FullArgs(ctx, |A.funcs[g].params|, l), k))
    ensures Settled(A, r)
  {
    hide Settled, SameOperands;
    forall o | o in A.nodes[r].Operands() ensures Settled(A, o) {
      var i :| 0 <= i < |news| && news[i] == o;
      OperandSame(W, A, e, news, i);
    }
    SettledNode(A, r);
  }

  /** What the copy is still passed is no constant, or kept. */
  lemma CopySettled<V(!new)>(W: World<V>, A: Arena, B: Arena, f: nat, full: seq<nat>, t: Target)
    requires ArenaOk(A) && Extends(A, B) && f < |A.funcs| && |A.funcs[f].keeps| == |full|
             && (forall i :: 0 <= i < |full| ==> full[i] < |A.nodes|)
    requires var consts := ConstsOf(A.nodes, A.funcs[f].keeps, full);
             SpecOk(W, A, f, consts, t.g) && TargetFits(A, full, consts, t)
    ensures forall k: nat :: !PassedConst(B, t.g, FullArgs(t.ctx, |A.funcs[t.g].params|, t.rest), k)
  {
    hide OutputSpecOk, Settled, Kept, FullArgs, ContextOk;
    var consts, keeps := ConstsOf(A.nodes, A.funcs[f].keeps, full), A.funcs[f].keeps;
    var kept := Kept<nat>(full, consts, |full|);
    forall k: nat ensures !PassedConst(B, t.g, kept, k) {
      if k < |kept| { NotPassed(A, B, t.g, keeps, full, k); }
    }
  }

  lemma NotPassed(A: Arena, B: Arena, g: nat, keeps: seq<bool>, full: seq<nat>, k: nat)
    requires Extends(A, B) && |keeps| == |full| && forall i :: 0 <= i < |full| ==> full[i] < |A.nodes|
    requires var consts := ConstsOf(A.nodes, keeps, full);
             k < |Kept(full, consts, |full|)| && g < |A.funcs| && A.funcs[g].keeps == Kept(keeps, consts, |full|)
    ensures !PassedConst(B, g, Kept<nat>(full, ConstsOf(A.nodes, keeps, full), |full|), k)
  {
    hide Kept;
    var consts := ConstsOf(A.nodes, keeps, full);
    var i := KeptFrom(full, consts, |full|, k);
    KeptAt(keeps, consts, i, |full|);
    KeptBoth(full, keeps, consts, i);
  }

  /** A call that passes constants, redirected to the copy it runs. */
  lemma SameRedirected<V(!new)>(W: World<V>, A: Arena, B: Arena, e: nat, news: seq<nat>, full: seq<nat>, t: Target,
                                r: nat)
    requires ArenaOk(A) && ArenaOk(B) && Extends(A, B) && SameOperands(W, A, e, news) && SameFull(W, A, e, full)
             && A.nodes[e].Call? && NodeOk(A, e)
    requires |A.funcs[A.nodes[e].f].keeps| == |full| && forall i :: 0 <= i < |full| ==> full[i] < |A.nodes|
    requires var f := A.nodes[e].f; var consts := ConstsOf(A.nodes, A.funcs[f].keeps, full);
             SpecOk(W, A, f, consts, t.g) && TargetFits(A, full, consts, t)
    requires r < |B.nodes| && forall x :: x in t.rest + t.ctx.Exprs() ==> x in news
    requires CalledOk(W, B, t.g, A.nodes[e].out, FullArgs(t.ctx, |A.funcs[t.g].params|, t.rest), r)
             && CallCalls(B, t.g, t.rest + t.ctx.Exprs(), r)
             && (B.nodes[r].Const? || B.nodes[r] == Call(t.g, A.nodes[e].out, t.ctx, t.rest))
    ensures Same(W, B, e, r)
  {
    hide Calls, Same, SpecOk, SameFull, SameCallValue, SameOperands, CalledOk, CallCalls, ContextOk, Lower, Arity,
         Settled, PassedConst, FullArgs, Kept;
    OperandsExist(W, A, e, news);
    var f := A.nodes[e].f;
    var kept := Kept<nat>(full, ConstsOf(A.nodes, A.funcs[f].keeps, full), |full|);
    SpecHeight(W, A, f, full, t);
    SpecValue(W, A, e, full, t.g);
    CallValueExtends(W, A, B, e, t.g, kept);
    SameOperandsExtend(W, A, B, e, news);
    CopySettled(W, A, B, f, full, t);
    CallSettled(W, B, e, news, t.g, t.ctx, t.rest, r);
    SameCall(W, B, e, news, t.g, kept, t.rest + t.ctx.Exprs(), r);
  }

  /** A call that passes no constant to bind, rebuilt. */
  lemma SameRebuilt<V(!new)>(W: World<V>, A: Arena, e: nat, news: seq<nat>, c: Context, l: seq<nat>, r: nat)
    requires ArenaOk(A) && SameOperands(W, A, e, news) && A.nodes[e].Call? && NodeOk(A, e) && l + c.Exprs() == news
    requires r < |A.nodes| && ContextOk(c, |A.funcs[A.nodes[e].f].params|)
             && |l| == Arity(c, |A.funcs[A.nodes[e].f].params|)
    requires var n := A.nodes[e]; var full := FullArgs(c, |A.funcs[n.f].params|, l);
             && SameFull(W, A, e, full) && CalledOk(W, A, n.f, n.out, full, r) && CallCalls(A, n.f, news, r)
             && (A.nodes[r].Const? || A.nodes[r] == Call(n.f, n.out, c, l))
             && |A.funcs[n.f].keeps| == |full| && (forall i :: 0 <= i < |full| ==> full[i] < |A.nodes|)
             && (ConstsOf(A.nodes, A.funcs[n.f].keeps, full) == map[] || A.funcs[n.f].external)
    ensures Same(W, A, e, r)
  {
    hide Calls, Settled, SameOperands, SameFull, CalledOk, CallCalls, ContextOk, SameCallValue;
    OperandsExist(W, A, e, news);
    var n := A.nodes[e];
    var full := FullArgs(c, |A.funcs[n.f].params|, l);
    RebuiltValue(W, A, e, full);
    if !A.funcs[n.f].external {
      forall k: nat ensures !PassedConst(A, n.f, full, k) {
        assert k !in ConstsOf(A.nodes, A.funcs[n.f].keeps, full);
      }
    }
    CallSettled(W, A, e, news, n.f, c, l, r);
    SameCall(W, A, e, news, n.f, full, news, r);
  }

  lemma SpecHeight<V(!new)>(W: World<V>, A: Arena, f: nat, full: seq<nat>, t: Target)
    requires ArenaOk(A) && f < |A.funcs| && |A.funcs[f].keeps| == |full|
             && (forall i :: 0 <= i < |full| ==> full[i] < |A.nodes|)
    requires SpecOk(W, A, f, ConstsOf(A.nodes, A.funcs[f].keeps, full), t.g)
    ensures t.g < |A.funcs| && A.funcs[t.g].height <= A.funcs[f].height
            && |A.funcs[t.g].outputs| == |A.funcs[f].outputs|
  {
    hide OutputSpecOk;
  }

  lemma TargetNext<V(!new)>(W: World<V>, A: Arena, e: nat, full: seq<nat>, t: Target, news: seq<nat>)
    requires ArenaOk(A) && e < |A.nodes| && A.nodes[e].Call? && NodeOk(A, e)
    requires var f := A.nodes[e].f;
             && |A.funcs[f].keeps| == |full| && (forall i :: 0 <= i < |full| ==> full[i] < |A.nodes| && full[i] in news)
             && TargetFits(A, full, ConstsOf(A.nodes, A.funcs[f].keeps, full), t)
                && |A.funcs[t.g].outputs| == |A.funcs[f].outputs|
    ensures NextOk(A, Call(t.g, A.nodes[e].out, t.ctx, t.rest))
    ensures FullArgs(t.ctx, |A.funcs[t.g].params|, t.rest) ==
            Kept<nat>(full, ConstsOf(A.nodes, A.funcs[A.nodes[e].f].keeps, full), |full|)
    ensures forall x :: x in t.rest + t.ctx.Exprs() ==> x in news
  {
    OperandsAre(t.g, A.nodes[e].out, t.ctx, t.rest);
  }

  lemma CallValueExtends<V(!new)>(W: World<V>, A: Arena, B: Arena, e: nat, g: nat, full: seq<nat>)
    requires ArenaOk(A) && ArenaOk(B) && Extends(A, B) && SameCallValue(W, A, e, g, full)
    ensures SameCallValue(W, B, e, g, full)
  {
    assert NodeOk(B, e);
    var out := A.nodes[e].out;
    forall env: Env<V>
      ensures CallValue(W, B, env, g, out, Evals(W, B, env, full, |B.nodes|), |B.nodes|) == Eval(W, B, env, e) {
      EvalExtends(W, A, B, env, e);
      EvalsExtend(W, A, B, env, full, |A.nodes|);
      assert Evals(W, B, env, full, |B.nodes|) == Evals(W, B, env, full, |A.nodes|);
      CallExtends(W, A, B, env, g, out, Evals(W, A, env, full, |A.nodes|));
    }
  }

  method SpecOne<V(!new)>(g: CallGraph<V>, e: nat, memo: map<nat, nat>, made0: Specialized, ghost h: nat)
    returns (r: nat, made: Specialized)
    requires g.Valid() && MadeOk(g.W, g.A(), made0) && e < |g.nodes| && SameMemo(g.W, g.A(), memo)
    requires (forall o :: o in g.nodes[e].Operands() ==> o in memo) && Calls(g.A(), e, Lower(g.A(), h))
    modifies g
    ensures g.Valid() && Extends(old(g.A()), g.A()) && MadeOk(g.W, g.A(), made) && Same(g.W, g.A(), e, r)
    decreases h, 3
  {
    hide GraphOk, SoundFolds, Calls, Same, MadeOk, SameOperands, BuiltOk;
    ghost var A0 := g.A();
    made := made0;
    match g.nodes[e] {
      case Op(op, args) =>
        var news := Rewritten(memo, g.nodes[e].Operands());
        SameFromMemo(g.W, A0, memo, e, news);
        r := g.Build(op, news);
        SameOperandsExtend(g.W, A0, g.A(), e, news);
        MadeExtends(g.W, A0, g.A(), made);
        SameOp(g.W, g.A(), e, news, r);
      case Call(_, _, _, _) =>
        var news := Rewritten(memo, g.nodes[e].Operands());
        SameFromMemo(g.W, A0, memo, e, news);
        r, made := SpecCall(g, e, news, made0, h);
      case _ =>
        r := e;
        SameLeaf(g.W, A0, e);
    }
  }

  lemma SameFromMemo<V(!new)>(W: World<V>, A: Arena, memo: map<nat, nat>, e: nat, news: seq<nat>)
    requires ArenaOk(A) && SameMemo(W, A, memo) && e < |A.nodes|
    requires (forall o :: o in A.nodes[e].Operands() ==> o in memo) && news == Rewritten(memo, A.nodes[e].Operands())
    ensures SameOperands(W, A, e, news) && forall i :: 0 <= i < |news| ==> news[i] < |A.nodes|
  {
    forall i | 0 <= i < |news| ensures Same(W, A, A.nodes[e].Operands()[i], news[i]) && news[i] < |A.nodes| {
      assert A.nodes[e].Operands()[i] in A.nodes[e].Operands();
    }
  }

  /** Every node under `roots`, the calls that pass constants redirected to the copies of
      their functions specialized to them: every value stays what it was, in every
      environment. */
  method SpecializeCallsIn<V(!new)>(g: CallGraph<V>, roots: seq<nat>, made0: Specialized, ghost h: nat)
    returns (memo: map<nat, nat>, made: Specialized)
    requires g.Valid() && MadeOk(g.W, g.A(), made0)
    requires forall e :: e in roots ==> e < |g.nodes| && Calls(g.A(), e, Lower(g.A(), h))
    modifies g
    ensures g.Valid() && Extends(old(g.A()), g.A()) && MadeOk(g.W, g.A(), made) && SameMemo(g.W, g.A(), memo)
    ensures forall e :: e in roots ==> e in memo
    decreases h, 4
  {
    hide GraphOk, SoundFolds, Same, Calls, MadeOk, Schedule, Downward, Ordered;
    ghost var A0, p := g.A(), Calling(g.A(), Lower(g.A(), h));
    CallingDownward(A0, Lower(A0, h));
    var order := Schedules(g.nodes, roots, {});
    memo, made := map[], made0;
    for i := 0 to |order|
      invariant g.Valid() && Extends(A0, g.A()) && MadeOk(g.W, g.A(), made) && SameMemo(g.W, g.A(), memo)
      invariant forall e :: e in memo <==> e in order[..i]
    {
      var e := order[i];
      ghost var A1 := g.A();
      ScheduleAt(A0.nodes, roots, {}, order, p, i);
      CallsExtends(A0, A1, e, Lower(A0, h), Lower(A1, h));
      var r;
      r, made := SpecOne(g, e, memo, made, h);
      SameMemoExtends(g.W, A1, g.A(), memo);
      memo := memo[e := r];
    }
    ScheduleRoots(A0.nodes, roots, {}, order);
  }

  /** `specialize_calls` on any graph: every root keeps its value in every environment,
      through nested calls, contexts and globals, with nothing asked of the roots; and no call
      of a symbolic function is reached that passes a constant it could be specialized to. */
  method SpecializeCalls<V(!new)>(g: CallGraph<V>, roots: seq<nat>) returns (out: seq<nat>)
    requires g.Valid() && forall e :: e in roots ==> e < |g.nodes|
    modifies g
    ensures g.Valid() && Extends(old(g.A()), g.A())
    ensures |out| == |roots|
    ensures forall i :: 0 <= i < |roots| ==> Equal(g.W, g.A(), roots[i], out[i]) && Settled(g.A(), out[i])
  {
    hide GraphOk, SoundFolds, Calls, Equal, Settled;
    ghost var h := TopOf(g.funcs);
    forall e | e in roots ensures Calls(g.A(), e, Lower(g.A(), h)) { AllLow(g.A(), e, h); }
    var memo, _ := SpecializeCallsIn(g, roots, map[], h);
    out := Rewritten(memo, roots);
    forall i | 0 <= i < |roots| ensures Equal(g.W, g.A(), roots[i], out[i]) && Settled(g.A(), out[i]) {
      assert roots[i] in roots;
      assert Same(g.W, g.A(), roots[i], memo[roots[i]]);
    }
  }
}
