/** The forward sweep: the derivative of every node below the roots by one symbol, on an
    explicit stack with a memo, skipping what does not move. */
module ForwardMode {
  import opened Basics
  import opened Graphs
  import opened Tangents
  import opened Rules

  // --- the derivative of one node -------------------------------------------------------------

  lemma DerivesAt(h: seq<Node>, d: nat, e: nat, j: nat)
    requires Ok(h) && Derives(h, d, e, j)
    ensures d < |h| && e < |h|
  {
  }

  lemma AddRule(h: seq<Node>, e: nat, a: nat, b: nat, j: nat, da: nat, db: nat, r: nat)
    requires Ok(h) && e < |h| && h[e] == Add(a, b) && Derives(h, da, a, j) && Derives(h, db, b, j)
    requires Worth(h, r, Add(da, db))
    ensures Derives(h, r, e, j)
  {
    hide Eval, Tan, Ok;
    forall p: Point ensures Eval(h, p, r) == Tan(h, p, j, e) {
      Tan2(h, e, a, b, p, j);
      AddValue(h, r, da, db, p);
    }
  }

  lemma {:induction false} MulRule(h: seq<Node>, e: nat, a: nat, b: nat, j: nat, da: nat, db: nat, t1: nat, t2: nat,
                                   r: nat)
    requires Ok(h) && e < |h| && h[e] == Mul(a, b) && Derives(h, da, a, j) && Derives(h, db, b, j)
    requires Worth(h, t1, Mul(da, b)) && Worth(h, t2, Mul(a, db)) && Worth(h, r, Add(t1, t2))
    ensures Derives(h, r, e, j)
  {
    hide Eval, Tan, Ok;
    forall p: Point ensures Eval(h, p, r) == Tan(h, p, j, e) {
      Tan2(h, e, a, b, p, j);
      MulValue(h, t1, da, b, p);
      MulValue(h, t2, a, db, p);
      AddValue(h, r, t1, t2, p);
    }
  }

  lemma NegRule(h: seq<Node>, e: nat, a: nat, j: nat, da: nat, r: nat)
    requires Ok(h) && e < |h| && h[e] == Neg(a) && Derives(h, da, a, j) && Worth(h, r, Neg(da))
    ensures Derives(h, r, e, j)
  {
    hide Eval, Tan, Ok;
    forall p: Point ensures Eval(h, p, r) == Tan(h, p, j, e) {
      Tan1(h, e, a, p, j);
      Worth1(h, r, Neg(da), da, p);
    }
  }

  /** The slope of an integer power, `n * a^(n-1)`, at a point. */
  function PowSlope(p: Point, x: real, n: int): real { n as real * p.pow(x, n - 1) }

  lemma {:induction false} PowFactor(h: seq<Node>, p: Point, a: nat, n: int, coeff: nat, q: nat, cp: nat)
    requires Ok(h) && a < |h| && coeff < |h| && h[coeff] == Const(n as real)
    requires Worth(h, q, Pow(a, n - 1)) && Worth(h, cp, Mul(coeff, q))
    ensures cp < |h| && Eval(h, p, cp) == PowSlope(p, Eval(h, p, a), n)
  {
    hide Eval, Ok, Worth;
    ConstIs(h, p, coeff);
    PowValue(h, q, a, n - 1, p);
    MulValue(h, cp, coeff, q, p);
  }

  lemma {:induction false} PowRule(h: seq<Node>, e: nat, a: nat, n: int, j: nat, da: nat, coeff: nat, q: nat, cp: nat,
                                   r: nat)
    requires Ok(h) && e < |h| && h[e] == Pow(a, n) && Derives(h, da, a, j)
    requires coeff < |h| && h[coeff] == Const(n as real) && Worth(h, q, Pow(a, n - 1)) && Worth(h, cp, Mul(coeff, q))
    requires Worth(h, r, Mul(cp, da))
    ensures Derives(h, r, e, j)
  {
    hide Eval, Tan, Ok;
    forall p: Point ensures Eval(h, p, r) == Tan(h, p, j, e) {
      Tan1(h, e, a, p, j);
      PowFactor(h, p, a, n, coeff, q, cp);
      MulValue(h, r, cp, da, p);
    }
  }

  lemma {:induction false} UnRule(h: seq<Node>, e: nat, op: UnOp, a: nat, j: nat, da: nat, f: nat, r: nat)
    requires Ok(h) && e < |h| && h[e] == Un(op, a) && Derives(h, da, a, j)
    requires Worth(h, f, Un(Slope(op), a)) && Worth(h, r, Mul(f, da))
    ensures Derives(h, r, e, j)
  {
    hide Eval, Tan, Ok;
    forall p: Point ensures Eval(h, p, r) == Tan(h, p, j, e) {
      Tan1(h, e, a, p, j);
      Worth1(h, f, Un(Slope(op), a), a, p);
      MulValue(h, r, f, da, p);
    }
  }

  /** A partial times a derivative: the partial built, or the derivative zero. */
  ghost predicate PartialTerm(h: seq<Node>, op: BinOp, second: bool, a: nat, b: nat, pa: nat, da: nat)
    requires Ok(h)
  {
    && pa < |h| && da < |h|
    && (h[da] == Const(0.0) || Worth(h, pa, Bin(Partial(op, second), a, b)))
  }

  lemma {:induction false} MulProd(h: seq<Node>, t: nat, x: nat, y: nat, p: Point)
    requires Ok(h) && x < |h| && y < |h| && Worth(h, t, Mul(x, y))
    ensures t < |h| && Eval(h, p, t) == Prod(Eval(h, p, x), Eval(h, p, y))
  {
    hide Eval, Ok, Worth, ValueOf;
    MulValue(h, t, x, y, p);
  }

  lemma {:induction false} PartialIs(h: seq<Node>, op: BinOp, second: bool, a: nat, b: nat, pa: nat, da: nat, t: nat,
                                     p: Point)
    requires Ok(h) && a < |h| && b < |h| && PartialTerm(h, op, second, a, b, pa, da) && Worth(h, t, Mul(pa, da))
    ensures t < |h| && Eval(h, p, t) == Prod(p.bin(Partial(op, second), Eval(h, p, a), Eval(h, p, b)), Eval(h, p, da))
  {
    hide Eval, Ok, Worth, ValueOf, Prod;
    MulProd(h, t, pa, da, p);
    if h[da] == Const(0.0) {
      ConstIs(h, p, da);
      ZeroTimes(Eval(h, p, pa), p.bin(Partial(op, second), Eval(h, p, a), Eval(h, p, b)));
    } else {
      BinValue(h, pa, Partial(op, second), a, b, p);
    }
  }

  lemma ZeroTimes(a: real, b: real)
    ensures Prod(a, 0.0) == Prod(b, 0.0)
  {
  }

  lemma {:induction false} BinRule(h: seq<Node>, e: nat, op: BinOp, a: nat, b: nat, j: nat, da: nat, db: nat, pa: nat,
                                   pb: nat, t1: nat, t2: nat, r: nat)
    requires Ok(h) && e < |h| && h[e] == Bin(op, a, b) && Derives(h, da, a, j) && Derives(h, db, b, j)
    requires PartialTerm(h, op, false, a, b, pa, da) && PartialTerm(h, op, true, a, b, pb, db)
    requires Worth(h, t1, Mul(pa, da)) && Worth(h, t2, Mul(pb, db)) && Worth(h, r, Add(t1, t2))
    ensures Derives(h, r, e, j)
  {
    hide Eval, Tan, Ok, PartialTerm;
    forall p: Point ensures Eval(h, p, r) == Tan(h, p, j, e) {
      Tan2(h, e, a, b, p, j);
      PartialIs(h, op, false, a, b, pa, da, t1, p);
      PartialIs(h, op, true, a, b, pb, db, t2, p);
      AddValue(h, r, t1, t2, p);
    }
  }

  lemma SelectRule(h: seq<Node>, e: nat, c: nat, t: nat, f: nat, j: nat, dt: nat, df: nat, r: nat)
    requires Ok(h) && e < |h| && h[e] == Select(c, t, f) && Derives(h, dt, t, j) && Derives(h, df, f, j)
    requires Worth(h, r, Select(c, dt, df))
    ensures Derives(h, r, e, j)
  {
    hide Eval, Tan, Ok;
    forall p: Point ensures Eval(h, p, r) == Tan(h, p, j, e) {
      Tan3(h, e, c, t, f, p, j);
      Worth3(h, r, Select(c, dt, df), c, dt, df, p);
    }
  }

  /** `ds` are the derivatives of `os`, node by node. */
  ghost predicate DeriveAll(h: seq<Node>, ds: seq<nat>, os: seq<nat>, j: nat)
    requires Ok(h)
  {
    |ds| == |os| && Below(ds, |h|) && Below(os, |h|) && forall i :: 0 <= i < |os| ==> Derives(h, ds[i], os[i], j)
  }

  lemma TansAre(h: seq<Node>, ds: seq<nat>, os: seq<nat>, j: nat, p: Point)
    requires Ok(h) && DeriveAll(h, ds, os, j)
    ensures Evals(h, p, ds) == Tans(h, p, j, os)
  {
    hide Eval, Tan, Ok;
    forall i | 0 <= i < |os| ensures Evals(h, p, ds)[i] == Tans(h, p, j, os)[i] { assert Derives(h, ds[i], os[i], j); }
  }

  lemma DeriveAllGrown(g: seq<Node>, h: seq<Node>, ds: seq<nat>, os: seq<nat>, j: nat)
    requires Ok(g) && Grown(g, h) && DeriveAll(g, ds, os, j)
    ensures DeriveAll(h, ds, os, j)
  {
    hide Derives;
    forall i | 0 <= i < |os| ensures Derives(h, ds[i], os[i], j) { DerivesGrown(g, h, ds[i], os[i], j); }
  }

  lemma SumRule(h: seq<Node>, e: nat, args: seq<nat>, j: nat, ds: seq<nat>, r: nat)
    requires Ok(h) && e < |h| && h[e] == Reduce(Sum, args) && DeriveAll(h, ds, args, j) && Worth(h, r, Reduce(Sum, ds))
    ensures Derives(h, r, e, j)
  {
    hide Eval, Tan, Ok, DeriveAll, SumOf;
    forall p: Point ensures Eval(h, p, r) == Tan(h, p, j, e) {
      TanList(h, e, p, j);
      TansAre(h, ds, args, j, p);
    }
  }

  // --- products ---------------------------------------------------------------------------------

  /** `terms` sum to the first `n` cofactor terms of a product. */
  ghost predicate CoTerms(h: seq<Node>, terms: seq<nat>, args: seq<nat>, ds: seq<nat>, n: nat)
    requires Ok(h)
  {
    && Below(terms, |h|) && Below(args, |h|) && Below(ds, |h|) && |ds| == |args| && n <= |args|
    && forall p: Point :: SumOf(Evals(h, p, terms)) == CoSum(Evals(h, p, args), Evals(h, p, ds), n)
  }

  lemma {:induction false} CoTermsGrown(g: seq<Node>, h: seq<Node>, terms: seq<nat>, args: seq<nat>, ds: seq<nat>,
                                        n: nat)
    requires Ok(g) && Grown(g, h) && CoTerms(g, terms, args, ds, n)
    ensures CoTerms(h, terms, args, ds, n)
  {
    hide Eval, CoSum, SumOf;
    forall p: Point ensures SumOf(Evals(h, p, terms)) == CoSum(Evals(h, p, args), Evals(h, p, ds), n) {
      EvalsGrown(g, h, p, terms);
      EvalsGrown(g, h, p, args);
      EvalsGrown(g, h, p, ds);
    }
  }

  lemma {:induction false} SumMore(h: seq<Node>, p: Point, terms: seq<nat>, t: nat)
    requires Ok(h) && Below(terms, |h|) && t < |h|
    ensures Below(terms + [t], |h|) && SumOf(Evals(h, p, terms + [t])) == SumOf(Evals(h, p, terms)) + Eval(h, p, t)
  {
    hide Eval, Ok;
    assert Evals(h, p, terms + [t]) == Evals(h, p, terms) + [Eval(h, p, t)];
    assert (Evals(h, p, terms) + [Eval(h, p, t)])[..|terms|] == Evals(h, p, terms);
  }

  lemma {:induction false} CoTermNext(h: seq<Node>, terms: seq<nat>, args: seq<nat>, ds: seq<nat>, n: nat, other: nat,
                                      t: nat)
    requires Ok(h) && CoTerms(h, terms, args, ds, n) && n < |args| && Cofactor(h, args, n, other)
             && Worth(h, t, Mul(ds[n], other))
    ensures CoTerms(h, terms + [t], args, ds, n + 1)
  {
    hide Eval, Ok, SumOf, Others;
    WorthAt(h, t, Mul(ds[n], other));
    forall p: Point
      ensures SumOf(Evals(h, p, terms + [t])) == CoSum(Evals(h, p, args), Evals(h, p, ds), n + 1)
    {
      SumMore(h, p, terms, t);
      MulValue(h, t, ds[n], other, p);
    }
  }

  lemma CoTermSkip(h: seq<Node>, terms: seq<nat>, args: seq<nat>, ds: seq<nat>, n: nat)
    requires Ok(h) && CoTerms(h, terms, args, ds, n) && n < |args| && ds[n] < |h| && h[ds[n]] == Const(0.0)
    ensures CoTerms(h, terms, args, ds, n + 1)
  {
    hide Eval, Ok, SumOf, Others;
    forall p: Point
      ensures SumOf(Evals(h, p, terms)) == CoSum(Evals(h, p, args), Evals(h, p, ds), n + 1)
    {
      ConstIs(h, p, ds[n]);
    }
  }

  lemma ProductRule(h: seq<Node>, e: nat, args: seq<nat>, j: nat, ds: seq<nat>, terms: seq<nat>, r: nat)
    requires Ok(h) && e < |h| && h[e] == Reduce(Product, args) && DeriveAll(h, ds, args, j)
    requires CoTerms(h, terms, args, ds, |args|) && Worth(h, r, Reduce(Sum, terms))
    ensures Derives(h, r, e, j)
  {
    hide Eval, Tan, Ok, DeriveAll, SumOf, CoSum, ProductTan;
    forall p: Point ensures Eval(h, p, r) == Tan(h, p, j, e) {
      TanList(h, e, p, j);
      TansAre(h, ds, args, j, p);
      CofactorRule(Evals(h, p, args), Evals(h, p, ds));
    }
  }

  /** Each derivative that is not zero times its cofactor. */
  method CoTermList(g: Graph, args: seq<nat>, ds: seq<nat>, others: seq<Option<nat>>, zero: nat)
    returns (terms: seq<nat>)
    requires g.Valid() && Ok(g.nodes) && |ds| == |others| == |args| && Below(args, |g.nodes|) && Below(ds, |g.nodes|)
    requires zero < |g.nodes| && g.nodes[zero] == Const(0.0)
    requires forall k :: 0 <= k < |args| ==>
               if ds[k] != zero then others[k].Some? && Cofactor(g.nodes, args, k, others[k].value) else others[k].None?
    modifies g
    ensures g.Valid() && (g.nodes == old(g.nodes) || Grown(old(g.nodes), g.nodes))
            && CoTerms(g.nodes, terms, args, ds, |args|)
  {
    hide Worth, Derives, Equals, Cofactor, CoTerms, Ok, Graph.Valid;
    ghost var h := g.nodes;
    terms := [];
    CoTermsNone(h, args, ds);
    for i := 0 to |args|
      invariant g.Valid() && (g.nodes == h || Grown(h, g.nodes)) && CoTerms(g.nodes, terms, args, ds, i)
      invariant forall k :: 0 <= k < |args| && ds[k] != zero ==> Cofactor(g.nodes, args, k, others[k].value)
    {
      ghost var b := g.nodes;
      CoTermsBelow(b, terms, args, ds, i);
      if others[i].Some? {
        CofactorAt(b, args, i, others[i].value);
        var t := Make(g, Mul(ds[i], others[i].value));
        CoTermsGrown(b, g.nodes, terms, args, ds, i);
        FactorsGrown(b, g.nodes, args);
        CoTermNext(g.nodes, terms, args, ds, i, others[i].value, t);
        terms := terms + [t];
      } else {
        CoTermSkip(g.nodes, terms, args, ds, i);
      }
    }
  }

  method ProductTangent(g: Graph, e: nat, args: seq<nat>, ds: seq<nat>, zero: nat, ghost j: nat) returns (r: nat)
    requires g.Valid() && e < |g.nodes| && g.nodes[e] == Reduce(Product, args) && DeriveAll(g.nodes, ds, args, j)
    requires zero < |g.nodes| && g.nodes[zero] == Const(0.0)
    modifies g
    ensures g.Valid() && Grown(old(g.nodes), g.nodes) && Derives(g.nodes, r, e, j)
  {
    hide Worth, Derives, Equals, Cofactor, CoTerms, Ok, DeriveAll, Tan, Eval;
    ghost var was := g.nodes;
    hide Graph.Valid;
    DeriveAllBelow(was, ds, args, j);
    var others := Cofactors(g, args, seq(|args|, i requires 0 <= i < |args| => ds[i] != zero));
    ghost var h := g.nodes;
    DeriveAllGrown(was, h, ds, args, j);
    DeriveAllBelow(h, ds, args, j);
    var terms := CoTermList(g, args, ds, others, zero);
    ghost var b := g.nodes;
    CoTermsBelow(b, terms, args, ds, |args|);
    r := g.Build(Reduce(Sum, terms));
    DeriveAllGrown(was, g.nodes, ds, args, j);
    CoTermsGrown(b, g.nodes, terms, args, ds, |args|);
    ProductRule(g.nodes, e, args, j, ds, terms, r);
  }

  lemma DeriveAllBelow(h: seq<Node>, ds: seq<nat>, os: seq<nat>, j: nat)
    requires Ok(h) && DeriveAll(h, ds, os, j)
    ensures |ds| == |os| && Below(ds, |h|) && Below(os, |h|) && forall i :: 0 <= i < |os| ==> ds[i] < |h| && os[i] < |h|
  {
    assert forall i :: 0 <= i < |os| ==> ds[i] in ds && os[i] in os;
  }

  lemma CoTermsBelow(h: seq<Node>, terms: seq<nat>, args: seq<nat>, ds: seq<nat>, n: nat)
    requires Ok(h) && CoTerms(h, terms, args, ds, n)
    ensures |ds| == |args| && Below(terms, |h|) && Below(args, |h|)
            && forall i :: 0 <= i < |args| ==> ds[i] < |h| && args[i] < |h|
  {
    assert forall i :: 0 <= i < |args| ==> ds[i] in ds && args[i] in args;
  }

  lemma CofactorAt(h: seq<Node>, args: seq<nat>, i: nat, r: nat)
    requires Ok(h) && Cofactor(h, args, i, r)
    ensures r < |h|
  {
  }

  lemma CoTermsNone(h: seq<Node>, args: seq<nat>, ds: seq<nat>)
    requires Ok(h) && |ds| == |args| && Below(args, |h|) && Below(ds, |h|)
    ensures CoTerms(h, [], args, ds, 0)
  {
    hide Eval;
    forall p: Point ensures SumOf(Evals(h, p, [])) == 0.0 {}
  }

  // --- minima and maxima --------------------------------------------------------------------------

  /** `m` is the extremum of the first `n` terms, `dm` its derivative. */
  ghost predicate Running(h: seq<Node>, op: ReduceOp, args: seq<nat>, ds: seq<nat>, n: nat, m: nat, dm: nat)
    requires Ok(h)
  {
    && Below(args, |h|) && Below(ds, |h|) && |ds| == |args| && 0 < n <= |args| && m < |h| && dm < |h|
    && (forall p: Point :: Eval(h, p, m) == ExtremumOf(op, Evals(h, p, args)[..n]))
    && (forall p: Point :: Eval(h, p, dm) == ExtremumTan(op, Evals(h, p, args)[..n], Evals(h, p, ds)[..n]))
  }

  lemma RunningGrown(g: seq<Node>, h: seq<Node>, op: ReduceOp, args: seq<nat>, ds: seq<nat>, n: nat, m: nat, dm: nat)
    requires Ok(g) && Grown(g, h) && Running(g, op, args, ds, n, m, dm)
    ensures Running(h, op, args, ds, n, m, dm)
  {
    hide Eval, ExtremumOf, ExtremumTan;
    forall p: Point ensures Eval(h, p, m) == Eval(g, p, m) && Eval(h, p, dm) == Eval(g, p, dm)
                      && Evals(h, p, args) == Evals(g, p, args) && Evals(h, p, ds) == Evals(g, p, ds)
    {
      EvalGrown(g, h, p, m);
      EvalGrown(g, h, p, dm);
      EvalsGrown(g, h, p, args);
      EvalsGrown(g, h, p, ds);
    }
  }

  /** The comparison that asks whether a term replaces the running extremum. */
  function Asks(op: ReduceOp): CmpOp { if op.Max? then Gt else Lt }

  lemma Extremum2(op: ReduceOp, m: real, x: real)
    requires op.Min? || op.Max?
    ensures ReduceOf(op, [m, x]) == if Beats(op, x, m) then x else m
  {
    assert [m, x][..1] == [m];
    assert ExtremumOf(op, [m]) == m;
  }

  lemma {:induction false} RunningNext(h: seq<Node>, op: ReduceOp, args: seq<nat>, ds: seq<nat>, n: nat, m: nat,
                                       dm: nat,
                    cond: nat, dm2: nat, m2: nat)
    requires Ok(h) && (op.Min? || op.Max?) && Running(h, op, args, ds, n, m, dm) && n < |args|
    requires Worth(h, cond, Cmp(Asks(op), args[n], m)) && Worth(h, dm2, Select(cond, ds[n], dm))
             && Worth(h, m2, Reduce(op, [m, args[n]]))
    ensures Running(h, op, args, ds, n + 1, m2, dm2)
  {
    hide Eval, Ok, ExtremumOf, ExtremumTan, ReduceOf;
    WorthAt(h, dm2, Select(cond, ds[n], dm));
    WorthAt(h, m2, Reduce(op, [m, args[n]]));
    forall p: Point
      ensures Eval(h, p, m2) == ExtremumOf(op, Evals(h, p, args)[..n + 1])
      ensures Eval(h, p, dm2) == ExtremumTan(op, Evals(h, p, args)[..n + 1], Evals(h, p, ds)[..n + 1])
    {
      Worth2(h, cond, Cmp(Asks(op), args[n], m), args[n], m, p);
      Worth3(h, dm2, Select(cond, ds[n], dm), cond, ds[n], dm, p);
      Worth2(h, m2, Reduce(op, [m, args[n]]), m, args[n], p);
      Extremum2(op, Eval(h, p, m), Eval(h, p, args[n]));
      ExtremumStep(op, Evals(h, p, args), Evals(h, p, ds), n);
    }
  }

  lemma ExtremumStep(op: ReduceOp, xs: seq<real>, ds: seq<real>, n: nat)
    requires |xs| == |ds| && 0 < n < |xs|
    ensures var m := ExtremumOf(op, xs[..n]);
            && ExtremumOf(op, xs[..n + 1]) == (if Beats(op, xs[n], m) then xs[n] else m)
            && ExtremumTan(op, xs[..n + 1], ds[..n + 1]) ==
               (if Beats(op, xs[n], m) then ds[n] else ExtremumTan(op, xs[..n], ds[..n]))
  {
    assert xs[..n + 1][..n] == xs[..n] && ds[..n + 1][..n] == ds[..n];
  }

  lemma RunningFirst(h: seq<Node>, op: ReduceOp, args: seq<nat>, ds: seq<nat>, j: nat)
    requires Ok(h) && args != [] && DeriveAll(h, ds, args, j)
    ensures Running(h, op, args, ds, 1, args[0], ds[0])
  {
    hide Eval;
    DeriveAllBelow(h, ds, args, j);
  }

  lemma RunningBelow(h: seq<Node>, op: ReduceOp, args: seq<nat>, ds: seq<nat>, n: nat, m: nat, dm: nat)
    requires Ok(h) && Running(h, op, args, ds, n, m, dm)
    ensures m < |h| && dm < |h| && |ds| == |args| && forall i :: 0 <= i < |args| ==> args[i] < |h| && ds[i] < |h|
  {
    assert forall i :: 0 <= i < |args| ==> ds[i] in ds && args[i] in args;
  }

  lemma {:induction false} ExtremumRule(h: seq<Node>, e: nat, op: ReduceOp, args: seq<nat>, j: nat, ds: seq<nat>,
                                        m: nat, dm: nat)
    requires Ok(h) && e < |h| && h[e] == Reduce(op, args) && (op.Min? || op.Max?) && DeriveAll(h, ds, args, j)
    requires Running(h, op, args, ds, |args|, m, dm)
    ensures Derives(h, dm, e, j)
  {
    hide Eval, Tan, Ok, DeriveAll, ExtremumTan;
    forall p: Point ensures Eval(h, p, dm) == Tan(h, p, j, e) {
      TanList(h, e, p, j);
      TansAre(h, ds, args, j, p);
      assert Evals(h, p, args)[..|args|] == Evals(h, p, args) && Evals(h, p, ds)[..|args|] == Evals(h, p, ds);
    }
  }

  /** One more term of a min or max: whether it takes over, its derivative then, the new
      extremum. */
  method ExtremumMore(g: Graph, op: ReduceOp, args: seq<nat>, ds: seq<nat>, n: nat, m: nat, dm: nat)
    returns (m2: nat, dm2: nat)
    requires g.Valid() && (op.Min? || op.Max?) && Running(g.nodes, op, args, ds, n, m, dm) && n < |args|
    modifies g
    ensures g.Valid() && Grown(old(g.nodes), g.nodes) && Running(g.nodes, op, args, ds, n + 1, m2, dm2)
  {
    hide Worth, Derives, Equals, Running, Ok;
    ghost var was := g.nodes;
    RunningBelow(was, op, args, ds, n, m, dm);
    var cond := Make(g, Cmp(Asks(op), args[n], m));
    WorthAt(g.nodes, cond, Cmp(Asks(op), args[n], m));
    dm2 := Make(g, Select(cond, ds[n], dm));
    m2 := Make(g, Reduce(op, [m, args[n]]));
    RunningGrown(was, g.nodes, op, args, ds, n, m, dm);
    RunningNext(g.nodes, op, args, ds, n, m, dm, cond, dm2, m2);
  }

  method ExtremumTangent(g: Graph, e: nat, op: ReduceOp, args: seq<nat>, ds: seq<nat>, ghost j: nat) returns (dm: nat)
    requires g.Valid() && e < |g.nodes| && g.nodes[e] == Reduce(op, args) && (op.Min? || op.Max?)
    requires args != [] && DeriveAll(g.nodes, ds, args, j)
    modifies g
    ensures g.Valid() && Grown(old(g.nodes), g.nodes) && Derives(g.nodes, dm, e, j)
  {
    hide Worth, Derives, Equals, Running, Ok, DeriveAll;
    ghost var was := g.nodes;
    DeriveAllBelow(was, ds, args, j);
    RunningFirst(was, op, args, ds, j);
    var m: nat := args[0];
    dm := ds[0];
    for i := 1 to |args|
      invariant g.Valid() && Grown(was, g.nodes) && Running(g.nodes, op, args, ds, i, m, dm)
    {
      m, dm := ExtremumMore(g, op, args, ds, i, m, dm);
    }
    DeriveAllGrown(was, g.nodes, ds, args, j);
    ExtremumRule(g.nodes, e, op, args, j, ds, m, dm);
  }

  // --- dots ---------------------------------------------------------------------------------------

  /** `t` is the derivative of one product of a dot. */
  ghost predicate DotTerm(h: seq<Node>, t: nat, x: nat, y: nat, dx: nat, dy: nat)
    requires Ok(h)
  {
    && t < |h| && x < |h| && y < |h| && dx < |h| && dy < |h|
    && forall p: Point :: Eval(h, p, t) == Eval(h, p, dx) * Eval(h, p, y) + Eval(h, p, x) * Eval(h, p, dy)
  }

  lemma DotTermsGrown(g: seq<Node>, h: seq<Node>)
    requires Ok(g) && Grown(g, h)
    ensures forall t, x, y, dx, dy :: DotTerm(g, t, x, y, dx, dy) ==> DotTerm(h, t, x, y, dx, dy)
  {
    hide Eval;
    forall r: nat, p: Point | r < |g| ensures Eval(h, p, r) == Eval(g, p, r) { EvalGrown(g, h, p, r); }
  }

  lemma {:induction false} DotTermIs(h: seq<Node>, x: nat, y: nat, dx: nat, dy: nat, t1: nat, t2: nat, t: nat)
    requires Ok(h) && x < |h| && y < |h| && dx < |h| && dy < |h|
    requires Worth(h, t1, Mul(dx, y)) && Worth(h, t2, Mul(x, dy)) && Worth(h, t, Add(t1, t2))
    ensures DotTerm(h, t, x, y, dx, dy)
  {
    hide Eval, Ok;
    forall p: Point ensures Eval(h, p, t) == Eval(h, p, dx) * Eval(h, p, y) + Eval(h, p, x) * Eval(h, p, dy) {
      MulValue(h, t1, dx, y, p);
      MulValue(h, t2, x, dy, p);
      AddValue(h, t, t1, t2, p);
    }
  }

  method DotOne(g: Graph, x: nat, y: nat, dx: nat, dy: nat) returns (t: nat)
    requires g.Valid() && x < |g.nodes| && y < |g.nodes| && dx < |g.nodes| && dy < |g.nodes|
    modifies g
    ensures g.Valid() && Grown(old(g.nodes), g.nodes) && DotTerm(g.nodes, t, x, y, dx, dy)
    ensures forall t, x, y, dx, dy :: DotTerm(old(g.nodes), t, x, y, dx, dy) ==> DotTerm(g.nodes, t, x, y, dx, dy)
  {
    hide Worth, Derives, Ok, DotTerm;
    ghost var was := g.nodes;
    var t1, t2;
    t1, t2, t := TwoTerms(g, Mul(dx, y), Mul(x, dy));
    DotTermIs(g.nodes, x, y, dx, dy, t1, t2, t);
    DotTermsGrown(was, g.nodes);
  }

  lemma {:induction false} DotRule(h: seq<Node>, e: nat, xs: seq<nat>, ys: seq<nat>, j: nat, dx: seq<nat>,
                                   dy: seq<nat>, terms: seq<nat>, r: nat)
    requires Ok(h) && e < |h| && h[e] == Dot(xs, ys) && |xs| == |ys| == |terms| && DeriveAll(h, dx, xs, j)
             && DeriveAll(h, dy, ys, j)
    requires forall k :: 0 <= k < |xs| ==> DotTerm(h, terms[k], xs[k], ys[k], dx[k], dy[k])
    requires Worth(h, r, Reduce(Sum, terms))
    ensures Derives(h, r, e, j)
  {
    hide Eval, Tan, Ok, DeriveAll, SumOf, Worth;
    WorthAt(h, r, Reduce(Sum, terms));
    forall p: Point ensures Eval(h, p, r) == Tan(h, p, j, e) {
      TanList(h, e, p, j);
      DotParts(h, xs, ys, j, p);
      TansAre(h, dx, xs, j, p);
      TansAre(h, dy, ys, j, p);
      var want := seq(|xs|, i requires 0 <= i < |xs| =>
                       Evals(h, p, dx)[i] * Evals(h, p, ys)[i] + Evals(h, p, xs)[i] * Evals(h, p, dy)[i]);
      forall k | 0 <= k < |xs| ensures Evals(h, p, terms)[k] == want[k] {
        assert DotTerm(h, terms[k], xs[k], ys[k], dx[k], dy[k]);
      }
      assert Evals(h, p, terms) == want;
      SumValue(h, r, terms, p);
    }
  }

  lemma DotParts(h: seq<Node>, xs: seq<nat>, ys: seq<nat>, j: nat, p: Point)
    requires Ok(h) && Below(xs + ys, |h|)
    ensures Below(xs, |h|) && Below(ys, |h|)
    ensures Evals(h, p, xs + ys)[..|xs|] == Evals(h, p, xs) && Evals(h, p, xs + ys)[|xs|..] == Evals(h, p, ys)
    ensures Tans(h, p, j, xs + ys)[..|xs|] == Tans(h, p, j, xs) && Tans(h, p, j, xs + ys)[|xs|..] == Tans(h, p, j, ys)
  {
    hide Eval, Tan, Ok;
    assert forall o :: o in xs || o in ys ==> o in xs + ys;
    EvalsJoin(h, p, xs, ys);
    TansJoin(h, p, j, xs, ys);
  }

  lemma EvalsJoin(h: seq<Node>, p: Point, a: seq<nat>, b: seq<nat>)
    requires Ok(h) && Below(a, |h|) && Below(b, |h|) && Below(a + b, |h|)
    ensures Evals(h, p, a + b) == Evals(h, p, a) + Evals(h, p, b)
  {
    hide Eval, Ok, Below;
  }

  lemma TansJoin(h: seq<Node>, p: Point, j: nat, a: seq<nat>, b: seq<nat>)
    requires Ok(h) && Below(a, |h|) && Below(b, |h|) && Below(a + b, |h|)
    ensures Tans(h, p, j, a + b) == Tans(h, p, j, a) + Tans(h, p, j, b)
  {
    hide Tan, Ok, Below;
  }

  method DotTangent(g: Graph, e: nat, xs: seq<nat>, ys: seq<nat>, dx: seq<nat>, dy: seq<nat>, ghost j: nat)
    returns (r: nat)
    requires g.Valid() && e < |g.nodes| && g.nodes[e] == Dot(xs, ys) && |xs| == |ys|
    requires DeriveAll(g.nodes, dx, xs, j) && DeriveAll(g.nodes, dy, ys, j)
    modifies g
    ensures g.Valid() && Grown(old(g.nodes), g.nodes) && Derives(g.nodes, r, e, j)
  {
    hide Worth, Derives, Equals, Ok, DeriveAll, DotTerm;
    ghost var was := g.nodes;
    DeriveAllBelow(was, dx, xs, j);
    DeriveAllBelow(was, dy, ys, j);
    var terms: seq<nat> := [];
    for k := 0 to |xs|
      invariant g.Valid() && Grown(was, g.nodes) && |terms| == k
      invariant forall i :: 0 <= i < k ==> DotTerm(g.nodes, terms[i], xs[i], ys[i], dx[i], dy[i])
    {
      var t := DotOne(g, xs[k], ys[k], dx[k], dy[k]);
      terms := terms + [t];
    }
    TermsBelow(g.nodes, terms, xs, ys, dx, dy);
    ghost var h := g.nodes;
    r := Make(g, Reduce(Sum, terms));
    DotTermsGrown(h, g.nodes);
    DeriveAllGrown(was, g.nodes, dx, xs, j);
    DeriveAllGrown(was, g.nodes, dy, ys, j);
    DotRule(g.nodes, e, xs, ys, j, dx, dy, terms, r);
  }

  lemma TermsBelow(h: seq<Node>, terms: seq<nat>, xs: seq<nat>, ys: seq<nat>, dx: seq<nat>, dy: seq<nat>)
    requires Ok(h) && |terms| == |xs| == |ys| == |dx| == |dy|
    requires forall i :: 0 <= i < |xs| ==> DotTerm(h, terms[i], xs[i], ys[i], dx[i], dy[i])
    ensures NodeOk(Reduce(Sum, terms), |h|)
  {
    hide Eval;
  }

  // --- any node -----------------------------------------------------------------------------------

  /** The memo holds derivatives by symbol `j`. */
  ghost predicate MemoOk(h: seq<Node>, memo: map<nat, nat>, j: nat)
    requires Ok(h)
  {
    forall c :: c in memo ==> Derives(h, memo[c], c, j)
  }

  ghost predicate ReadyFor(h: seq<Node>, n: Node, memo: map<nat, nat>, j: nat)
    requires Ok(h)
  {
    forall c :: c in Carrying(n) ==> c in memo && Derives(h, memo[c], c, j)
  }

  function Look(memo: map<nat, nat>, os: seq<nat>): (r: seq<nat>)
    requires forall o :: o in os ==> o in memo
    ensures |r| == |os| && forall i :: 0 <= i < |os| ==> os[i] in memo && r[i] == memo[os[i]]
  {
    assert forall i :: 0 <= i < |os| ==> os[i] in os;
    seq(|os|, i requires 0 <= i < |os| => memo[os[i]])
  }

  lemma LookAll(h: seq<Node>, n: Node, memo: map<nat, nat>, j: nat, os: seq<nat>)
    requires Ok(h) && ReadyFor(h, n, memo, j) && forall o :: o in os ==> o in Carrying(n)
    ensures (forall o :: o in os ==> o in memo) && DeriveAll(h, Look(memo, os), os, j)
  {
    var ds := Look(memo, os);
    forall i | 0 <= i < |os| ensures Derives(h, ds[i], os[i], j) { assert os[i] in os; }
  }

  /** Where no operand that counts moves, zero is the derivative. */
  lemma {:induction false} StillNode(h: seq<Node>, e: nat, memo: map<nat, nat>, j: nat, zero: nat)
    requires Ok(h) && e < |h| && h[e] != Sym(j) && ReadyFor(h, h[e], memo, j)
    requires zero < |h| && h[zero] == Const(0.0) && forall c :: c in Carrying(h[e]) ==> memo[c] == zero
    ensures Derives(h, zero, e, j)
  {
    hide Eval, Tan, Ok;
    var n := h[e];
    forall p: Point ensures Eval(h, p, zero) == Tan(h, p, j, e) {
      TanList(h, e, p, j);
      ConstIs(h, p, zero);
      var d := Tans(h, p, j, Operands(n));
      forall i | Inert(n) <= i < |d| ensures d[i] == 0.0 {
        var c := Carrying(n)[i - Inert(n)];
        assert c in Carrying(n);
        assert Derives(h, zero, c, j);
      }
      Still(p, j, n, Evals(h, p, Operands(n)), d);
    }
  }

  lemma SymIs(h: seq<Node>, e: nat, j: nat, one: nat)
    requires Ok(h) && e < |h| && h[e] == Sym(j) && one < |h| && h[one] == Const(1.0)
    ensures Derives(h, one, e, j)
  {
    hide Eval, Tan, Ok;
    forall p: Point ensures Eval(h, p, one) == Tan(h, p, j, e) {
      TanList(h, e, p, j);
      ConstIs(h, p, one);
    }
  }

  /** A node's derivative, given those of its operands in the memo; the shared zero where none of
      them moves. */
  method Tangent(g: Graph, e: nat, wrt: nat, memo: map<nat, nat>, zero: nat) returns (r: nat)
    requires g.Valid() && e < |g.nodes| && ReadyFor(g.nodes, g.nodes[e], memo, wrt)
    requires zero < |g.nodes| && g.nodes[zero] == Const(0.0)
    modifies g
    ensures g.Valid() && Grown(old(g.nodes), g.nodes) && Derives(g.nodes, r, e, wrt)
  {
    hide Worth, Derives, Equals, Ok;
    var n := g.nodes[e];
    if n == Sym(wrt) {
      r := Konst(g, 1.0);
      SymIs(g.nodes, e, wrt, r);
    } else if forall c :: c in Carrying(n) ==> memo[c] == zero {
      StillNode(g.nodes, e, memo, wrt, zero);
      r := zero;
    } else {
      r := Moving(g, e, wrt, memo, zero);
    }
  }

  method Moving(g: Graph, e: nat, ghost wrt: nat, memo: map<nat, nat>, zero: nat) returns (r: nat)
    requires g.Valid() && e < |g.nodes| && ReadyFor(g.nodes, g.nodes[e], memo, wrt)
    requires zero < |g.nodes| && g.nodes[zero] == Const(0.0) && Carrying(g.nodes[e]) != []
    modifies g
    ensures g.Valid() && Grown(old(g.nodes), g.nodes) && Derives(g.nodes, r, e, wrt)
  {
    hide Derives, DeriveAll, Look, Ok;
    var n := g.nodes[e];
    LookAll(g.nodes, n, memo, wrt, Carrying(n));
    var ds := Look(memo, Carrying(n));
    if n.Reduce? { r := Reduced(g, e, ds, zero, wrt); }
    else if n.Dot? { r := Dotted(g, e, ds, wrt); }
    else { r := Plain(g, e, ds, zero, wrt); }
  }

  method Plain(g: Graph, e: nat, ds: seq<nat>, zero: nat, ghost wrt: nat) returns (r: nat)
    requires g.Valid() && e < |g.nodes| && DeriveAll(g.nodes, ds, Carrying(g.nodes[e]), wrt) && ds != []
    requires !g.nodes[e].Reduce? && !g.nodes[e].Dot? && zero < |g.nodes| && g.nodes[zero] == Const(0.0)
    modifies g
    ensures g.Valid() && Grown(old(g.nodes), g.nodes) && Derives(g.nodes, r, e, wrt)
  {
    hide Derives, Ok;
    match g.nodes[e]
    case Add(_, _) => r := Sum2(g, e, ds, wrt);
    case Mul(_, _) => r := Product2(g, e, ds, wrt);
    case Neg(_) => r := Negated(g, e, ds[0], wrt);
    case Pow(_, _) => r := Power(g, e, ds[0], wrt);
    case Un(_, _) => r := Unary(g, e, ds[0], wrt);
    case Bin(_, _, _) => r := Binary(g, e, ds, zero, wrt);
    case Select(_, _, _) => r := Selected(g, e, ds, wrt);
  }

  method Reduced(g: Graph, e: nat, ds: seq<nat>, zero: nat, ghost wrt: nat) returns (r: nat)
    requires g.Valid() && e < |g.nodes| && DeriveAll(g.nodes, ds, Carrying(g.nodes[e]), wrt)
    requires g.nodes[e].Reduce? && zero < |g.nodes| && g.nodes[zero] == Const(0.0)
    modifies g
    ensures g.Valid() && Grown(old(g.nodes), g.nodes) && Derives(g.nodes, r, e, wrt)
  {
    hide Derives, DeriveAll;
    var op, args := g.nodes[e].rop, g.nodes[e].args;
    assert NodeOk(g.nodes[e], e) && Carrying(g.nodes[e]) == args;
    hide Ok;
    match op
    case Sum => r := SumTangent(g, e, args, ds, wrt);
    case Product => r := ProductTangent(g, e, args, ds, zero, wrt);
    case _ => r := ExtremumTangent(g, e, op, args, ds, wrt);
  }

  method Dotted(g: Graph, e: nat, ds: seq<nat>, ghost wrt: nat) returns (r: nat)
    requires g.Valid() && e < |g.nodes| && DeriveAll(g.nodes, ds, Carrying(g.nodes[e]), wrt) && g.nodes[e].Dot?
    modifies g
    ensures g.Valid() && Grown(old(g.nodes), g.nodes) && Derives(g.nodes, r, e, wrt)
  {
    hide Derives;
    var xs, ys := g.nodes[e].xs, g.nodes[e].ys;
    assert NodeOk(g.nodes[e], e) && Carrying(g.nodes[e]) == xs + ys;
    hide Ok;
    DeriveSplit(g.nodes, ds, xs, ys, wrt);
    r := DotTangent(g, e, xs, ys, ds[..|xs|], ds[|xs|..], wrt);
  }

  lemma DeriveSplit(h: seq<Node>, ds: seq<nat>, xs: seq<nat>, ys: seq<nat>, j: nat)
    requires Ok(h) && DeriveAll(h, ds, xs + ys, j)
    ensures DeriveAll(h, ds[..|xs|], xs, j) && DeriveAll(h, ds[|xs|..], ys, j)
  {
    hide Derives, Ok;
    forall i | 0 <= i < |xs| ensures Derives(h, ds[..|xs|][i], xs[i], j) { assert Derives(h, ds[i], (xs + ys)[i], j); }
    forall i | 0 <= i < |ys| ensures Derives(h, ds[|xs|..][i], ys[i], j) {
      assert Derives(h, ds[|xs| + i], (xs + ys)[|xs| + i], j);
    }
    assert forall o :: o in xs || o in ys ==> o in xs + ys;
    assert forall d :: d in ds[..|xs|] || d in ds[|xs|..] ==> d in ds;
  }

  method SumTangent(g: Graph, e: nat, args: seq<nat>, ds: seq<nat>, ghost wrt: nat) returns (r: nat)
    requires g.Valid() && e < |g.nodes| && g.nodes[e] == Reduce(Sum, args) && DeriveAll(g.nodes, ds, args, wrt)
    modifies g
    ensures g.Valid() && Grown(old(g.nodes), g.nodes) && Derives(g.nodes, r, e, wrt)
  {
    hide Worth, Derives, Ok, DeriveAll;
    ghost var was := g.nodes;
    DeriveAllBelow(was, ds, args, wrt);
    r := g.Build(Reduce(Sum, ds));
    DeriveAllGrown(was, g.nodes, ds, args, wrt);
    SumRule(g.nodes, e, args, wrt, ds, r);
  }

  method Negated(g: Graph, e: nat, da: nat, ghost wrt: nat) returns (r: nat)
    requires g.Valid() && e < |g.nodes| && g.nodes[e].Neg? && Derives(g.nodes, da, g.nodes[e].a, wrt)
    modifies g
    ensures g.Valid() && Grown(old(g.nodes), g.nodes) && Derives(g.nodes, r, e, wrt)
  {
    hide Worth, Derives, Ok;
    ghost var was := g.nodes;
    var a := g.nodes[e].a;
    DerivesAt(was, da, a, wrt);
    r := g.Build(Neg(da));
    DerivesGrown(was, g.nodes, da, a, wrt);
    NegRule(g.nodes, e, a, wrt, da, r);
  }

  method Unary(g: Graph, e: nat, da: nat, ghost wrt: nat) returns (r: nat)
    requires g.Valid() && e < |g.nodes| && g.nodes[e].Un? && Derives(g.nodes, da, g.nodes[e].a, wrt)
    modifies g
    ensures g.Valid() && Grown(old(g.nodes), g.nodes) && Derives(g.nodes, r, e, wrt)
  {
    hide Worth, Derives, Equals, Ok;
    ghost var was := g.nodes;
    var op, a := g.nodes[e].op, g.nodes[e].a;
    DerivesAt(was, da, a, wrt);
    var f := UnaryFactor(g, op, a);
    ghost var mid := g.nodes;
    WorthAt(mid, f, Un(Slope(op), a));
    r := g.Build(Mul(f, da));
    WorthGrown(mid, g.nodes, f, Un(Slope(op), a));
    DerivesGrown(was, g.nodes, da, a, wrt);
    UnRule(g.nodes, e, op, a, wrt, da, f, r);
  }

  /** Through both branches, the condition kept. */
  method Selected(g: Graph, e: nat, ds: seq<nat>, ghost wrt: nat) returns (r: nat)
    requires g.Valid() && e < |g.nodes| && g.nodes[e].Select? && |ds| == 2
    requires Derives(g.nodes, ds[0], g.nodes[e].t, wrt) && Derives(g.nodes, ds[1], g.nodes[e].e, wrt)
    modifies g
    ensures g.Valid() && Grown(old(g.nodes), g.nodes) && Derives(g.nodes, r, e, wrt)
  {
    hide Worth, Derives;
    ghost var was := g.nodes;
    var n := g.nodes[e];
    assert NodeOk(n, e) && n.c in Operands(n);
    hide Ok;
    DerivesAt(was, ds[0], n.t, wrt);
    DerivesAt(was, ds[1], n.e, wrt);
    r := g.Build(Select(n.c, ds[0], ds[1]));
    DerivesGrown(was, g.nodes, ds[0], n.t, wrt);
    DerivesGrown(was, g.nodes, ds[1], n.e, wrt);
    SelectRule(g.nodes, e, n.c, n.t, n.e, wrt, ds[0], ds[1], r);
  }

  method Sum2(g: Graph, e: nat, ds: seq<nat>, ghost wrt: nat) returns (r: nat)
    requires g.Valid() && e < |g.nodes| && g.nodes[e].Add? && |ds| == 2
    requires Derives(g.nodes, ds[0], g.nodes[e].a, wrt) && Derives(g.nodes, ds[1], g.nodes[e].b, wrt)
    modifies g
    ensures g.Valid() && Grown(old(g.nodes), g.nodes) && Derives(g.nodes, r, e, wrt)
  {
    hide Worth, Derives, Ok;
    ghost var was := g.nodes;
    var n := g.nodes[e];
    DerivesAt(was, ds[0], n.a, wrt);
    DerivesAt(was, ds[1], n.b, wrt);
    r := g.Build(Add(ds[0], ds[1]));
    DerivesGrown(was, g.nodes, ds[0], n.a, wrt);
    DerivesGrown(was, g.nodes, ds[1], n.b, wrt);
    AddRule(g.nodes, e, n.a, n.b, wrt, ds[0], ds[1], r);
  }

  /** Two products and their sum. */
  method TwoTerms(g: Graph, x: Node, y: Node) returns (t1: nat, t2: nat, r: nat)
    requires g.Valid() && NodeOk(x, |g.nodes|) && NodeOk(y, |g.nodes|)
    modifies g
    ensures g.Valid() && Grown(old(g.nodes), g.nodes)
    ensures Worth(g.nodes, t1, x) && Worth(g.nodes, t2, y) && Worth(g.nodes, r, Add(t1, t2))
  {
    hide Worth, Ok;
    t1 := g.Build(x);
    ghost var h1 := g.nodes;
    WorthAt(h1, t1, x);
    NodeGrown(y, h1);
    t2 := g.Build(y);
    ghost var h2 := g.nodes;
    WorthAt(h2, t2, y);
    r := g.Build(Add(t1, t2));
    WorthGrown(h1, g.nodes, t1, x);
    WorthGrown(h2, g.nodes, t2, y);
  }

  lemma NodeGrown(n: Node, h: seq<Node>)
    ensures forall k: nat :: NodeOk(n, k) && k <= |h| ==> NodeOk(n, |h|)
  {
  }

  /** `n * a^(n-1)`. */
  method PowSlopeOf(g: Graph, a: nat, n: int) returns (coeff: nat, q: nat, cp: nat)
    requires g.Valid() && a < |g.nodes|
    modifies g
    ensures g.Valid() && Grown(old(g.nodes), g.nodes) && coeff < |g.nodes| && g.nodes[coeff] == Const(n as real)
    ensures Worth(g.nodes, q, Pow(a, n - 1)) && Worth(g.nodes, cp, Mul(coeff, q))
  {
    hide Worth, Ok;
    coeff := g.Konst(n as real);
    q := g.Build(Pow(a, n - 1));
    ghost var h := g.nodes;
    WorthAt(h, q, Pow(a, n - 1));
    cp := g.Build(Mul(coeff, q));
    WorthGrown(h, g.nodes, q, Pow(a, n - 1));
  }

  /** A product's derivative, terms with a zero factor left out. */
  method Product2(g: Graph, e: nat, ds: seq<nat>, ghost wrt: nat) returns (r: nat)
    requires g.Valid() && e < |g.nodes| && g.nodes[e].Mul? && |ds| == 2
    requires Derives(g.nodes, ds[0], g.nodes[e].a, wrt) && Derives(g.nodes, ds[1], g.nodes[e].b, wrt)
    modifies g
    ensures g.Valid() && Grown(old(g.nodes), g.nodes) && Derives(g.nodes, r, e, wrt)
  {
    hide Worth, Derives, Ok;
    ghost var was := g.nodes;
    var n := g.nodes[e];
    DerivesAt(was, ds[0], n.a, wrt);
    DerivesAt(was, ds[1], n.b, wrt);
    var t1, t2;
    t1, t2, r := TwoTerms(g, Mul(ds[0], n.b), Mul(n.a, ds[1]));
    DerivesGrown(was, g.nodes, ds[0], n.a, wrt);
    DerivesGrown(was, g.nodes, ds[1], n.b, wrt);
    MulRule(g.nodes, e, n.a, n.b, wrt, ds[0], ds[1], t1, t2, r);
  }

  /** A power's derivative, the exponent reduced by one. */
  method Power(g: Graph, e: nat, da: nat, ghost wrt: nat) returns (r: nat)
    requires g.Valid() && e < |g.nodes| && g.nodes[e].Pow? && Derives(g.nodes, da, g.nodes[e].a, wrt)
    modifies g
    ensures g.Valid() && Grown(old(g.nodes), g.nodes) && Derives(g.nodes, r, e, wrt)
  {
    hide Worth, Derives, Ok;
    ghost var was := g.nodes;
    var n := g.nodes[e];
    DerivesAt(was, da, n.a, wrt);
    var coeff, q, cp := PowSlopeOf(g, n.a, n.n);
    ghost var mid := g.nodes;
    WorthAt(mid, cp, Mul(coeff, q));
    r := g.Build(Mul(cp, da));
    WorthGrown(mid, g.nodes, q, Pow(n.a, n.n - 1));
    WorthGrown(mid, g.nodes, cp, Mul(coeff, q));
    DerivesGrown(was, g.nodes, da, n.a, wrt);
    PowRule(g.nodes, e, n.a, n.n, wrt, da, coeff, q, cp, r);
  }

  method Binary(g: Graph, e: nat, ds: seq<nat>, zero: nat, ghost wrt: nat) returns (r: nat)
    requires g.Valid() && e < |g.nodes| && g.nodes[e].Bin? && |ds| == 2
    requires Derives(g.nodes, ds[0], g.nodes[e].a, wrt) && Derives(g.nodes, ds[1], g.nodes[e].b, wrt)
    requires zero < |g.nodes| && g.nodes[zero] == Const(0.0)
    modifies g
    ensures g.Valid() && Grown(old(g.nodes), g.nodes) && Derives(g.nodes, r, e, wrt)
  {
    hide Worth, Derives, Equals, Ok;
    ghost var was := g.nodes;
    var n := g.nodes[e];
    DerivesAt(was, ds[0], n.a, wrt);
    DerivesAt(was, ds[1], n.b, wrt);
    var pa, pb := BinaryPartials(g, n.bop, n.a, n.b, ds[0] != zero, ds[1] != zero);
    ghost var mid := g.nodes;
    var t1, t2;
    t1, t2, r := TwoTerms(g, Mul(pa, ds[0]), Mul(pb, ds[1]));
    if ds[0] != zero { WorthGrown(mid, g.nodes, pa, Bin(Partial(n.bop, false), n.a, n.b)); }
    if ds[1] != zero { WorthGrown(mid, g.nodes, pb, Bin(Partial(n.bop, true), n.a, n.b)); }
    DerivesGrown(was, g.nodes, ds[0], n.a, wrt);
    DerivesGrown(was, g.nodes, ds[1], n.b, wrt);
    BinRule(g.nodes, e, n.bop, n.a, n.b, wrt, ds[0], ds[1], pa, pb, t1, t2, r);
  }

  // --- the sweep ------------------------------------------------------------------------------------

  /** The pops a node takes, its shared operands counted each time: what a sweep's stack
      can still hold. */
  function Work(g: seq<Node>, e: nat): nat
    requires Ok(g) && e < |g|
    decreases e, 1
  {
    assert NodeOk(g[e], e);
    2 + WorkAll(g, Carrying(g[e]), e)
  }

  function WorkAll(g: seq<Node>, os: seq<nat>, e: nat): nat
    requires Ok(g) && e <= |g| && Below(os, e)
    decreases e, 0, os
  {
    if os == [] then 0
    else
      assert os[0] in os && forall o :: o in os[1..] ==> o in os;
      Work(g, os[0]) + WorkAll(g, os[1..], e)
  }

  function StackWork(g: seq<Node>, stack: seq<(nat, bool)>): nat
    requires Ok(g) && forall i :: 0 <= i < |stack| ==> stack[i].0 < |g|
  {
    if stack == [] then 0
    else
      var top := stack[|stack| - 1];
      StackWork(g, stack[..|stack| - 1]) + (if top.1 then 1 else Work(g, top.0))
  }

  /** An entry for node `c` is on the stack above position `from`. */
  ghost predicate Has(stack: seq<(nat, bool)>, from: nat, c: nat) {
    exists k :: from <= k < |stack| && stack[k].0 == c
  }

  /** What a node waits for is done, or above it. */
  ghost predicate Waits(g: seq<Node>, stack: seq<(nat, bool)>, memo: map<nat, nat>) {
    forall i :: 0 <= i < |stack| ==>
      stack[i].0 < |g|
          && (stack[i].1 ==> forall c :: c in Carrying(g[stack[i].0]) ==> c in memo || Has(stack, i + 1, c))
  }

  ghost predicate Covers(roots: seq<nat>, stack: seq<(nat, bool)>, memo: map<nat, nat>) {
    forall r :: r in roots ==> r in memo || Has(stack, 0, r)
  }

  lemma HasPop(stack: seq<(nat, bool)>, from: nat, c: nat)
    requires stack != [] && Has(stack, from, c) && c != stack[|stack| - 1].0
    ensures Has(stack[..|stack| - 1], from, c)
  {
    var k :| from <= k < |stack| && stack[k].0 == c;
    assert stack[..|stack| - 1][k].0 == c;
  }

  lemma HasPush(stack: seq<(nat, bool)>, more: seq<(nat, bool)>, from: nat, c: nat)
    requires Has(stack, from, c)
    ensures Has(stack + more, from, c)
  {
    var k :| from <= k < |stack| && stack[k].0 == c;
    assert (stack + more)[k].0 == c;
  }

  /** Popping a node that is done. */
  lemma PopDone(g: seq<Node>, roots: seq<nat>, stack: seq<(nat, bool)>, memo: map<nat, nat>, memo': map<nat, nat>)
    requires stack != [] && Waits(g, stack, memo) && Covers(roots, stack, memo)
    requires (forall c :: c in memo ==> c in memo') && stack[|stack| - 1].0 in memo'
    ensures Waits(g, stack[..|stack| - 1], memo') && Covers(roots, stack[..|stack| - 1], memo')
  {
    var rest := stack[..|stack| - 1];
    forall i, c | 0 <= i < |rest| && rest[i].1 && c in Carrying(g[rest[i].0])
      ensures c in memo' || Has(rest, i + 1, c) {
      assert rest[i] == stack[i];
      if c !in memo' { HasPop(stack, i + 1, c); }
    }
    forall r | r in roots ensures r in memo' || Has(rest, 0, r) {
      if r !in memo' { HasPop(stack, 0, r); }
    }
  }

  lemma StackWorkPop(g: seq<Node>, stack: seq<(nat, bool)>)
    requires Ok(g) && stack != [] && forall i :: 0 <= i < |stack| ==> stack[i].0 < |g|
    ensures StackWork(g, stack[..|stack| - 1]) < StackWork(g, stack)
  {
    hide Work;
    var top := stack[|stack| - 1];
    if !top.1 { assert Work(g, top.0) >= 2 by { WorkSome(g, top.0); } }
  }

  lemma WorkSome(g: seq<Node>, e: nat)
    requires Ok(g) && e < |g|
    ensures Work(g, e) >= 2
  {
  }

  lemma MemoGrown(g: seq<Node>, h: seq<Node>, memo: map<nat, nat>, j: nat)
    requires Ok(g) && Grown(g, h) && MemoOk(g, memo, j)
    ensures MemoOk(h, memo, j)
  {
    hide Derives;
    forall c | c in memo ensures Derives(h, memo[c], c, j) { DerivesGrown(g, h, memo[c], c, j); }
  }

  /** Node `c` does not depend on symbol `j`. */
  ghost predicate Unmoved(g: seq<Node>, c: nat, j: nat)
    requires Ok(g)
  {
    c < |g| && forall p: Point :: Tan(g, p, j, c) == 0.0
  }

  lemma UnmovedZero(g: seq<Node>, h: seq<Node>, c: nat, j: nat, zero: nat)
    requires Ok(g) && Grown(g, h) && Unmoved(g, c, j) && zero < |h| && h[zero] == Const(0.0)
    ensures Derives(h, zero, c, j)
  {
    hide Eval, Tan;
    forall p: Point ensures Eval(h, p, zero) == Tan(h, p, j, c) {
      TanGrown(g, h, p, j, c);
      ConstIs(h, p, zero);
    }
  }

  /** The operands of a node still to be differentiated, pushed; those that do not move,
      zero. */
  method PushOperands(g0: seq<Node>, os: seq<nat>, memo0: map<nat, nat>, moves: nat -> bool, zero: nat,
                      ghost h: seq<Node>, ghost j: nat)
    returns (more: seq<(nat, bool)>, memo: map<nat, nat>)
    requires Ok(g0) && Grown(g0, h) && Below(os, |g0|) && zero < |h| && h[zero] == Const(0.0) && MemoOk(h, memo0, j)
    requires forall c :: c in os && !moves(c) ==> Unmoved(g0, c, j)
    ensures MemoOk(h, memo, j) && forall c :: c in memo0 ==> c in memo
    ensures forall c :: c in os ==> c in memo || Has(more, 0, c)
    ensures forall i :: 0 <= i < |more| ==> !more[i].1 && more[i].0 < |g0|
    ensures StackWork(g0, more) <= WorkAll(g0, os, |g0|)
  {
    hide Derives, Unmoved, Ok, Work;
    more, memo := [], memo0;
    for i := |os| downto 0
      invariant MemoOk(h, memo, j) && forall c :: c in memo0 ==> c in memo
      invariant forall k :: i <= k < |os| ==> os[k] in memo || Has(more, 0, os[k])
      invariant forall k :: 0 <= k < |more| ==> !more[k].1 && more[k].0 < |g0|
      invariant Below(os[i..], |g0|) && StackWork(g0, more) <= WorkAll(g0, os[i..], |g0|)
    {
      var c := os[i];
      assert c in os;
      assert os[i..] == [c] + os[i + 1..];
      assert forall o :: o in os[i..] ==> o in os;
      if c !in memo {
        if moves(c) {
          forall k | i < k < |os| && Has(more, 0, os[k]) ensures Has(more + [(c, false)], 0, os[k]) {
            HasPush(more, [(c, false)], 0, os[k]);
          }
          assert (more + [(c, false)])[..|more|] == more;
          more := more + [(c, false)];
          assert more[|more| - 1].0 == c;
        } else {
          UnmovedZero(g0, h, c, j, zero);
          memo := memo[c := zero];
        }
      }
    }
    assert os[0..] == os;
    forall c | c in os ensures c in memo || Has(more, 0, c) {
      var k :| 0 <= k < |os| && os[k] == c;
    }
  }

  lemma {:induction false} WorkBound(g: seq<Node>, os: seq<nat>, a: nat, b: nat)
    requires Ok(g) && a <= |g| && b <= |g| && Below(os, a) && Below(os, b)
    ensures WorkAll(g, os, a) == WorkAll(g, os, b)
  {
    if os != [] {
      assert forall o :: o in os[1..] ==> o in os;
      WorkBound(g, os[1..], a, b);
    }
  }

  /** A node expanded: itself again, its operands above it. */
  lemma Expanded(g: seq<Node>, roots: seq<nat>, stack: seq<(nat, bool)>, memo: map<nat, nat>, e: nat,
                 more: seq<(nat, bool)>, memo': map<nat, nat>)
    requires Ok(g) && stack != [] && stack[|stack| - 1] == (e, false) && Waits(g, stack, memo)
             && Covers(roots, stack, memo)
    requires forall c :: c in memo ==> c in memo'
    requires forall c :: c in Carrying(g[e]) ==> c in memo' || Has(more, 0, c)
    requires forall i :: 0 <= i < |more| ==> !more[i].1 && more[i].0 < |g|
    requires Below(Carrying(g[e]), |g|) && StackWork(g, more) <= WorkAll(g, Carrying(g[e]), |g|)
    ensures var next := stack[..|stack| - 1] + [(e, true)] + more;
            && Waits(g, next, memo') && Covers(roots, next, memo')
            && StackWork(g, next) < StackWork(g, stack)
  {
    hide Has, Carrying, StackWork, WorkAll, Ok, Below;
    var n := |stack| - 1;
    var next := stack[..n] + [(e, true)] + more;
    forall i, c | 0 <= i < |next| && next[i].1 && c in Carrying(g[next[i].0])
      ensures c in memo' || Has(next, i + 1, c) {
      if i < n {
        assert next[i] == stack[i];
        if Has(stack, i + 1, c) { HasExpanded(stack, e, more, i + 1, c); }
      } else if c !in memo' {
        assert i == n && next[n] == (e, true);
        HasShift(stack[..n] + [(e, true)], more, c);
      }
    }
    forall r | r in roots ensures r in memo' || Has(next, 0, r) {
      if Has(stack, 0, r) { HasExpanded(stack, e, more, 0, r); }
    }
    ExpandedWork(g, stack, e, more);
  }

  lemma HasExpanded(stack: seq<(nat, bool)>, e: nat, more: seq<(nat, bool)>, from: nat, c: nat)
    requires stack != [] && stack[|stack| - 1].0 == e && Has(stack, from, c)
    ensures Has(stack[..|stack| - 1] + [(e, true)] + more, from, c)
  {
    var k :| from <= k < |stack| && stack[k].0 == c;
    assert (stack[..|stack| - 1] + [(e, true)] + more)[k].0 == c;
  }

  lemma HasShift(a: seq<(nat, bool)>, b: seq<(nat, bool)>, c: nat)
    requires Has(b, 0, c)
    ensures Has(a + b, |a|, c)
  {
    var k :| 0 <= k < |b| && b[k].0 == c;
    assert (a + b)[|a| + k].0 == c;
  }

  lemma {:induction false} ExpandedWork(g: seq<Node>, stack: seq<(nat, bool)>, e: nat, more: seq<(nat, bool)>)
    requires Ok(g) && stack != [] && stack[|stack| - 1] == (e, false)
             && forall i :: 0 <= i < |stack| ==> stack[i].0 < |g|
    requires forall i :: 0 <= i < |more| ==> more[i].0 < |g|
    requires Below(Carrying(g[e]), |g|) && StackWork(g, more) <= WorkAll(g, Carrying(g[e]), |g|)
    ensures StackWork(g, stack[..|stack| - 1] + [(e, true)] + more) < StackWork(g, stack)
  {
    hide Ok, Carrying, Work, WorkAll, StackWork;
    var n := |stack| - 1;
    var rest := stack[..n];
    WorkIs(g, e);
    assert stack == rest + [(e, false)];
    StackWorkTop(g, rest, e, false);
    StackWorkTop(g, rest, e, true);
    StackWorkJoin(g, rest + [(e, true)], more);
  }

  lemma StackWorkTop(g: seq<Node>, rest: seq<(nat, bool)>, e: nat, expanded: bool)
    requires Ok(g) && (forall i :: 0 <= i < |rest| ==> rest[i].0 < |g|) && e < |g|
    ensures forall i :: 0 <= i < |rest + [(e, expanded)]| ==> (rest + [(e, expanded)])[i].0 < |g|
    ensures StackWork(g, rest + [(e, expanded)]) == StackWork(g, rest) + if expanded then 1 else Work(g, e)
  {
    hide Ok, Work;
    var s := rest + [(e, expanded)];
    assert s[..|s| - 1] == rest;
  }

  lemma WorkIs(g: seq<Node>, e: nat)
    requires Ok(g) && e < |g|
    ensures Below(Carrying(g[e]), |g|) && Work(g, e) == 2 + WorkAll(g, Carrying(g[e]), |g|)
  {
    hide WorkAll;
    CarryingBelow(g, e);
    WorkBound(g, Carrying(g[e]), |g|, e);
  }

  lemma {:induction false} StackWorkJoin(g: seq<Node>, a: seq<(nat, bool)>, b: seq<(nat, bool)>)
    requires Ok(g) && (forall i :: 0 <= i < |a| ==> a[i].0 < |g|) && forall i :: 0 <= i < |b| ==> b[i].0 < |g|
    ensures StackWork(g, a + b) == StackWork(g, a) + StackWork(g, b)
    decreases |b|
  {
    hide Work;
    if b == [] {
      assert a + b == a;
    } else {
      assert (a + b)[..|a + b| - 1] == a + b[..|b| - 1];
      StackWorkJoin(g, a, b[..|b| - 1]);
    }
  }

  lemma NothingAbove(stack: seq<(nat, bool)>, c: nat)
    ensures !Has(stack, |stack|, c)
  {
  }

  /** The operand a node waits for is in the memo once nothing is above it. */
  lemma TopReady(g: seq<Node>, h: seq<Node>, stack: seq<(nat, bool)>, memo: map<nat, nat>, j: nat)
    requires Ok(g) && Grown(g, h) && stack != [] && stack[|stack| - 1].1 && Waits(g, stack, memo) && MemoOk(h, memo, j)
    ensures ReadyFor(h, h[stack[|stack| - 1].0], memo, j)
  {
    hide Derives;
    var e := stack[|stack| - 1].0;
    assert h[e] == g[e];
    forall c | c in Carrying(g[e]) ensures c in memo { NothingAbove(stack, c); }
  }

  lemma PrefixGrown(g: seq<Node>, n: nat)
    requires Ok(g) && Distinct(g) && n <= |g|
    ensures Ok(g[..n]) && Grown(g[..n], g)
  {
  }

  /** Derivatives of all the roots by one symbol. What the memo held stays, and what it gains is
      right for any later sweep by the same symbol; `moves` may refuse only operands that stand
      still among the first `limit` nodes. */
  method Forward(g: Graph, roots: seq<nat>, wrt: nat, memo0: map<nat, nat>, limit: nat, moves: nat -> bool)
    returns (ds: seq<nat>, memo: map<nat, nat>)
    requires g.Valid() && limit <= |g.nodes| && Below(roots, limit) && MemoOk(g.nodes, memo0, wrt)
    requires Ok(g.nodes[..limit]) && forall c: nat :: c < limit && !moves(c) ==> Unmoved(g.nodes[..limit], c, wrt)
    modifies g
    ensures g.Valid() && Grown(old(g.nodes), g.nodes) && MemoOk(g.nodes, memo, wrt)
    ensures |ds| == |roots| && forall i :: 0 <= i < |roots| ==> Derives(g.nodes, ds[i], roots[i], wrt)
  {
    hide Derives, Ok, Unmoved, Work, Waits, Covers, Has, Carrying;
    ghost var g0 := g.nodes;
    var start := g.nodes[..limit];
    PrefixGrown(g0, limit);
    var zero := g.Konst(0.0);
    MemoGrown(g0, g.nodes, memo0, wrt);
    memo := memo0;
    var stack := Roots(roots);
    RootsWait(start, roots, memo);
    while stack != []
      invariant g.Valid() && Grown(g0, g.nodes) && zero < |g.nodes| && g.nodes[zero] == Const(0.0)
      invariant Waits(start, stack, memo) && Covers(roots, stack, memo) && MemoOk(g.nodes, memo, wrt)
      invariant forall i :: 0 <= i < |stack| ==> stack[i].0 < |start|
      decreases StackWork(start, stack)
    {
      ghost var was := memo;
      var top := stack[|stack| - 1];
      var e := top.0;
      StackWorkPop(start, stack);
      if e in memo {
        PopDone(start, roots, stack, was, memo);
        stack := stack[..|stack| - 1];
      } else if top.1 {
        TopReady(start, g.nodes, stack, memo, wrt);
        ghost var h := g.nodes;
        var d := Tangent(g, e, wrt, memo, zero);
        MemoGrown(h, g.nodes, memo, wrt);
        memo := memo[e := d];
        PopDone(start, roots, stack, was, memo);
        stack := stack[..|stack| - 1];
      } else {
        CarryingBelow(start, e);
        var more;
        more, memo := PushOperands(start, Carrying(start[e]), memo, moves, zero, g.nodes, wrt);
        Expanded(start, roots, stack, was, e, more, memo);
        stack := stack[..|stack| - 1] + [(e, true)] + more;
        EntriesBelow(start, stack, memo);
      }
    }
    RootsDone(roots, memo);
    ds := Look(memo, roots);
    forall i | 0 <= i < |roots| ensures Derives(g.nodes, ds[i], roots[i], wrt) { assert roots[i] in roots; }
  }

  function Roots(roots: seq<nat>): (r: seq<(nat, bool)>)
    ensures |r| == |roots| && forall i :: 0 <= i < |r| ==> r[i] == (roots[|roots| - 1 - i], false)
  {
    seq(|roots|, i requires 0 <= i < |roots| => (roots[|roots| - 1 - i], false))
  }

  lemma RootsWait(g: seq<Node>, roots: seq<nat>, memo: map<nat, nat>)
    requires Below(roots, |g|)
    ensures Waits(g, Roots(roots), memo) && Covers(roots, Roots(roots), memo)
    ensures forall i :: 0 <= i < |roots| ==> Roots(roots)[i].0 < |g|
  {
    forall r | r in roots ensures Has(Roots(roots), 0, r) {
      var i :| 0 <= i < |roots| && roots[i] == r;
      assert Roots(roots)[|roots| - 1 - i].0 == r;
    }
    forall i | 0 <= i < |roots| ensures Roots(roots)[i].0 < |g| { assert roots[|roots| - 1 - i] in roots; }
  }

  lemma RootsDone(roots: seq<nat>, memo: map<nat, nat>)
    requires Covers(roots, [], memo)
    ensures forall r :: r in roots ==> r in memo
  {
    forall r | r in roots ensures r in memo { assert !Has([], 0, r); }
  }

  lemma CarryingBelow(g: seq<Node>, e: nat)
    requires Ok(g) && e < |g|
    ensures Below(Carrying(g[e]), |g|) && Below(Carrying(g[e]), e)
  {
    assert NodeOk(g[e], e);
  }

  lemma EntriesBelow(g: seq<Node>, stack: seq<(nat, bool)>, memo: map<nat, nat>)
    requires Waits(g, stack, memo)
    ensures forall i :: 0 <= i < |stack| ==> stack[i].0 < |g|
  {
  }

  /** The derivative of `expr` by the symbol `wrt`. */
  method Differentiate(g: Graph, expr: nat, wrt: nat) returns (d: nat)
    requires g.Valid() && expr < |g.nodes|
    modifies g
    ensures g.Valid() && Grown(old(g.nodes), g.nodes) && Derives(g.nodes, d, expr, wrt)
  {
    hide Derives;
    PrefixGrown(g.nodes, |g.nodes|);
    var ds, memo := Forward(g, [expr], wrt, map[], |g.nodes|, _ => true);
    d := ds[0];
  }
}
