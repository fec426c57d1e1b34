/** The local derivative rules both sweeps build from, and what they are worth. */
module Rules {
  import opened Basics
  import opened Graphs
  import opened Tangents

  /** Expression `r` has the value `F`, at every point. */
  ghost predicate Equals(g: seq<Node>, r: nat, F: Point -> real)
    requires Ok(g)
  {
    r < |g| && forall p: Point :: Eval(g, p, r) == F(p)
  }

  lemma {:induction false} EqualsGrown(g: seq<Node>, h: seq<Node>, r: nat, F: Point -> real)
    requires Ok(g) && Grown(g, h) && Equals(g, r, F)
    ensures Equals(h, r, F)
  {
    hide Eval;
    forall p: Point ensures Eval(h, p, r) == F(p) { EvalGrown(g, h, p, r); }
  }

  /** A smart constructor; what earlier nodes are worth and derive stays. */
  method Make(g: Graph, n: Node) returns (r: nat)
    requires g.Valid() && NodeOk(n, |g.nodes|)
    modifies g
    ensures g.Valid() && Grown(old(g.nodes), g.nodes) && Worth(g.nodes, r, n)
    ensures forall q, k :: Worth(old(g.nodes), q, k) ==> Worth(g.nodes, q, k)
    ensures forall d, e, j :: Derives(old(g.nodes), d, e, j) ==> Derives(g.nodes, d, e, j)
    ensures forall q, F :: Equals(old(g.nodes), q, F) ==> Equals(g.nodes, q, F)
  {
    ghost var was := g.nodes;
    r := g.Build(n);
    GrownAll(was, g.nodes);
  }

  lemma GrownAll(g: seq<Node>, h: seq<Node>)
    requires Ok(g) && Grown(g, h)
    ensures forall q, k :: Worth(g, q, k) ==> Worth(h, q, k)
    ensures forall d, e, j :: Derives(g, d, e, j) ==> Derives(h, d, e, j)
    ensures forall q, F :: Equals(g, q, F) ==> Equals(h, q, F)
  {
    hide Worth, Derives, Equals;
    forall q, F | Equals(g, q, F) ensures Equals(h, q, F) { EqualsGrown(g, h, q, F); }
    forall q, k | Worth(g, q, k) ensures Worth(h, q, k) { WorthGrown(g, h, q, k); }
    forall d, e, j | Derives(g, d, e, j) ensures Derives(h, d, e, j) { DerivesGrown(g, h, d, e, j); }
  }

  /** The node of a constant, and the zero every sweep prunes by. */
  method Konst(g: Graph, v: real) returns (r: nat)
    requires g.Valid()
    modifies g
    ensures g.Valid() && Grown(old(g.nodes), g.nodes) && r < |g.nodes| && g.nodes[r] == Const(v)
    ensures forall q, k :: Worth(old(g.nodes), q, k) ==> Worth(g.nodes, q, k)
    ensures forall d, e, j :: Derives(old(g.nodes), d, e, j) ==> Derives(g.nodes, d, e, j)
    ensures forall q, F :: Equals(old(g.nodes), q, F) ==> Equals(g.nodes, q, F)
  {
    ghost var was := g.nodes;
    r := g.Konst(v);
    GrownAll(was, g.nodes);
  }

  // --- worth, read off ---------------------------------------------------------------------------

  lemma Worth1(h: seq<Node>, r: nat, n: Node, a: nat, p: Point)
    requires Ok(h) && Worth(h, r, n) && Operands(n) == [a]
    ensures a < |h| && Eval(h, p, r) == ValueOf(p, n, [Eval(h, p, a)])
  {
    hide ValueOf, Eval;
    assert a in Operands(n);
    assert Evals(h, p, [a]) == [Eval(h, p, a)];
  }

  lemma Worth2(h: seq<Node>, r: nat, n: Node, a: nat, b: nat, p: Point)
    requires Ok(h) && Worth(h, r, n) && Operands(n) == [a, b]
    ensures a < |h| && b < |h| && Eval(h, p, r) == ValueOf(p, n, [Eval(h, p, a), Eval(h, p, b)])
  {
    hide ValueOf, Eval;
    assert a in Operands(n) && b in Operands(n);
    assert Evals(h, p, [a, b]) == [Eval(h, p, a), Eval(h, p, b)];
  }

  lemma Worth3(h: seq<Node>, r: nat, n: Node, a: nat, b: nat, c: nat, p: Point)
    requires Ok(h) && Worth(h, r, n) && Operands(n) == [a, b, c]
    ensures a < |h| && b < |h| && c < |h|
    ensures Eval(h, p, r) == ValueOf(p, n, [Eval(h, p, a), Eval(h, p, b), Eval(h, p, c)])
  {
    hide ValueOf, Eval;
    assert a in Operands(n) && b in Operands(n) && c in Operands(n);
    Evals3(h, p, a, b, c);
  }

  lemma Evals3(h: seq<Node>, p: Point, a: nat, b: nat, c: nat)
    requires Ok(h) && a < |h| && b < |h| && c < |h|
    ensures Below([a, b, c], |h|) && Evals(h, p, [a, b, c]) == [Eval(h, p, a), Eval(h, p, b), Eval(h, p, c)]
  {
    hide Eval, Ok;
    var os := [a, b, c];
    assert os[0] == a && os[1] == b && os[2] == c;
  }

  lemma Tans3(h: seq<Node>, p: Point, j: nat, a: nat, b: nat, c: nat)
    requires Ok(h) && a < |h| && b < |h| && c < |h|
    ensures Below([a, b, c], |h|) && Tans(h, p, j, [a, b, c]) == [Tan(h, p, j, a), Tan(h, p, j, b), Tan(h, p, j, c)]
  {
    hide Tan, Ok;
    var os := [a, b, c];
    assert os[0] == a && os[1] == b && os[2] == c;
  }

  lemma AddValue(h: seq<Node>, r: nat, a: nat, b: nat, p: Point)
    requires Ok(h) && Worth(h, r, Add(a, b))
    ensures r < |h| && a < |h| && b < |h| && Eval(h, p, r) == Eval(h, p, a) + Eval(h, p, b)
  {
    hide Eval, Ok, ValueOf;
    WorthAt(h, r, Add(a, b));
    Worth2(h, r, Add(a, b), a, b, p);
    ValueAdd(p, a, b, Eval(h, p, a), Eval(h, p, b));
  }

  lemma ValueAdd(p: Point, a: nat, b: nat, x: real, y: real)
    ensures ValueOf(p, Add(a, b), [x, y]) == x + y
  {
  }

  lemma MulValue(h: seq<Node>, r: nat, a: nat, b: nat, p: Point)
    requires Ok(h) && Worth(h, r, Mul(a, b))
    ensures r < |h| && a < |h| && b < |h| && Eval(h, p, r) == Eval(h, p, a) * Eval(h, p, b)
  {
    hide *;
    MulOperands(a, b);
    WorthAt(h, r, Mul(a, b));
    Worth2(h, r, Mul(a, b), a, b, p);
    ValueMul(p, a, b, Eval(h, p, a), Eval(h, p, b));
  }

  lemma MulOperands(a: nat, b: nat)
    ensures Operands(Mul(a, b)) == [a, b]
  {
  }

  lemma ValueMul(p: Point, a: nat, b: nat, x: real, y: real)
    ensures ValueOf(p, Mul(a, b), [x, y]) == x * y
  {
    var v := [x, y];
    assert v[0] == x && v[1] == y;
  }

  lemma BinValue(h: seq<Node>, r: nat, op: BinOp, a: nat, b: nat, p: Point)
    requires Ok(h) && Worth(h, r, Bin(op, a, b))
    ensures r < |h| && a < |h| && b < |h| && Eval(h, p, r) == p.bin(op, Eval(h, p, a), Eval(h, p, b))
  {
    hide Eval, Ok, ValueOf;
    WorthAt(h, r, Bin(op, a, b));
    Worth2(h, r, Bin(op, a, b), a, b, p);
    ValueBin(p, op, a, b, Eval(h, p, a), Eval(h, p, b));
  }

  lemma ValueBin(p: Point, op: BinOp, a: nat, b: nat, x: real, y: real)
    ensures ValueOf(p, Bin(op, a, b), [x, y]) == p.bin(op, x, y)
  {
  }

  lemma PowValue(h: seq<Node>, r: nat, a: nat, n: int, p: Point)
    requires Ok(h) && Worth(h, r, Pow(a, n))
    ensures r < |h| && a < |h| && Eval(h, p, r) == p.pow(Eval(h, p, a), n)
  {
    hide Eval, Ok, ValueOf;
    WorthAt(h, r, Pow(a, n));
    Worth1(h, r, Pow(a, n), a, p);
    ValuePow(p, a, n, Eval(h, p, a));
  }

  lemma ValuePow(p: Point, a: nat, n: int, x: real)
    ensures ValueOf(p, Pow(a, n), [x]) == p.pow(x, n)
  {
  }

  lemma {:induction false} SumValue(h: seq<Node>, r: nat, terms: seq<nat>, p: Point)
    requires Ok(h) && Worth(h, r, Reduce(Sum, terms))
    ensures Below(terms, |h|) && r < |h| && Eval(h, p, r) == SumOf(Evals(h, p, terms))
  {
    hide Eval, Ok, SumOf;
    WorthAt(h, r, Reduce(Sum, terms));
  }

  lemma {:induction false} Tan1(h: seq<Node>, e: nat, a: nat, p: Point, j: nat)
    requires Ok(h) && e < |h| && Operands(h[e]) == [a]
    ensures a < |h| && NodeOk(h[e], e) && Tan(h, p, j, e) == Rule(p, j, h[e], [Eval(h, p, a)], [Tan(h, p, j, a)])
  {
    hide Rule, Eval, Tan;
    assert NodeOk(h[e], e) && a in Operands(h[e]);
    TanIs(h, p, j, e);
    assert Evals(h, p, [a]) == [Eval(h, p, a)] && Tans(h, p, j, [a]) == [Tan(h, p, j, a)];
  }

  lemma Tan2(h: seq<Node>, e: nat, a: nat, b: nat, p: Point, j: nat)
    requires Ok(h) && e < |h| && Operands(h[e]) == [a, b]
    ensures a < |h| && b < |h| && NodeOk(h[e], e)
    ensures Tan(h, p, j, e) == Rule(p, j, h[e], [Eval(h, p, a), Eval(h, p, b)], [Tan(h, p, j, a), Tan(h, p, j, b)])
  {
    hide Rule, Eval, Tan;
    assert NodeOk(h[e], e) && a in Operands(h[e]) && b in Operands(h[e]);
    TanIs(h, p, j, e);
    assert Evals(h, p, [a, b]) == [Eval(h, p, a), Eval(h, p, b)];
    assert Tans(h, p, j, [a, b]) == [Tan(h, p, j, a), Tan(h, p, j, b)];
  }

  lemma Tan3(h: seq<Node>, e: nat, a: nat, b: nat, c: nat, p: Point, j: nat)
    requires Ok(h) && e < |h| && Operands(h[e]) == [a, b, c]
    ensures a < |h| && b < |h| && c < |h| && NodeOk(h[e], e)
    ensures Tan(h, p, j, e) == Rule(p, j, h[e], [Eval(h, p, a), Eval(h, p, b), Eval(h, p, c)],
                                    [Tan(h, p, j, a), Tan(h, p, j, b), Tan(h, p, j, c)])
  {
    hide Rule, Eval, Tan;
    assert NodeOk(h[e], e) && a in Operands(h[e]) && b in Operands(h[e]) && c in Operands(h[e]);
    TanIs(h, p, j, e);
    hide Ok;
    Evals3(h, p, a, b, c);
    Tans3(h, p, j, a, b, c);
  }

  lemma TanList(h: seq<Node>, e: nat, p: Point, j: nat)
    requires Ok(h) && e < |h|
    ensures NodeOk(h[e], e) && Below(Operands(h[e]), |h|)
    ensures Tan(h, p, j, e) == Rule(p, j, h[e], Evals(h, p, Operands(h[e])), Tans(h, p, j, Operands(h[e])))
  {
    hide Rule, Eval, Tan;
    assert NodeOk(h[e], e);
    TanIs(h, p, j, e);
  }

  // --- slopes --------------------------------------------------------------------------------------

  /** The slope of a unary function at its argument. */
  method UnaryFactor(g: Graph, op: UnOp, a: nat) returns (r: nat)
    requires g.Valid() && a < |g.nodes|
    modifies g
    ensures g.Valid() && Grown(old(g.nodes), g.nodes) && Worth(g.nodes, r, Un(Slope(op), a))
    ensures forall q, k :: Worth(old(g.nodes), q, k) ==> Worth(g.nodes, q, k)
    ensures forall d, e, j :: Derives(old(g.nodes), d, e, j) ==> Derives(g.nodes, d, e, j)
    ensures forall q, F :: Equals(old(g.nodes), q, F) ==> Equals(g.nodes, q, F)
  {
    r := Make(g, Un(Slope(op), a));
  }

  /** The two slopes of a binary function, as expressions; an unwanted one is left zero. */
  method BinaryPartials(g: Graph, op: BinOp, a: nat, b: nat, wantA: bool, wantB: bool) returns (pa: nat, pb: nat)
    requires g.Valid() && a < |g.nodes| && b < |g.nodes|
    modifies g
    ensures g.Valid() && Grown(old(g.nodes), g.nodes) && pa < |g.nodes| && pb < |g.nodes|
    ensures wantA ==> Worth(g.nodes, pa, Bin(Partial(op, false), a, b))
    ensures wantB ==> Worth(g.nodes, pb, Bin(Partial(op, true), a, b))
  {
    hide Worth, Ok, Eval;
    pa := g.Konst(0.0);
    pb := pa;
    if wantA { pa := g.Build(Bin(Partial(op, false), a, b)); WorthAt(g.nodes, pa, Bin(Partial(op, false), a, b)); }
    ghost var mid := g.nodes;
    if wantB { pb := g.Build(Bin(Partial(op, true), a, b)); WorthAt(g.nodes, pb, Bin(Partial(op, true), a, b)); }
    if wantA { WorthGrown(mid, g.nodes, pa, Bin(Partial(op, false), a, b)); }
  }

  lemma WorthAt(h: seq<Node>, r: nat, n: Node)
    requires Ok(h) && Worth(h, r, n)
    ensures r < |h| && NodeOk(n, |h|)
  {
  }

  // --- cofactors ----------------------------------------------------------------------------------

  /** The product of the terms from `i` on, last one first. */
  function Suffix(xs: seq<real>, i: nat): real
    requires i <= |xs|
    decreases |xs| - i
  {
    if i == |xs| then 1.0 else Suffix(xs, i + 1) * xs[i]
  }

  /** The product of all terms but the `i`th. */
  function Others(xs: seq<real>, i: nat): real
    requires i < |xs|
  {
    ProductOf(xs[..i]) * Suffix(xs, i + 1)
  }

  /** `d * Others` summed over the first `n` terms. */
  function CoSum(xs: seq<real>, ds: seq<real>, n: nat): real
    requires n <= |xs| == |ds|
  {
    if n == 0 then 0.0 else CoSum(xs, ds, n - 1) + ds[n - 1] * Others(xs, n - 1)
  }

  lemma {:induction false} SuffixMore(xs: seq<real>, x: real, i: nat)
    requires i <= |xs|
    ensures Suffix(xs + [x], i) == Suffix(xs, i) * x
    decreases |xs| - i
  {
    if i == |xs| {
      assert Suffix(xs + [x], i + 1) == 1.0;
    } else {
      SuffixMore(xs, x, i + 1);
      assert (xs + [x])[i] == xs[i];
      Swap(Suffix(xs, i + 1), x, xs[i]);
    }
  }

  lemma Swap(a: real, b: real, c: real)
    ensures a * b * c == a * c * b
  {
  }

  lemma OthersMore(xs: seq<real>, x: real, i: nat)
    requires i < |xs|
    ensures Others(xs + [x], i) == Others(xs, i) * x
  {
    assert (xs + [x])[..i] == xs[..i];
    SuffixMore(xs, x, i + 1);
    var a, b := ProductOf(xs[..i]), Suffix(xs, i + 1);
    assert a * (b * x) == a * b * x;
  }

  lemma {:induction false} CoSumMore(xs: seq<real>, ds: seq<real>, x: real, d: real, n: nat)
    requires n <= |xs| == |ds|
    ensures CoSum(xs + [x], ds + [d], n) == CoSum(xs, ds, n) * x
  {
    hide Others;
    if n > 0 {
      CoSumMore(xs, ds, x, d, n - 1);
      OthersMore(xs, x, n - 1);
      assert (ds + [d])[n - 1] == ds[n - 1];
      Spread(CoSum(xs, ds, n - 1), ds[n - 1], Others(xs, n - 1), x);
    }
  }

  lemma Spread(s: real, d: real, o: real, x: real)
    ensures s * x + d * (o * x) == (s + d * o) * x
  {
  }

  /** The product rule as cofactors: linear in the factors. */
  lemma {:induction false} CofactorRule(xs: seq<real>, ds: seq<real>)
    requires |xs| == |ds|
    ensures ProductTan(xs, ds) == CoSum(xs, ds, |xs|)
    decreases |xs|
  {
    if xs != [] {
      var n := |xs| - 1;
      var x, d := xs[n], ds[n];
      CofactorRule(xs[..n], ds[..n]);
      assert xs == xs[..n] + [x] && ds == ds[..n] + [d];
      CoSumMore(xs[..n], ds[..n], x, d, n);
      assert Suffix(xs, n + 1) == 1.0;
    }
  }

  /** Expression `r` is the product of all of `args` but the `i`th, everywhere. */
  ghost predicate Cofactor(h: seq<Node>, args: seq<nat>, i: nat, r: nat)
    requires Ok(h)
  {
    r < |h| && Below(args, |h|) && i < |args| && forall p: Point :: Eval(h, p, r) == Others(Evals(h, p, args), i)
  }

  ghost predicate Prefixed(h: seq<Node>, args: seq<nat>, i: nat, r: nat)
    requires Ok(h)
  {
    r < |h| && Below(args, |h|) && i <= |args| && forall p: Point :: Eval(h, p, r) == ProductOf(Evals(h, p, args)[..i])
  }

  ghost predicate Suffixed(h: seq<Node>, args: seq<nat>, i: nat, r: nat)
    requires Ok(h)
  {
    r < |h| && Below(args, |h|) && i <= |args| && forall p: Point :: Eval(h, p, r) == Suffix(Evals(h, p, args), i)
  }

  lemma FactorsGrown(g: seq<Node>, h: seq<Node>, args: seq<nat>)
    requires Ok(g) && Grown(g, h)
    ensures forall i, r :: Cofactor(g, args, i, r) ==> Cofactor(h, args, i, r)
    ensures forall i, r :: Prefixed(g, args, i, r) ==> Prefixed(h, args, i, r)
    ensures forall i, r :: Suffixed(g, args, i, r) ==> Suffixed(h, args, i, r)
  {
    hide Eval;
    forall r: nat, p: Point | r < |g| && Below(args, |g|)
      ensures Eval(h, p, r) == Eval(g, p, r) && Evals(h, p, args) == Evals(g, p, args)
    {
      EvalGrown(g, h, p, r);
      EvalsGrown(g, h, p, args);
    }
  }

  lemma PrefixNext(h: seq<Node>, args: seq<nat>, i: nat, acc: nat, r: nat)
    requires Ok(h) && Prefixed(h, args, i, acc) && i < |args| && Worth(h, r, Mul(acc, args[i]))
    ensures Prefixed(h, args, i + 1, r)
  {
    hide Eval;
    forall p: Point ensures Eval(h, p, r) == ProductOf(Evals(h, p, args)[..i + 1]) {
      MulValue(h, r, acc, args[i], p);
      var v := Evals(h, p, args);
      assert v[..i + 1][..i] == v[..i];
    }
  }

  lemma {:induction false} SuffixNext(h: seq<Node>, args: seq<nat>, i: nat, acc: nat, r: nat)
    requires Ok(h) && i < |args| && Suffixed(h, args, i + 1, acc) && Worth(h, r, Mul(acc, args[i]))
    ensures Suffixed(h, args, i, r)
  {
    hide Eval;
    forall p: Point ensures Eval(h, p, r) == Suffix(Evals(h, p, args), i) {
      MulValue(h, r, acc, args[i], p);
    }
  }

  lemma {:induction false} CofactorIs(h: seq<Node>, args: seq<nat>, i: nat, pre: nat, suf: nat, r: nat)
    requires Ok(h) && i < |args| && Prefixed(h, args, i, pre) && Suffixed(h, args, i + 1, suf)
             && Worth(h, r, Mul(pre, suf))
    ensures Cofactor(h, args, i, r)
  {
    hide Eval;
    forall p: Point ensures Eval(h, p, r) == Others(Evals(h, p, args), i) { MulValue(h, r, pre, suf, p); }
  }

  lemma OneFactor(h: seq<Node>, args: seq<nat>, one: nat)
    requires Ok(h) && Below(args, |h|) && one < |h| && h[one] == Const(1.0)
    ensures Prefixed(h, args, 0, one) && Suffixed(h, args, |args|, one)
  {
    hide Eval;
    forall p: Point ensures Eval(h, p, one) == 1.0 { ConstIs(h, p, one); }
    forall p: Point ensures ProductOf(Evals(h, p, args)[..0]) == 1.0 {}
  }

  /** The products of the factors before each. */
  method Prefixes(g: Graph, args: seq<nat>) returns (prefix: seq<nat>)
    requires g.Valid() && Below(args, |g.nodes|)
    modifies g
    ensures g.Valid() && Grown(old(g.nodes), g.nodes) && |prefix| == |args|
    ensures forall k :: 0 <= k < |args| ==> Prefixed(g.nodes, args, k, prefix[k])
  {
    hide Worth, Derives, Equals, Prefixed, Suffixed, Cofactor, Ok;
    ghost var was := g.nodes;
    var one := Konst(g, 1.0);
    BelowGrown(args, was, g.nodes);
    OneFactor(g.nodes, args, one);
    prefix := [];
    var acc: nat := one;
    for i := 0 to |args|
      invariant g.Valid() && Grown(was, g.nodes) && Below(args, |g.nodes|) && |prefix| == i
      invariant Prefixed(g.nodes, args, i, acc) && forall k :: 0 <= k < i ==> Prefixed(g.nodes, args, k, prefix[k])
    {
      ghost var h := g.nodes;
      prefix := prefix + [acc];
      PrefixedAt(h, args, i, acc);
      var next: nat := Make(g, Mul(acc, args[i]));
      FactorsGrown(h, g.nodes, args);
      BelowGrown(args, h, g.nodes);
      PrefixNext(g.nodes, args, i, acc, next);
      acc := next;
    }
  }

  /** Per factor, if wanted, an expression worth the product of the other factors at every point. */
  method Cofactors(g: Graph, args: seq<nat>, want: seq<bool>) returns (out: seq<Option<nat>>)
    requires g.Valid() && Below(args, |g.nodes|) && |want| == |args|
    modifies g
    ensures g.Valid() && Grown(old(g.nodes), g.nodes) && |out| == |args|
    ensures forall i :: 0 <= i < |args| ==>
            if want[i] then out[i].Some? && Cofactor(g.nodes, args, i, out[i].value) else out[i].None?
    ensures forall q, k :: Worth(old(g.nodes), q, k) ==> Worth(g.nodes, q, k)
    ensures forall d, e, j :: Derives(old(g.nodes), d, e, j) ==> Derives(g.nodes, d, e, j)
    ensures forall q, F :: Equals(old(g.nodes), q, F) ==> Equals(g.nodes, q, F)
  {
    hide Worth, Derives, Equals, Prefixed, Suffixed, Cofactor, Ok;
    ghost var was := g.nodes;
    var prefix := Prefixes(g, args);
    ghost var h := g.nodes;
    var one := Konst(g, 1.0);
    BelowGrown(args, was, g.nodes);
    FactorsGrown(h, g.nodes, args);
    OneFactor(g.nodes, args, one);
    out := seq(|args|, _ => None);
    var suffix: nat := one;
    for i := |args| downto 0
      invariant g.Valid() && Grown(was, g.nodes) && Below(args, |g.nodes|) && |out| == |args|
      invariant Suffixed(g.nodes, args, i, suffix)
                && forall k :: 0 <= k < |args| ==> Prefixed(g.nodes, args, k, prefix[k])
      invariant forall k :: 0 <= k < |args| ==>
                  if i <= k && want[k] then out[k].Some? && Cofactor(g.nodes, args, k, out[k].value) else out[k].None?
    {
      if want[i] {
        var r: nat := OneCofactor(g, args, i, prefix[i], suffix);
        out := out[i := Some(r)];
      }
      suffix := NextSuffix(g, args, i, suffix);
    }
    GrownAll(was, g.nodes);
  }

  method NextSuffix(g: Graph, args: seq<nat>, i: nat, suf: nat) returns (r: nat)
    requires g.Valid() && i < |args| && Suffixed(g.nodes, args, i + 1, suf)
    modifies g
    ensures g.Valid() && Grown(old(g.nodes), g.nodes) && Suffixed(g.nodes, args, i, r) && Below(args, |g.nodes|)
    ensures forall k, q :: Cofactor(old(g.nodes), args, k, q) ==> Cofactor(g.nodes, args, k, q)
    ensures forall k, q :: Prefixed(old(g.nodes), args, k, q) ==> Prefixed(g.nodes, args, k, q)
  {
    hide Worth, Derives, Equals, Prefixed, Suffixed, Cofactor, Ok;
    ghost var h := g.nodes;
    SuffixedAt(h, args, i + 1, suf);
    r := Make(g, Mul(suf, args[i]));
    FactorsGrown(h, g.nodes, args);
    BelowGrown(args, h, g.nodes);
    SuffixNext(g.nodes, args, i, suf, r);
  }

  method OneCofactor(g: Graph, args: seq<nat>, i: nat, pre: nat, suf: nat) returns (r: nat)
    requires g.Valid() && i < |args| && Prefixed(g.nodes, args, i, pre) && Suffixed(g.nodes, args, i + 1, suf)
    modifies g
    ensures g.Valid() && Grown(old(g.nodes), g.nodes) && Cofactor(g.nodes, args, i, r) && Below(args, |g.nodes|)
    ensures forall k, q :: Cofactor(old(g.nodes), args, k, q) ==> Cofactor(g.nodes, args, k, q)
    ensures forall k, q :: Prefixed(old(g.nodes), args, k, q) ==> Prefixed(g.nodes, args, k, q)
    ensures forall k, q :: Suffixed(old(g.nodes), args, k, q) ==> Suffixed(g.nodes, args, k, q)
  {
    hide Worth, Derives, Equals, Prefixed, Suffixed, Cofactor, Ok;
    ghost var h := g.nodes;
    PrefixedAt(h, args, i, pre);
    SuffixedAt(h, args, i + 1, suf);
    r := Make(g, Mul(pre, suf));
    FactorsGrown(h, g.nodes, args);
    BelowGrown(args, h, g.nodes);
    CofactorIs(g.nodes, args, i, pre, suf, r);
  }

  lemma BelowGrown(os: seq<nat>, g: seq<Node>, h: seq<Node>)
    requires Below(os, |g|) && Grown(g, h)
    ensures Below(os, |h|)
  {
  }

  lemma PrefixedAt(h: seq<Node>, args: seq<nat>, i: nat, r: nat)
    requires Ok(h) && Prefixed(h, args, i, r)
    ensures r < |h| && Below(args, |h|) && (i < |args| ==> args[i] < |h|)
  {
    if i < |args| { assert args[i] in args; }
  }

  lemma SuffixedAt(h: seq<Node>, args: seq<nat>, i: nat, r: nat)
    requires Ok(h) && Suffixed(h, args, i, r)
    ensures r < |h| && Below(args, |h|) && (0 < i <= |args| ==> args[i - 1] < |h|)
  {
    if 0 < i <= |args| { assert args[i - 1] in args; }
  }
}
