/** What a finite degree promises: along every line in the variables the expression is a
    polynomial of that degree, over exact arithmetic and whatever the other functions are. */
module PolynomialLines {
  import opened Arenas
  import opened Basics
  import opened Bindings
  import opened CallRewrites
  import opened PolynomialDegrees
  import opened Rewriting

  // --- polynomials -------------------------------------------------------------------------------------

  /** The coefficients from the constant one up, at `t`. */
  function At(p: seq<real>, t: real): real
  { if p == [] then 0.0 else p[0] + Prod(t, At(p[1..], t)) }

  function Scaled(p: seq<real>, c: real): (r: seq<real>)
    ensures |r| == |p|
  { if p == [] then [] else [Prod(c, p[0])] + Scaled(p[1..], c) }

  function Added(p: seq<real>, q: seq<real>): (r: seq<real>)
    ensures |r| == if |p| < |q| then |q| else |p|
  {
    if p == [] then q else if q == [] then p else [p[0] + q[0]] + Added(p[1..], q[1..])
  }

  /** The product: `p[0] q + t (rest p) q`. */
  function Multiplied(p: seq<real>, q: seq<real>): (r: seq<real>)
    ensures p == [] || q == [] ==> r == []
    ensures p != [] && q != [] ==> |r| <= |p| + |q| - 1
  {
    if p == [] then [] else if q == [] then [] else Added(Scaled(q, p[0]), [0.0] + Multiplied(p[1..], q))
  }

  lemma Distribute(a: real, x: real, y: real)
    ensures Prod(a, x + y) == Prod(a, x) + Prod(a, y) && Prod(x + y, a) == Prod(x, a) + Prod(y, a)
  {
  }

  lemma Reassociate(a: real, b: real, c: real)
    ensures Prod(a, Prod(b, c)) == Prod(b, Prod(a, c)) && Prod(Prod(a, b), c) == Prod(a, Prod(b, c))
            && Prod(a, b) == Prod(b, a)
  {
  }

  lemma Zeros(a: real)
    ensures Prod(a, 0.0) == 0.0 && Prod(0.0, a) == 0.0
  {
  }

  lemma {:induction false} ScaledAt(p: seq<real>, c: real, t: real)
    ensures At(Scaled(p, c), t) == Prod(c, At(p, t))
  {
    hide Prod;
    if p == [] {
      Zeros(c);
    } else {
      ScaledAt(p[1..], c, t);
      assert Scaled(p, c)[1..] == Scaled(p[1..], c);
      Distribute(c, p[0], Prod(t, At(p[1..], t)));
      Reassociate(t, c, At(p[1..], t));
    }
  }

  lemma {:induction false} AddedAt(p: seq<real>, q: seq<real>, t: real)
    ensures At(Added(p, q), t) == At(p, t) + At(q, t)
  {
    hide Prod;
    if p != [] && q != [] {
      AddedAt(p[1..], q[1..], t);
      assert Added(p, q)[1..] == Added(p[1..], q[1..]);
      Distribute(t, At(p[1..], t), At(q[1..], t));
    }
  }

  lemma {:induction false} MultipliedAt(p: seq<real>, q: seq<real>, t: real)
    ensures At(Multiplied(p, q), t) == Prod(At(p, t), At(q, t))
  {
    hide Prod;
    if p == [] {
      Zeros(At(q, t));
    } else if q == [] {
      Zeros(At(p, t));
    } else {
      var rest := Multiplied(p[1..], q);
      MultipliedAt(p[1..], q, t);
      AddedAt(Scaled(q, p[0]), [0.0] + rest, t);
      ScaledAt(q, p[0], t);
      assert ([0.0] + rest)[1..] == rest;
      Distribute(At(q, t), p[0], Prod(t, At(p[1..], t)));
      Reassociate(t, At(p[1..], t), At(q, t));
    }
  }

  function Powered(p: seq<real>, n: nat): seq<real> { if n == 0 then [1.0] else Multiplied(Powered(p, n - 1), p) }

  function RealPower(x: real, n: nat): real { if n == 0 then 1.0 else Prod(RealPower(x, n - 1), x) }

  lemma {:induction false} PoweredAt(p: seq<real>, n: nat, t: real)
    ensures At(Powered(p, n), t) == RealPower(At(p, t), n)
  {
    if n == 0 {
      assert [1.0][1..] == [];
      Zeros(t);
    } else {
      PoweredAt(p, n - 1, t);
      MultipliedAt(Powered(p, n - 1), p, t);
    }
  }

  lemma {:induction false} PoweredLength(p: seq<real>, n: nat, d: nat)
    requires |p| <= d + 1
    ensures |Powered(p, n)| <= d * n + 1
  {
    hide Multiplied;
    if n > 0 {
      PoweredLength(p, n - 1, d);
      assert d * n == d * (n - 1) + d;
    }
  }

  lemma ConstantAt(c: real, t: real)
    ensures At([c], t) == c
  {
    assert [c][1..] == [];
    Zeros(t);
  }

  // --- values --------------------------------------------------------------------------------------------

  /** The functions arithmetic does not give, uninterpreted. */
  datatype Functions = Functions(
    recip: real -> real, unary: (nat, real) -> real, binary: (nat, real, real) -> real,
        compare: (nat, real, real) -> real,
    component: (nat, seq<real>) -> real, extremum: (bool, seq<real>) -> real, external: (nat, nat, seq<real>) -> real,
        konst: nat -> real,
    odd: (Kind, seq<real>) -> real)

  function SumOf(xs: seq<real>, n: nat): real
    requires n <= |xs|
  { if n == 0 then 0.0 else SumOf(xs, n - 1) + xs[n - 1] }

  function ProductOf(xs: seq<real>, n: nat): real
    requires n <= |xs|
  { if n == 0 then 1.0 else Prod(ProductOf(xs, n - 1), xs[n - 1]) }

  function DotOf(xs: seq<real>, ys: seq<real>, n: nat): real
    requires n <= |xs| && n <= |ys|
  { if n == 0 then 0.0 else DotOf(xs, ys, n - 1) + Prod(xs[n - 1], ys[n - 1]) }

  function ValueOf(F: Functions, k: Kind, xs: seq<real>): real {
    if !ArityOk(k, |xs|) then F.odd(k, xs)
    else
      match k
      case Neg => Prod(-1.0, xs[0])
      case Add => xs[0] + xs[1]
      case Mul => Prod(xs[0], xs[1])
      case Pow(n) => if n >= 0 then RealPower(xs[0], n) else F.recip(RealPower(xs[0], -n))
      case Unary(op) => F.unary(op, xs[0])
      case Binary(op) => F.binary(op, xs[0], xs[1])
      case Compare(op) => F.compare(op, xs[0], xs[1])
      case Component(i) => F.component(i, xs)
      case Select => if xs[0] != 0.0 then xs[1] else xs[2]
      case Sum => SumOf(xs, |xs|)
      case Product => ProductOf(xs, |xs|)
      case Least => F.extremum(false, xs)
      case Greatest => F.extremum(true, xs)
      case Dot => DotOf(xs[..|xs| / 2], xs[|xs| / 2..], |xs| / 2)
  }

  function RealWorld(F: Functions, kind: nat -> Kind, zero: nat, fold: (nat, seq<nat>) -> Option<nat>): World<real> {
    World(0.0, F.konst, (op: nat, xs: seq<real>) => ValueOf(F, kind(op), xs), F.external, zero, fold)
  }

  // --- one operation --------------------------------------------------------------------------------------

  /** `p` is what class `c` promises of the value `f` along a line. */
  ghost predicate Follows(f: real -> real, c: Nonlinearity, p: seq<real>) {
    FlagsOk(c) && (c.degree.Finite? ==> |p| <= c.degree.d + 1 && forall t: real :: f(t) == At(p, t))
  }

  ghost predicate AllFollow(fs: seq<real -> real>, cs: seq<Nonlinearity>, ps: seq<seq<real>>) {
    |fs| == |cs| == |ps| && forall i :: 0 <= i < |fs| ==> Follows(fs[i], cs[i], ps[i])
  }

  /** The values at `t`. */
  ghost function Along(fs: seq<real -> real>, t: real): (r: seq<real>)
    ensures |r| == |fs| && forall i :: 0 <= i < |fs| ==> r[i] == fs[i](t)
  { seq(|fs|, i requires 0 <= i < |fs| => fs[i](t)) }

  lemma ConstantStays(f: real -> real, c: Nonlinearity, p: seq<real>, t: real)
    requires Follows(f, c, p) && c.IsConstant()
    ensures f(t) == f(0.0)
  {
    if p != [] {
      assert p[1..] == [];
      Zeros(t);
      Zeros(0.0);
    }
    assert f(t) == At(p, t) && f(0.0) == At(p, 0.0);
  }

  lemma AlongStays(fs: seq<real -> real>, cs: seq<Nonlinearity>, ps: seq<seq<real>>, t: real)
    requires AllFollow(fs, cs, ps) && AllConstant(cs)
    ensures Along(fs, t) == Along(fs, 0.0)
  {
    forall i | 0 <= i < |fs| ensures fs[i](t) == fs[i](0.0) { ConstantStays(fs[i], cs[i], ps[i], t); }
  }

  ghost function SumPoly(ps: seq<seq<real>>, n: nat): seq<real>
    requires n <= |ps|
  { if n == 0 then [] else Added(SumPoly(ps, n - 1), ps[n - 1]) }

  ghost function ProductPoly(ps: seq<seq<real>>, n: nat): seq<real>
    requires n <= |ps|
  { if n == 0 then [1.0] else Multiplied(ProductPoly(ps, n - 1), ps[n - 1]) }

  ghost function DotPoly(ps: seq<seq<real>>, qs: seq<seq<real>>, n: nat): seq<real>
    requires n <= |ps| && n <= |qs|
  { if n == 0 then [] else Added(DotPoly(ps, qs, n - 1), Multiplied(ps[n - 1], qs[n - 1])) }

  lemma {:induction false} SumFollows(fs: seq<real -> real>, cs: seq<Nonlinearity>, ps: seq<seq<real>>, n: nat, t: real)
    requires AllFollow(fs, cs, ps) && n <= |fs| && SumDegree(cs, n).Finite?
    ensures |SumPoly(ps, n)| <= SumDegree(cs, n).d + 1 && SumOf(Along(fs, t), n) == At(SumPoly(ps, n), t)
    decreases n
  {
    if n > 0 {
      SumFollows(fs, cs, ps, n - 1, t);
      AddedAt(SumPoly(ps, n - 1), ps[n - 1], t);
      assert Follows(fs[n - 1], cs[n - 1], ps[n - 1]);
    }
  }

  lemma {:induction false} ProductFollows(fs: seq<real -> real>, cs: seq<Nonlinearity>, ps: seq<seq<real>>, n: nat,
                                          t: real)
    requires AllFollow(fs, cs, ps) && n <= |fs| && ProductDegree(cs, n).Finite?
    ensures |ProductPoly(ps, n)| <= ProductDegree(cs, n).d + 1
            && ProductOf(Along(fs, t), n) == At(ProductPoly(ps, n), t)
    decreases n
  {
    if n == 0 {
      ConstantAt(1.0, t);
    } else {
      ProductFollows(fs, cs, ps, n - 1, t);
      MultipliedAt(ProductPoly(ps, n - 1), ps[n - 1], t);
      assert Follows(fs[n - 1], cs[n - 1], ps[n - 1]);
    }
  }

  lemma {:induction false} DotFollows(fs: seq<real -> real>, cs: seq<Nonlinearity>, ps: seq<seq<real>>,
                                      gs: seq<real -> real>, ds: seq<Nonlinearity>, qs: seq<seq<real>>, n: nat, t: real)
    requires AllFollow(fs, cs, ps) && AllFollow(gs, ds, qs) && n <= |fs| && n <= |gs| && DotDegree(cs, ds, n).Finite?
    ensures |DotPoly(ps, qs, n)| <= DotDegree(cs, ds, n).d + 1
            && DotOf(Along(fs, t), Along(gs, t), n) == At(DotPoly(ps, qs, n), t)
    decreases n
  {
    if n > 0 {
      DotFollows(fs, cs, ps, gs, ds, qs, n - 1, t);
      AddedAt(DotPoly(ps, qs, n - 1), Multiplied(ps[n - 1], qs[n - 1]), t);
      MultipliedAt(ps[n - 1], qs[n - 1], t);
      assert Follows(fs[n - 1], cs[n - 1], ps[n - 1]) && Follows(gs[n - 1], ds[n - 1], qs[n - 1]);
    }
  }

  /** The polynomial of an operation from its operands'. */
  ghost function PolyOf(F: Functions, k: Kind, fs: seq<real -> real>, cs: seq<Nonlinearity>,
                        ps: seq<seq<real>>): seq<real>
    requires |fs| == |cs| == |ps|
  {
    var fixed := [ValueOf(F, k, Along(fs, 0.0))];
    if !ArityOk(k, |fs|) || AllConstant(cs) then fixed
    else
      match k
      case Neg => Scaled(ps[0], -1.0)
      case Add => Added(ps[0], ps[1])
      case Mul => Multiplied(ps[0], ps[1])
      case Pow(n) => if n >= 0 then Powered(ps[0], n) else fixed
      case Select => if fs[0](0.0) != 0.0 then ps[1] else ps[2]
      case Sum => SumPoly(ps, |ps|)
      case Product => ProductPoly(ps, |ps|)
      case Dot => DotPoly(ps[..|ps| / 2], ps[|ps| / 2..], |ps| / 2)
      case _ => fixed
  }

  lemma OpFollowsAt(F: Functions, k: Kind, fs: seq<real -> real>, cs: seq<Nonlinearity>, ps: seq<seq<real>>, t: real)
    requires AllFollow(fs, cs, ps) && ClassOf(k, cs).degree.Finite?
    ensures |PolyOf(F, k, fs, cs, ps)| <= ClassOf(k, cs).degree.d + 1
    ensures ValueOf(F, k, Along(fs, t)) == At(PolyOf(F, k, fs, cs, ps), t)
  {
    hide Prod, Joined, At;
    var n := |fs|;
    if AllConstant(cs) {
      ConstantOp(k, cs);
      AlongStays(fs, cs, ps, t);
      ConstantAt(ValueOf(F, k, Along(fs, 0.0)), t);
    } else if k.Dot? {
      DotFollowsAt(fs, cs, ps, t);
    } else if k.Sum? {
      SumFollows(fs, cs, ps, n, t);
    } else if k.Product? {
      ProductFollows(fs, cs, ps, n, t);
    } else {
      forall i | 0 <= i < n ensures Follows(fs[i], cs[i], ps[i]) {}
      match k
      case Neg => ScaledAt(ps[0], -1.0, t);
      case Add => AddedAt(ps[0], ps[1], t);
      case Mul => MultipliedAt(ps[0], ps[1], t);
      case Pow(m) => PowFollows(fs[0], cs[0], ps[0], m, t);
      case Select => ConstantStays(fs[0], cs[0], ps[0], t);
      case _ =>
    }
  }

  lemma DotFollowsAt(fs: seq<real -> real>, cs: seq<Nonlinearity>, ps: seq<seq<real>>, t: real)
    requires AllFollow(fs, cs, ps) && |fs| % 2 == 0
    requires var h := |fs| / 2; DotDegree(cs[..h], cs[h..], h).Finite?
    ensures var h := |fs| / 2;
            && |DotPoly(ps[..h], ps[h..], h)| <= DotDegree(cs[..h], cs[h..], h).d + 1
            && DotOf(Along(fs, t)[..h], Along(fs, t)[h..], h) == At(DotPoly(ps[..h], ps[h..], h), t)
  {
    var h := |fs| / 2;
    DotFollows(fs[..h], cs[..h], ps[..h], fs[h..], cs[h..], ps[h..], h, t);
    assert Along(fs, t)[..h] == Along(fs[..h], t) && Along(fs, t)[h..] == Along(fs[h..], t);
  }

  lemma PowFollows(f: real -> real, c: Nonlinearity, p: seq<real>, m: int, t: real)
    requires Follows(f, c, p) && !c.IsConstant() && (m == 0 || (m > 0 && Power(c.degree, m).Finite?))
    ensures RealPower(f(t), m) == At(Powered(p, m), t)
            && |Powered(p, m)| <= (if m == 0 then 0 else Power(c.degree, m).d) + 1
  {
    if m == 0 {
      ConstantAt(1.0, t);
    } else {
      PoweredAt(p, m, t);
      PoweredLength(p, m, c.degree.d);
    }
  }

  lemma OpFollows(F: Functions, k: Kind, fs: seq<real -> real>, cs: seq<Nonlinearity>, ps: seq<seq<real>>,
                  f: real -> real)
    requires AllFollow(fs, cs, ps) && forall t: real :: f(t) == ValueOf(F, k, Along(fs, t))
    ensures Follows(f, ClassOf(k, cs), PolyOf(F, k, fs, cs, ps))
  {
    hide ClassOf, ValueOf, PolyOf;
    forall i | 0 <= i < |cs| ensures FlagsOk(cs[i]) { assert Follows(fs[i], cs[i], ps[i]); }
    ClassFlags(k, cs);
    if ClassOf(k, cs).degree.Finite? {
      OpFollowsAt(F, k, fs, cs, ps, 0.0);
      forall t: real ensures f(t) == At(PolyOf(F, k, fs, cs, ps), t) { OpFollowsAt(F, k, fs, cs, ps, t); }
    }
  }

  // --- every expression --------------------------------------------------------------------------------------

  /** A line: the bindings at every point of it. */
  type Line = real -> Env<real>

  /** What every symbol is along the line, `poly` its polynomial. */
  ghost predicate LineOk(W: World<real>, C: World<Nonlinearity>, line: Line, env: Env<Nonlinearity>,
                         poly: nat -> seq<real>) {
    forall s: nat :: Follows(t => Look(W, line(t), s), Look(C, env, s), poly(s))
  }

  ghost function ValueAlong(W: World<real>, A: Arena, line: Line, e: nat): real -> real
    requires ArenaOk(A) && e < |A.nodes|
  { t => Eval(W, A, line(t), e) }

  lemma {:induction false} DegreeIs(F: Functions, kind: nat -> Kind, zero: nat, fold: (nat, seq<nat>) -> Option<nat>,
                                    A: Arena,
                                    line: Line, env: Env<Nonlinearity>, poly: nat -> seq<real>, e: nat)
                                      returns (p: seq<real>)
    requires ArenaOk(A) && e < |A.nodes|
             && LineOk(RealWorld(F, kind, zero, fold), ClassWorld(kind, zero, fold), line, env, poly)
    ensures Follows(ValueAlong(RealWorld(F, kind, zero, fold), A, line, e),
                    Eval(ClassWorld(kind, zero, fold), A, env, e), p)
    decreases e, 1
  {
    hide ClassOf, ValueOf, Follows, LineOk;
    var W, C := RealWorld(F, kind, zero, fold), ClassWorld(kind, zero, fold);
    assert NodeOk(A, e);
    var f := ValueAlong(W, A, line, e);
    match A.nodes[e]
    case Const(c) =>
      p := [W.konst(c)];
      forall t: real ensures f(t) == W.konst(c) { assert f(t) == Eval(W, A, line(t), e); }
      ConstantFollows(f, W.konst(c));
    case Symbol(s) =>
      p := poly(s);
      SymbolFollows(W, C, line, env, poly, s, f);
    case Op(op, args) =>
      assert forall i :: 0 <= i < |args| ==> args[i] in A.nodes[e].Operands();
      var ps := DegreesAre(F, kind, zero, fold, A, line, env, poly, args, e);
      var fs, cs := Values(W, A, line, args, e), Evals(C, A, env, args, e);
      forall t: real ensures f(t) == ValueOf(F, kind(op), Along(fs, t)) {
        assert Evals(W, A, line(t), args, e) == Along(fs, t);
      }
      OpFollows(F, kind(op), fs, cs, ps, f);
      p := PolyOf(F, kind(op), fs, cs, ps);
    case Call(g, out, ctx, list) =>
      FullBelow(A, e);
      var full := FullArgs(ctx, |A.funcs[g].params|, list);
      var ps := DegreesAre(F, kind, zero, fold, A, line, env, poly, full, e);
      p := CallDegree(F, kind, zero, fold, A, line, env, poly, g, out, full, ps, e);
      forall t: real ensures f(t) == CallValue(W, A, line(t), g, out, Evals(W, A, line(t), full, e), e) {}
      SameFollows(t => CallValue(W, A, line(t), g, out, Evals(W, A, line(t), full, e), e), f, Eval(C, A, env, e), p);
  }

  lemma SameFollows(f: real -> real, g: real -> real, c: Nonlinearity, p: seq<real>)
    requires Follows(f, c, p) && forall t: real :: f(t) == g(t)
    ensures Follows(g, c, p)
  {
  }

  lemma ConstantFollows(f: real -> real, v: real)
    requires forall t: real :: f(t) == v
    ensures Follows(f, Constant(), [v])
  {
    forall t: real ensures f(t) == At([v], t) { ConstantAt(v, t); }
  }

  lemma SymbolFollows(W: World<real>, C: World<Nonlinearity>, line: Line, env: Env<Nonlinearity>,
                      poly: nat -> seq<real>, s: nat, f: real -> real)
    requires LineOk(W, C, line, env, poly) && forall t: real :: f(t) == Look(W, line(t), s)
    ensures Follows(f, Look(C, env, s), poly(s))
  {
    var g: real -> real := t => Look(W, line(t), s);
    assert Follows(g, Look(C, env, s), poly(s));
    SameFollows(g, f, Look(C, env, s), poly(s));
  }

  ghost function Values(W: World<real>, A: Arena, line: Line, es: seq<nat>, bound: nat): (r: seq<real -> real>)
    requires ArenaOk(A) && bound <= |A.nodes| && forall i :: 0 <= i < |es| ==> es[i] < bound
    ensures |r| == |es| && forall i :: 0 <= i < |es| ==> r[i] == ValueAlong(W, A, line, es[i])
  { seq(|es|, i requires 0 <= i < |es| => ValueAlong(W, A, line, es[i])) }

  lemma {:induction false} DegreesAre(F: Functions, kind: nat -> Kind, zero: nat,
                                      fold: (nat, seq<nat>) -> Option<nat>, A: Arena,
                                      line: Line, env: Env<Nonlinearity>, poly: nat -> seq<real>, es: seq<nat>,
                                          bound: nat) returns (ps: seq<seq<real>>)
    requires ArenaOk(A) && bound <= |A.nodes| && (forall i :: 0 <= i < |es| ==> es[i] < bound)
    requires LineOk(RealWorld(F, kind, zero, fold), ClassWorld(kind, zero, fold), line, env, poly)
    ensures AllFollow(Values(RealWorld(F, kind, zero, fold), A, line, es, bound),
                      Evals(ClassWorld(kind, zero, fold), A, env, es, bound), ps)
    decreases bound, 0, |es|
  {
    hide Follows, LineOk, ClassOf, ValueOf;
    ps := [];
    for k := 0 to |es|
      invariant |ps| == k && forall i :: 0 <= i < k ==>
                  Follows(ValueAlong(RealWorld(F, kind, zero, fold), A, line, es[i]),
                          Eval(ClassWorld(kind, zero, fold), A, env, es[i]), ps[i])
    {
      var p := DegreeIs(F, kind, zero, fold, A, line, env, poly, es[k]);
      ps := ps + [p];
    }
  }

  /** A call's value along the line. */
  lemma CallDegree(F: Functions, kind: nat -> Kind, zero: nat, fold: (nat, seq<nat>) -> Option<nat>, A: Arena,
                   line: Line, env: Env<Nonlinearity>, poly: nat -> seq<real>, g: nat, out: nat, full: seq<nat>,
                       ps: seq<seq<real>>, e: nat)
    returns (p: seq<real>)
    requires ArenaOk(A) && e <= |A.nodes| && g < |A.funcs| && out < |A.funcs[g].outputs|
             && |full| == |A.funcs[g].params|
    requires OutputOk(A.funcs[g].outputs[out], A.funcs[g].external, e) && forall i :: 0 <= i < |full| ==> full[i] < e
    requires LineOk(RealWorld(F, kind, zero, fold), ClassWorld(kind, zero, fold), line, env, poly)
    requires AllFollow(Values(RealWorld(F, kind, zero, fold), A, line, full, e),
                       Evals(ClassWorld(kind, zero, fold), A, env, full, e), ps)
    ensures var W, C := RealWorld(F, kind, zero, fold), ClassWorld(kind, zero, fold);
            Follows(t => CallValue(W, A, line(t), g, out, Evals(W, A, line(t), full, e), e),
                    CallValue(C, A, env, g, out, Evals(C, A, env, full, e), e), p)
    decreases e, 0, |full| + 1
  {
    hide ClassOf, ValueOf, Follows, LineOk;
    var W, C := RealWorld(F, kind, zero, fold), ClassWorld(kind, zero, fold);
    var fs, cs := Values(W, A, line, full, e), Evals(C, A, env, full, e);
    var f: real -> real := t => CallValue(W, A, line(t), g, out, Evals(W, A, line(t), full, e), e);
    match A.funcs[g].outputs[out]
    case Zero =>
      p := [W.konst(zero)];
      forall t: real ensures f(t) == W.konst(zero) {
        assert CallValue(W, A, line(t), g, out, Evals(W, A, line(t), full, e), e) == W.konst(zero);
      }
      ConstantFollows(f, W.konst(zero));
    case External(k) =>
      forall t: real ensures f(t) == F.external(g, k, Along(fs, t)) {
        assert Evals(W, A, line(t), full, e) == Along(fs, t);
      }
      p := [F.external(g, k, Along(fs, 0.0))];
      OpaqueFollows(F, g, k, fs, cs, ps, f);
    case Expr(b) =>
      var params := A.funcs[g].params;
      var inner: Line := t => BindEnv(line(t), params, Evals(W, A, line(t), full, e));
      var cenv := BindEnv(env, params, cs);
      var poly' := (s: nat) => if s in params then ps[IndexOf(params, s)] else poly(s);
      InnerLine(W, C, A, line, env, poly, params, full, e, ps, inner, poly');
      p := DegreeIs(F, kind, zero, fold, A, inner, cenv, poly', b);
      SameFollows(ValueAlong(W, A, inner, b), f, Eval(C, A, cenv, b), p);
  }

  lemma OpaqueFollows(F: Functions, g: nat, k: nat, fs: seq<real -> real>, cs: seq<Nonlinearity>, ps: seq<seq<real>>,
                      f: real -> real)
    requires AllFollow(fs, cs, ps) && forall t: real :: f(t) == F.external(g, k, Along(fs, t))
    ensures Follows(f, OpaqueOf(cs), [F.external(g, k, Along(fs, 0.0))])
  {
    forall i | 0 <= i < |cs| ensures FlagsOk(cs[i]) { assert Follows(fs[i], cs[i], ps[i]); }
    ClassFlags(Neg, cs);
    if AllConstant(cs) {
      forall t: real ensures f(t) == At([F.external(g, k, Along(fs, 0.0))], t) {
        AlongStays(fs, cs, ps, t);
        ConstantAt(F.external(g, k, Along(fs, 0.0)), t);
      }
    }
  }

  /** Inside a call the parameters follow their arguments' classes. */
  lemma InnerLine(W: World<real>, C: World<Nonlinearity>, A: Arena, line: Line, env: Env<Nonlinearity>,
                  poly: nat -> seq<real>,
                  params: seq<nat>, full: seq<nat>, e: nat, ps: seq<seq<real>>, inner: Line, poly': nat -> seq<real>)
    requires ArenaOk(A) && e <= |A.nodes| && (forall i :: 0 <= i < |full| ==> full[i] < e) && |full| == |params|
    requires LineOk(W, C, line, env, poly) && AllFollow(Values(W, A, line, full, e), Evals(C, A, env, full, e), ps)
    requires forall t: real :: inner(t) == BindEnv(line(t), params, Evals(W, A, line(t), full, e))
    requires forall s: nat :: poly'(s) == if s in params then ps[IndexOf(params, s)] else poly(s)
    ensures LineOk(W, C, inner, BindEnv(env, params, Evals(C, A, env, full, e)), poly')
  {
    hide Follows;
    var cenv := BindEnv(env, params, Evals(C, A, env, full, e));
    forall s: nat ensures Follows(t => Look(W, inner(t), s), Look(C, cenv, s), poly'(s)) {
      var g: real -> real := t => Look(W, inner(t), s);
      if s in params {
        var i := IndexOf(params, s);
        var f := Values(W, A, line, full, e)[i];
        assert Follows(f, Evals(C, A, env, full, e)[i], ps[i]);
        forall t: real ensures f(t) == g(t) { EvalsAt(W, A, line(t), full, e, i); }
        SameFollows(f, g, Look(C, cenv, s), ps[i]);
      } else {
        var f: real -> real := t => Look(W, line(t), s);
        assert Follows(f, Look(C, env, s), poly(s));
        SameFollows(f, g, Look(C, cenv, s), poly(s));
      }
    }
  }

  /** The classes of the symbols: the variables of degree one, the others constant. */
  function LeafClasses(vars: set<nat>): Env<Nonlinearity> { map s | s in vars :: Pure(Finite(1)) }

  /** A line through `base` in direction `dir`, only the variables moving. */
  function LineThrough(base: Env<real>, dir: Env<real>, vars: set<nat>): Line {
    (t: real) => map s | s in base.Keys + vars ::
                   (if s in base then base[s] else 0.0) + if s in vars
                       then Prod(t, if s in dir then dir[s] else 0.0) else 0.0
  }

  function LinePoly(base: Env<real>, dir: Env<real>, vars: set<nat>): nat -> seq<real> {
    (s: nat) =>
      var b := if s in base then base[s] else 0.0;
      if s in vars then [b, if s in dir then dir[s] else 0.0] else [b]
  }

  /** A finite degree is what it says: along every line in the variables the value is a
      polynomial in the step with at most that many powers, whatever the line and whatever the
      functions beyond arithmetic are; and any flag means there is no finite degree. */
  lemma DegreeAlongLines(F: Functions, kind: nat -> Kind, zero: nat, fold: (nat, seq<nat>) -> Option<nat>, A: Arena,
                         base: Env<real>, dir: Env<real>, vars: set<nat>, e: nat) returns (p: seq<real>)
    requires ArenaOk(A) && e < |A.nodes|
    ensures var c := Eval(ClassWorld(kind, zero, fold), A, LeafClasses(vars), e);
            && (c.Flagged() ==> c.degree.Unbounded?)
            && (c.degree.Finite? ==>
                  && |p| <= c.degree.d + 1
                  && forall t: real ::
                     Eval(RealWorld(F, kind, zero, fold), A, LineThrough(base, dir, vars)(t), e) == At(p, t))
  {
    hide ClassOf, ValueOf, Eval;
    var W, C := RealWorld(F, kind, zero, fold), ClassWorld(kind, zero, fold);
    var line, env, poly := LineThrough(base, dir, vars), LeafClasses(vars), LinePoly(base, dir, vars);
    forall s: nat ensures Follows(t => Look(W, line(t), s), Look(C, env, s), poly(s)) {
      LeafFollows(base, dir, vars, s, t => Look(W, line(t), s), Look(C, env, s));
    }
    p := DegreeIs(F, kind, zero, fold, A, line, env, poly, e);
    var f := ValueAlong(W, A, line, e);
    forall t: real ensures f(t) == Eval(W, A, LineThrough(base, dir, vars)(t), e) {}
  }

  lemma LeafFollows(base: Env<real>, dir: Env<real>, vars: set<nat>, s: nat, f: real -> real, c: Nonlinearity)
    requires forall t: real :: f(t) == if s in LineThrough(base, dir, vars)(t)
             then LineThrough(base, dir, vars)(t)[s] else 0.0
    requires c == if s in vars then Pure(Finite(1)) else Constant()
    ensures Follows(f, c, LinePoly(base, dir, vars)(s))
  {
    var p := LinePoly(base, dir, vars)(s);
    forall t: real ensures f(t) == At(p, t) {
      ConstantAt(p[0], t);
      if s in vars {
        assert p[1..] == [p[1]];
        ConstantAt(p[1], t);
      }
    }
  }
}
