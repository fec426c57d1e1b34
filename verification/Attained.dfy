/** A degree reported is attained: over sums, products and powers of what is positive nothing
    cancels, and the value along a line has exactly that leading power. */
module AttainedDegrees {
  import opened Arenas
  import opened Basics
  import opened Classification
  import opened PolynomialDegrees
  import opened PolynomialLines
  import opened Rewriting
  import opened Specializing

  // --- polynomials whose coefficients are not negative -----------------------------------------------

  /** Leading power exactly `d`, no coefficient negative. */
  ghost predicate Leading(p: seq<real>, d: nat) {
    |p| == d + 1 && p[d] > 0.0 && forall i :: 0 <= i <= d ==> p[i] >= 0.0
  }

  function Coefficient(p: seq<real>, i: nat): real { if i < |p| then p[i] else 0.0 }

  lemma {:induction false} AddedHas(p: seq<real>, q: seq<real>, i: nat)
    ensures Coefficient(Added(p, q), i) == Coefficient(p, i) + Coefficient(q, i)
    decreases i
  {
    if p != [] && q != [] && i > 0 {
      AddedHas(p[1..], q[1..], i - 1);
      assert Added(p, q)[1..] == Added(p[1..], q[1..]);
    }
  }

  lemma {:induction false} ScaledHas(p: seq<real>, c: real, i: nat)
    requires i < |p|
    ensures Scaled(p, c)[i] == Prod(c, p[i])
    decreases i
  {
    if i > 0 {
      ScaledHas(p[1..], c, i - 1);
      assert Scaled(p, c)[1..] == Scaled(p[1..], c);
    }
  }

  lemma AddedLeading(p: seq<real>, a: nat, q: seq<real>, b: nat)
    requires Leading(p, a) && Leading(q, b)
    ensures Leading(Added(p, q), if a < b then b else a)
  {
    var r := Added(p, q);
    forall i: nat | i < |r| ensures r[i] == Coefficient(p, i) + Coefficient(q, i) { AddedHas(p, q, i); }
  }

  lemma Positive(a: real, b: real)
    ensures a >= 0.0 && b >= 0.0 ==> Prod(a, b) >= 0.0
    ensures a > 0.0 && b > 0.0 ==> Prod(a, b) > 0.0
  {
  }

  lemma ScaledLeading(p: seq<real>, d: nat, c: real)
    requires Leading(p, d) && c >= 0.0
    ensures |Scaled(p, c)| == d + 1 && forall i :: 0 <= i <= d ==> Scaled(p, c)[i] >= 0.0
    ensures c > 0.0 ==> Leading(Scaled(p, c), d)
  {
    hide Prod;
    forall i | 0 <= i <= d ensures Scaled(p, c)[i] == Prod(c, p[i]) >= 0.0 {
      ScaledHas(p, c, i);
      Positive(c, p[i]);
    }
    Positive(c, p[d]);
  }

  /** One more factor's coefficient: `s` and, a power up, what the others make. */
  lemma ShiftedLeading(s: seq<real>, rest: seq<real>, a: nat, b: nat)
    requires |s| == b + 1 && forall i :: 0 <= i <= b ==> s[i] >= 0.0
    requires if a == 0 then s[b] > 0.0 && rest == [] else Leading(rest, a - 1 + b)
    ensures Leading(Added(s, [0.0] + rest), a + b)
  {
    var up := [0.0] + rest;
    var r := Added(s, up);
    forall i: nat | i < |r| ensures r[i] == Coefficient(s, i) + Coefficient(up, i) { AddedHas(s, up, i); }
    assert a > 0 ==> up[a + b] == rest[a + b - 1];
    hide Added;
    forall i: nat | i <= a + b ensures r[i] >= 0.0 { if 0 < i < |up| { assert up[i] == rest[i - 1]; } }
  }

  lemma {:induction false} MultipliedLeading(p: seq<real>, a: nat, q: seq<real>, b: nat)
    requires Leading(p, a) && Leading(q, b)
    ensures Leading(Multiplied(p, q), a + b)
    decreases a
  {
    hide Prod, Added, Scaled;
    ScaledLeading(q, b, p[0]);
    if a > 0 { MultipliedLeading(p[1..], a - 1, q, b); }
    ShiftedLeading(Scaled(q, p[0]), Multiplied(p[1..], q), a, b);
  }

  lemma NoneAdded(p: seq<real>)
    ensures Added([], p) == p
  {
  }

  lemma {:induction false} PoweredLeading(p: seq<real>, d: nat, n: nat)
    requires Leading(p, d)
    ensures Leading(Powered(p, n), d * n)
    decreases n
  {
    hide Multiplied;
    if n > 0 {
      PoweredLeading(p, d, n - 1);
      MultipliedLeading(Powered(p, n - 1), d * (n - 1), p, d);
      assert d * n == d * (n - 1) + d;
    }
  }

  // --- one operation ------------------------------------------------------------------------------------

  /** The values at `t` of polynomials of degrees `ds`. */
  ghost predicate AllLeading(ps: seq<seq<real>>, ds: seq<nat>) {
    |ps| == |ds| && forall i :: 0 <= i < |ps| ==> Leading(ps[i], ds[i])
  }

  ghost predicate ValuesAt(xs: seq<real>, ps: seq<seq<real>>, t: real) {
    |xs| == |ps| && forall i :: 0 <= i < |xs| ==> xs[i] == At(ps[i], t)
  }

  /** The classes of polynomials of degrees `ds`. */
  function Finites(ds: seq<nat>): (r: seq<Nonlinearity>)
    ensures |r| == |ds| && forall i :: 0 <= i < |ds| ==> r[i] == Pure(Checked(ds[i]))
  { seq(|ds|, i requires 0 <= i < |ds| => Pure(Checked(ds[i]))) }

  lemma {:induction false} SumAt(xs: seq<real>, ps: seq<seq<real>>, n: nat, t: real)
    requires ValuesAt(xs, ps, t) && n <= |xs|
    ensures SumOf(xs, n) == At(SumPoly(ps, n), t)
    decreases n
  {
    if n > 0 {
      SumAt(xs, ps, n - 1, t);
      AddedAt(SumPoly(ps, n - 1), ps[n - 1], t);
    }
  }

  lemma {:induction false} ProductAt(xs: seq<real>, ps: seq<seq<real>>, n: nat, t: real)
    requires ValuesAt(xs, ps, t) && n <= |xs|
    ensures ProductOf(xs, n) == At(ProductPoly(ps, n), t)
    decreases n
  {
    if n == 0 {
      ConstantAt(1.0, t);
    } else {
      ProductAt(xs, ps, n - 1, t);
      MultipliedAt(ProductPoly(ps, n - 1), ps[n - 1], t);
    }
  }

  lemma {:induction false} DotAt(xs: seq<real>, ps: seq<seq<real>>, ys: seq<real>, qs: seq<seq<real>>, n: nat, t: real)
    requires ValuesAt(xs, ps, t) && ValuesAt(ys, qs, t) && n <= |xs| && n <= |ys|
    ensures DotOf(xs, ys, n) == At(DotPoly(ps, qs, n), t)
    decreases n
  {
    if n > 0 {
      DotAt(xs, ps, ys, qs, n - 1, t);
      AddedAt(DotPoly(ps, qs, n - 1), Multiplied(ps[n - 1], qs[n - 1]), t);
      MultipliedAt(ps[n - 1], qs[n - 1], t);
    }
  }

  lemma {:induction false} SumLeading(ps: seq<seq<real>>, ds: seq<nat>, n: nat) returns (d: nat)
    requires AllLeading(ps, ds) && n <= |ps|
    ensures SumDegree(Finites(ds), n) == Checked(d)
    ensures if n == 0 then d == 0 else Leading(SumPoly(ps, n), d)
    decreases n
  {
    hide Leading, Added;
    if n == 0 {
      d := 0;
    } else {
      d := SumLeading(ps, ds, n - 1);
      if n > 1 { AddedLeading(SumPoly(ps, n - 1), d, ps[n - 1], ds[n - 1]); } else { NoneAdded(ps[0]); }
      d := if d < ds[n - 1] then ds[n - 1] else d;
    }
  }

  lemma {:induction false} ProductLeading(ps: seq<seq<real>>, ds: seq<nat>, n: nat) returns (d: nat)
    requires AllLeading(ps, ds) && n <= |ps|
    ensures ProductDegree(Finites(ds), n) == Checked(d) && Leading(ProductPoly(ps, n), d)
    decreases n
  {
    hide Multiplied;
    if n == 0 {
      d := 0;
    } else {
      hide Leading;
      d := ProductLeading(ps, ds, n - 1);
      MultipliedLeading(ProductPoly(ps, n - 1), d, ps[n - 1], ds[n - 1]);
      d := d + ds[n - 1];
    }
  }

  lemma {:induction false} DotLeading(ps: seq<seq<real>>, ds: seq<nat>, qs: seq<seq<real>>, es: seq<nat>, n: nat)
    returns (d: nat)
    requires AllLeading(ps, ds) && AllLeading(qs, es) && n <= |ps| && n <= |qs|
    ensures DotDegree(Finites(ds), Finites(es), n) == Checked(d)
    ensures if n == 0 then d == 0 else Leading(DotPoly(ps, qs, n), d)
    decreases n
  {
    hide Leading, Multiplied, Added;
    if n == 0 {
      d := 0;
    } else {
      d := DotLeading(ps, ds, qs, es, n - 1);
      var k := ds[n - 1] + es[n - 1];
      MultipliedLeading(ps[n - 1], ds[n - 1], qs[n - 1], es[n - 1]);
      var r := Multiplied(ps[n - 1], qs[n - 1]);
      if n > 1 { AddedLeading(DotPoly(ps, qs, n - 1), d, r, k); } else { NoneAdded(r); }
      d := if d < k then k else d;
    }
  }

  /** The operations nothing cancels in. */
  predicate Ring(k: Kind, n: nat) {
    ArityOk(k, n) &&
    match k
    case Add => true
    case Mul => true
    case Product => true
    case Pow(m) => m >= 0
    case Sum => n > 0
    case Dot => n > 0
    case _ => false
  }

  ghost function RingPoly(k: Kind, ps: seq<seq<real>>): seq<real>
    requires Ring(k, |ps|)
  {
    match k
    case Add => Added(ps[0], ps[1])
    case Mul => Multiplied(ps[0], ps[1])
    case Product => ProductPoly(ps, |ps|)
    case Pow(m) => Powered(ps[0], m)
    case Sum => SumPoly(ps, |ps|)
    case Dot => DotPoly(ps[..|ps| / 2], ps[|ps| / 2..], |ps| / 2)
  }

  lemma RingValue(F: Functions, k: Kind, xs: seq<real>, ps: seq<seq<real>>, t: real)
    requires Ring(k, |ps|) && ValuesAt(xs, ps, t)
    ensures ValueOf(F, k, xs) == At(RingPoly(k, ps), t)
  {
    hide Added, Multiplied, Powered, At;
    var h := |ps| / 2;
    match k
    case Add => AddedAt(ps[0], ps[1], t);
    case Mul => MultipliedAt(ps[0], ps[1], t);
    case Product => ProductAt(xs, ps, |ps|, t);
    case Pow(m) => PoweredAt(ps[0], m, t);
    case Sum => SumAt(xs, ps, |ps|, t);
    case Dot => DotAt(xs[..h], ps[..h], xs[h..], ps[h..], h, t);
  }

  lemma PowChecked(d: nat, n: nat)
    ensures n > 0 ==> Power(Checked(d), n) == Checked(d * n)
    ensures d * 0 == 0 * n == 0
  {
    if n > 0 { assert d <= d * n; }
  }

  lemma RingLeading(k: Kind, ps: seq<seq<real>>, ds: seq<nat>) returns (d: nat)
    requires Ring(k, |ps|) && AllLeading(ps, ds)
    ensures Leading(RingPoly(k, ps), d) && ClassOf(k, Finites(ds)) == Pure(Checked(d))
  {
    hide Leading, Added, Multiplied, Powered, Joined;
    var h, parts := |ps| / 2, Finites(ds);
    assert parts[..|parts|] == parts;
    JoinedUnflagged(parts, |parts|, ClassOf(k, parts).(transcendental := {}, rational := false, piecewise := false,
                                                       external := false));
    match k
    case Add =>
      AddedLeading(ps[0], ds[0], ps[1], ds[1]);
      d := if ds[0] < ds[1] then ds[1] else ds[0];
    case Mul =>
      MultipliedLeading(ps[0], ds[0], ps[1], ds[1]);
      d := ds[0] + ds[1];
    case Product => d := ProductLeading(ps, ds, |ps|);
    case Pow(m) =>
      PoweredLeading(ps[0], ds[0], m);
      PowChecked(ds[0], m);
      d := ds[0] * m;
    case Sum => d := SumLeading(ps, ds, |ps|);
    case Dot =>
      assert parts[..h] == Finites(ds[..h]) && parts[h..] == Finites(ds[h..]);
      d := DotLeading(ps[..h], ds[..h], ps[h..], ds[h..], h);
  }

  // --- every expression -----------------------------------------------------------------------------------

  /** Sums, products and powers over positive constants, positive fixed symbols and variables
      that rise along the line. */
  ghost predicate Rising(F: Functions, kind: nat -> Kind, A: Arena, base: Env<real>, dir: Env<real>, vars: set<nat>,
                         e: nat)
    requires ArenaOk(A) && e < |A.nodes|
    decreases e
  {
    match A.nodes[e]
    case Const(c) => F.konst(c) > 0.0
    case Symbol(s) =>
      if s in vars then s in dir && dir[s] > 0.0 && (s in base ==> base[s] >= 0.0) else s in base && base[s] > 0.0
    case Op(op, args) =>
      Ring(kind(op), |args|)
          && forall i :: 0 <= i < |args| ==> Below1(args[i], e) && Rising(F, kind, A, base, dir, vars, args[i])
    case Call(_, _, _, _) => false
  }

  /** The value of `e` along the line is `p`. */
  ghost predicate Traces(W: World<real>, A: Arena, line: Line, e: nat, p: seq<real>)
    requires ArenaOk(A) && e < |A.nodes|
  { forall t: real :: Eval(W, A, line(t), e) == At(p, t) }

  /** The degree is exactly the value's: along the line it is a polynomial whose leading power
      is the `d` reported, and unbounded is reported only where that `d` has more than 32
      bits. */
  lemma {:induction false} DegreeAttained(F: Functions, kind: nat -> Kind, zero: nat,
                                          fold: (nat, seq<nat>) -> Option<nat>, A: Arena, base: Env<real>,
                                          dir: Env<real>, vars: set<nat>, e: nat)
    returns (d: nat, p: seq<real>)
    requires ArenaOk(A) && e < |A.nodes| && Rising(F, kind, A, base, dir, vars, e)
    ensures |p| == d + 1 && p[d] > 0.0 && (forall i :: 0 <= i <= d ==> p[i] >= 0.0)
    ensures forall t: real ::
              Eval(RealWorld(F, kind, zero, fold), A, LineThrough(base, dir, vars)(t), e) == At(p, t)
    ensures Eval(ClassWorld(kind, zero, fold), A, LeafClasses(vars), e) ==
            Nonlinearity(if d <= U32_MAX then Finite(d) else Unbounded, {}, false, false, false)
    decreases e
  {
    hide ClassOf, ValueOf, LineThrough, Ring, At;
    var W, C := RealWorld(F, kind, zero, fold), ClassWorld(kind, zero, fold);
    var line, env := LineThrough(base, dir, vars), LeafClasses(vars);
    assert NodeOk(A, e);
    match A.nodes[e]
    case Const(c) =>
      d, p := 0, [F.konst(c)];
      forall t: real ensures Eval(W, A, line(t), e) == At(p, t) { ConstantAt(F.konst(c), t); }
    case Symbol(s) =>
      d, p := LeafLeading(base, dir, vars, s);
      forall t: real ensures Eval(W, A, line(t), e) == At(p, t) { LeafValue(base, dir, vars, s, t); }
    case Op(op, args) =>
      var ds: seq<nat>, ps: seq<seq<real>> := [], [];
      for k := 0 to |args|
        invariant |ds| == |ps| == k && forall i :: 0 <= i < k ==>
                    && args[i] < e && Leading(ps[i], ds[i]) && Traces(W, A, line, args[i], ps[i])
                    && Eval(C, A, env, args[i]) == Pure(Checked(ds[i]))
      {
        assert Below1(args[k], e);
        var a, q := DegreeAttained(F, kind, zero, fold, A, base, dir, vars, args[k]);
        ds, ps := ds + [a], ps + [q];
      }
      d := RingLeading(kind(op), ps, ds);
      p := RingPoly(kind(op), ps);
      forall t: real ensures Eval(W, A, line(t), e) == At(p, t) {
        forall i | 0 <= i < |args| ensures Eval(W, A, line(t), args[i]) == At(ps[i], t) {
          assert Traces(W, A, line, args[i], ps[i]);
        }
        RingValue(F, kind(op), Evals(W, A, line(t), args, e), ps, t);
      }
      assert Evals(C, A, env, args, e) == Finites(ds);
  }

  lemma LeafLeading(base: Env<real>, dir: Env<real>, vars: set<nat>, s: nat) returns (d: nat, p: seq<real>)
    requires if s in vars then s in dir && dir[s] > 0.0 && (s in base ==> base[s] >= 0.0)
             else s in base && base[s] > 0.0
    ensures p == LinePoly(base, dir, vars)(s) && d == (if s in vars then 1 else 0) && Leading(p, d)
  {
    p := LinePoly(base, dir, vars)(s);
    d := if s in vars then 1 else 0;
  }

  lemma LeafValue(base: Env<real>, dir: Env<real>, vars: set<nat>, s: nat, t: real)
    ensures var env := LineThrough(base, dir, vars)(t);
            (if s in env then env[s] else 0.0) == At(LinePoly(base, dir, vars)(s), t)
  {
    var env := LineThrough(base, dir, vars)(t);
    var x := if s in env then env[s] else 0.0;
    LeafFollows(base, dir, vars, s,
                (u: real) => if s in LineThrough(base, dir, vars)(u) then LineThrough(base, dir, vars)(u)[s] else 0.0,
                if s in vars then Pure(Finite(1)) else Constant());
    assert Follows((u: real) => if s in LineThrough(base, dir, vars)(u)
                     then LineThrough(base, dir, vars)(u)[s] else 0.0,
                   if s in vars then Pure(Finite(1)) else Constant(), LinePoly(base, dir, vars)(s));
  }

  /** A negation keeps the degree, and attains it. */
  lemma NegAttained(F: Functions, kind: nat -> Kind, zero: nat, fold: (nat, seq<nat>) -> Option<nat>, A: Arena,
                    base: Env<real>, dir: Env<real>, vars: set<nat>, e: nat, op: nat, x: nat)
    returns (d: nat, p: seq<real>)
    requires ArenaOk(A) && e < |A.nodes| && A.nodes[e] == Op(op, [x]) && kind(op) == Neg
    requires x < e && Rising(F, kind, A, base, dir, vars, x)
    ensures |p| == d + 1 && p[d] < 0.0
    ensures forall t: real ::
              Eval(RealWorld(F, kind, zero, fold), A, LineThrough(base, dir, vars)(t), e) == At(p, t)
    ensures Eval(ClassWorld(kind, zero, fold), A, LeafClasses(vars), e) ==
            Nonlinearity(if d <= U32_MAX then Finite(d) else Unbounded, {}, false, false, false)
  {
    hide LineThrough, At, Rising;
    var W, C := RealWorld(F, kind, zero, fold), ClassWorld(kind, zero, fold);
    var line := LineThrough(base, dir, vars);
    var q;
    d, q := DegreeAttained(F, kind, zero, fold, A, base, dir, vars, x);
    p := Scaled(q, -1.0);
    ScaledHas(q, -1.0, d);
    assert NodeOk(A, e) && [x][0] == x;
    forall t: real ensures Eval(W, A, line(t), e) == At(p, t) {
      assert Eval(W, A, line(t), e) == ValueOf(F, Neg, Evals(W, A, line(t), [x], e));
      ScaledAt(q, -1.0, t);
    }
    assert Eval(C, A, LeafClasses(vars), e) == ClassOf(Neg, Evals(C, A, LeafClasses(vars), [x], e));
  }

  /** A branch on a constant has the worse arm's degree, which the value attains where that is
      the arm taken. */
  lemma SelectAttained(F: Functions, kind: nat -> Kind, zero: nat, fold: (nat, seq<nat>) -> Option<nat>, A: Arena,
                       base: Env<real>, dir: Env<real>, vars: set<nat>, e: nat, op: nat, args: seq<nat>)
    returns (a: nat, b: nat, p: seq<real>)
    requires ArenaOk(A) && e < |A.nodes| && A.nodes[e] == Op(op, args) && kind(op) == Select && |args| == 3
    requires forall i :: 0 <= i < 3 ==> args[i] < e && Rising(F, kind, A, base, dir, vars, args[i])
    requires A.nodes[args[0]].Const?
    ensures |p| == a + 1 && p[a] > 0.0
    ensures forall t: real ::
              Eval(RealWorld(F, kind, zero, fold), A, LineThrough(base, dir, vars)(t), e) == At(p, t)
    ensures Eval(ClassWorld(kind, zero, fold), A, LeafClasses(vars), args[2]).degree == Checked(b)
    ensures var worst := if a < b then b else a;
            Eval(ClassWorld(kind, zero, fold), A, LeafClasses(vars), e) ==
            Nonlinearity(if worst <= U32_MAX then Finite(worst) else Unbounded, {}, false, false, false)
  {
    assert F.konst(A.nodes[args[0]].c) > 0.0;
    hide LineThrough, At, ClassOf, ValueOf, Rising;
    var W, C := RealWorld(F, kind, zero, fold), ClassWorld(kind, zero, fold);
    var line, env := LineThrough(base, dir, vars), LeafClasses(vars);
    a, p := DegreeAttained(F, kind, zero, fold, A, base, dir, vars, args[1]);
    var q;
    b, q := DegreeAttained(F, kind, zero, fold, A, base, dir, vars, args[2]);
    assert NodeOk(A, e) && NodeOk(A, args[0]);
    forall t: real ensures Eval(W, A, line(t), e) == At(p, t) {
      var xs := Evals(W, A, line(t), args, e);
      ConstEval(W, A, line(t), args[0]);
      SelectTaken(F, xs);
    }
    ConstEval(C, A, env, args[0]);
    SelectClass(Evals(C, A, env, args, e));
  }

  lemma SelectTaken(F: Functions, xs: seq<real>)
    requires |xs| == 3 && xs[0] > 0.0
    ensures ValueOf(F, Select, xs) == xs[1]
  {
  }

  lemma SelectClass(parts: seq<Nonlinearity>)
    requires |parts| == 3 && parts[0] == Constant() && !parts[1].Flagged() && !parts[2].Flagged()
    ensures ClassOf(Select, parts) == Pure(Plus(parts[1].degree, parts[2].degree))
  {
    hide Joined;
    assert parts[..3] == parts;
    JoinedUnflagged(parts, 3, Pure(Plus(parts[1].degree, parts[2].degree)));
  }

  // --- a system -----------------------------------------------------------------------------------------------

  lemma {:induction false} RisingCallsNothing(F: Functions, kind: nat -> Kind, C: World<Nonlinearity>, A: Arena,
                                              base: Env<real>, dir: Env<real>, vars: set<nat>,
                                              env: Env<Nonlinearity>, e: nat)
    requires ArenaOk(A) && e < |A.nodes| && Rising(F, kind, A, base, dir, vars, e)
    ensures GlobalsConstant(C, A, env, e)
    decreases e
  {
    hide Ring;
    assert NodeOk(A, e);
    if A.nodes[e].Op? {
      var args := A.nodes[e].args;
      forall i | 0 <= i < |args| ensures Below1(args[i], e) && GlobalsConstant(C, A, env, args[i]) {
        RisingCallsNothing(F, kind, C, A, base, dir, vars, env, args[i]);
      }
    }
  }

  /** The worst of some degrees is one of them. */
  lemma {:induction false} WorstFinite(ds: seq<nat>, n: nat) returns (k: nat)
    requires 0 < n <= |ds|
    ensures k < n && Worst(Finites(ds)[..n]) == Pure(Checked(ds[k])) && forall i :: 0 <= i < n ==> ds[i] <= ds[k]
    decreases n
  {
    var cs := Finites(ds);
    assert cs[..n][..n - 1] == cs[..n - 1];
    if n == 1 {
      k := 0;
      assert Worst(cs[..0]) == Constant();
    } else {
      k := WorstFinite(ds, n - 1);
      if ds[k] < ds[n - 1] { k := n - 1; }
    }
  }

  /** The classification of a system is what one of its expressions attains and none passes. */
  lemma SystemAttained(F: Functions, kind: nat -> Kind, zero: nat, fold: (nat, seq<nat>) -> Option<nat>, A: Arena,
                       exprs: seq<nat>, base: Env<real>, dir: Env<real>, vars: set<nat>)
    returns (k: nat, d: nat, p: seq<real>)
    requires ArenaOk(A) && exprs != [] && forall i :: 0 <= i < |exprs| ==> exprs[i] < |A.nodes|
    requires forall i :: 0 <= i < |exprs| ==> Rising(F, kind, A, base, dir, vars, exprs[i])
    ensures k < |exprs| && |p| == d + 1 && p[d] > 0.0
    ensures forall t: real ::
              Eval(RealWorld(F, kind, zero, fold), A, LineThrough(base, dir, vars)(t), exprs[k]) == At(p, t)
    ensures Worst(ClassesIn(ClassWorld(kind, zero, fold), A, LeafClasses(vars), exprs, |A.nodes|)) ==
            Nonlinearity(if d <= U32_MAX then Finite(d) else Unbounded, {}, false, false, false)
  {
    hide LineThrough, At, Rising, Worst;
    var W, C := RealWorld(F, kind, zero, fold), ClassWorld(kind, zero, fold);
    var line, env := LineThrough(base, dir, vars), LeafClasses(vars);
    var ds: seq<nat>, ps: seq<seq<real>> := [], [];
    for i := 0 to |exprs|
      invariant |ds| == |ps| == i && forall j :: 0 <= j < i ==>
                  && Leading(ps[j], ds[j]) && Traces(W, A, line, exprs[j], ps[j])
                  && ClassIn(C, A, env, exprs[j]) == Pure(Checked(ds[j]))
    {
      var a, q := DegreeAttained(F, kind, zero, fold, A, base, dir, vars, exprs[i]);
      RisingCallsNothing(F, kind, C, A, base, dir, vars, env, exprs[i]);
      ClosedIs(C, A, env, exprs[i]);
      ds, ps := ds + [a], ps + [q];
    }
    k := WorstFinite(ds, |ds|);
    d, p := ds[k], ps[k];
    var classes := ClassesIn(C, A, env, exprs, |A.nodes|);
    assert classes == Finites(ds) == Finites(ds)[..|ds|];
    assert Traces(W, A, line, exprs[k], p);
  }
}
