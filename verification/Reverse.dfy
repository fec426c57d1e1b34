/** The reverse sweep: every adjoint in one walk of a node's cone against the order of its
    operands. What it keeps is the inner product of the adjoints with the derivatives of
    the nodes still to be visited. */
module ReverseMode {
  import opened Basics
  import opened Graphs
  import opened Tangents
  import opened Rules
  import FM = ForwardMode

  /** The inner product of two lists. */
  function Inner(xs: seq<real>, ys: seq<real>): real
    requires |xs| == |ys|
  {
    if xs == [] then 0.0
    else
      var n := |xs| - 1;
      Inner(xs[..n], ys[..n]) + Prod(xs[n], ys[n])
  }

  // --- what a node passes on --------------------------------------------------------------------

  /** The terms pushed to operands, in order: an operand without one gets none. */
  function PushesOf(os: seq<nat>, ts: seq<Option<nat>>): seq<(nat, nat)>
    requires |os| == |ts|
  {
    if os == [] then []
    else
      var n := |os| - 1;
      PushesOf(os[..n], ts[..n]) + (match ts[n] case Some(t) => [(os[n], t)] case None => [])
  }

  ghost predicate PushesIn(h: seq<Node>, g: seq<Node>, pushes: seq<(nat, nat)>) {
    forall i :: 0 <= i < |pushes| ==> pushes[i].0 < |g| && pushes[i].1 < |h|
  }

  /** The pushed terms times the derivatives of what they are pushed to. */
  ghost function Contribution(h: seq<Node>, g: seq<Node>, p: Point, j: nat, pushes: seq<(nat, nat)>): real
    requires Ok(h) && Ok(g) && PushesIn(h, g, pushes)
  {
    if pushes == [] then 0.0
    else
      var n := |pushes| - 1;
      Contribution(h, g, p, j, pushes[..n]) + Prod(Eval(h, p, pushes[n].1), Tan(g, p, j, pushes[n].0))
  }

  /** A node's adjoint passed on loses nothing: what its operands gain, weighed by their
      derivatives, is the adjoint weighed by the node's own. */
  ghost predicate Flows(h: seq<Node>, g: seq<Node>, pushes: seq<(nat, nat)>, bar: nat, e: nat, wanted: set<nat>)
    requires Ok(h) && Ok(g)
  {
    && PushesIn(h, g, pushes) && bar < |h| && e < |g|
    && forall p: Point, j :: j in wanted ==> Contribution(h, g, p, j, pushes) == Prod(Eval(h, p, bar), Tan(g, p, j, e))
  }

  ghost predicate TermsIn(h: seq<Node>, g: seq<Node>, os: seq<nat>, ts: seq<Option<nat>>) {
    |os| == |ts| && forall i :: 0 <= i < |os| ==> os[i] < |g| && (ts[i].Some? ==> ts[i].value < |h|)
  }

  /** What stands by each operand: its term's value, or an operand that does not move. */
  ghost predicate TermsAre(h: seq<Node>, g: seq<Node>, p: Point, j: nat, os: seq<nat>, ts: seq<Option<nat>>,
                           coef: seq<real>)
    requires Ok(h) && Ok(g) && TermsIn(h, g, os, ts)
  {
    && |os| == |coef|
    && forall i :: 0 <= i < |os| ==>
         && (ts[i].Some? ==> Eval(h, p, ts[i].value) == coef[i])
         && (ts[i].None? ==> Tan(g, p, j, os[i]) == 0.0)
  }

  lemma {:induction false} PushesAreIn(h: seq<Node>, g: seq<Node>, os: seq<nat>, ts: seq<Option<nat>>)
    requires TermsIn(h, g, os, ts)
    ensures PushesIn(h, g, PushesOf(os, ts)) && Below(os, |g|)
  {
    if os != [] {
      var n := |os| - 1;
      PushesAreIn(h, g, os[..n], ts[..n]);
      assert forall o :: o in os ==> o in os[..n] || o == os[n];
    }
  }

  lemma {:induction false} ContributionIs(h: seq<Node>, g: seq<Node>, p: Point, j: nat, os: seq<nat>,
                                          ts: seq<Option<nat>>, coef: seq<real>)
    requires Ok(h) && Ok(g) && TermsIn(h, g, os, ts) && TermsAre(h, g, p, j, os, ts, coef)
    ensures PushesIn(h, g, PushesOf(os, ts)) && Below(os, |g|)
    ensures Contribution(h, g, p, j, PushesOf(os, ts)) == Inner(coef, Tans(g, p, j, os))
  {
    hide Eval, Tan, Ok, Prod;
    PushesAreIn(h, g, os, ts);
    if os != [] {
      var n := |os| - 1;
      PushesAreIn(h, g, os[..n], ts[..n]);
      ContributionIs(h, g, p, j, os[..n], ts[..n], coef[..n]);
      assert Tans(g, p, j, os)[..n] == Tans(g, p, j, os[..n]);
      if ts[n].Some? {
        var pushes := PushesOf(os, ts);
        assert pushes[..|pushes| - 1] == PushesOf(os[..n], ts[..n]);
      } else {
        assert PushesOf(os, ts) == PushesOf(os[..n], ts[..n]);
        ProdZero(coef[n]);
      }
    }
  }

  lemma ProdZero(x: real)
    ensures Prod(x, 0.0) == 0.0 && Prod(0.0, x) == 0.0
  {
  }

  lemma Inner1(c: real, d: real)
    ensures Inner([c], [d]) == Prod(c, d)
  {
    hide Prod;
    assert [c][..0] == [] && [d][..0] == [];
  }

  lemma Inner2(c0: real, c1: real, d0: real, d1: real)
    ensures Inner([c0, c1], [d0, d1]) == Prod(c0, d0) + Prod(c1, d1)
  {
    hide Prod;
    Inner1(c0, d0);
    assert [c0, c1][..1] == [c0] && [d0, d1][..1] == [d0];
  }

  /** Whether an operand moves, known from the activity of the cone. */
  ghost predicate ActiveOk(g: seq<Node>, os: seq<nat>, act: nat -> bool, wanted: set<nat>)
    requires Ok(g)
  {
    forall c, j :: c in os && !act(c) && j in wanted ==> FM.Unmoved(g, c, j)
  }

  lemma StillAt(g: seq<Node>, os: seq<nat>, act: nat -> bool, wanted: set<nat>, c: nat, p: Point, j: nat)
    requires Ok(g) && ActiveOk(g, os, act, wanted) && c in os && !act(c) && j in wanted
    ensures c < |g| && Tan(g, p, j, c) == 0.0
  {
    assert FM.Unmoved(g, c, j);
  }

  // --- the adjoint rules ----------------------------------------------------------------------------

  /** A term stands by an operand: its value, or the operand does not move. */
  ghost predicate TermAt(h: seq<Node>, g: seq<Node>, p: Point, j: nat, o: nat, t: Option<nat>, c: real)
    requires Ok(h) && Ok(g)
  {
    && o < |g|
    && (t.Some? ==> t.value < |h| && Eval(h, p, t.value) == c)
    && (t.None? ==> Tan(g, p, j, o) == 0.0)
  }

  lemma Flows1(h: seq<Node>, g: seq<Node>, p: Point, j: nat, x: nat, t: Option<nat>, c: real)
    requires Ok(h) && Ok(g) && TermAt(h, g, p, j, x, t, c)
    ensures x < |g| && PushesIn(h, g, PushesOf([x], [t]))
    ensures Contribution(h, g, p, j, PushesOf([x], [t])) == Prod(c, Tan(g, p, j, x))
  {
    hide Eval, Tan, Ok, Prod, Contribution;
    ContributionIs(h, g, p, j, [x], [t], [c]);
    assert Tans(g, p, j, [x]) == [Tan(g, p, j, x)];
    Inner1(c, Tan(g, p, j, x));
  }

  lemma Flows2(h: seq<Node>, g: seq<Node>, p: Point, j: nat, x: nat, y: nat, tx: Option<nat>, ty: Option<nat>,
               cx: real, cy: real)
    requires Ok(h) && Ok(g) && TermAt(h, g, p, j, x, tx, cx) && TermAt(h, g, p, j, y, ty, cy)
    ensures x < |g| && y < |g| && PushesIn(h, g, PushesOf([x, y], [tx, ty]))
    ensures Contribution(h, g, p, j, PushesOf([x, y], [tx, ty])) ==
            Prod(cx, Tan(g, p, j, x)) + Prod(cy, Tan(g, p, j, y))
  {
    hide Eval, Tan, Ok, Prod, Contribution;
    var os, ts, coef := [x, y], [tx, ty], [cx, cy];
    assert os[0] == x && os[1] == y && ts[0] == tx && ts[1] == ty && coef[0] == cx && coef[1] == cy;
    ContributionIs(h, g, p, j, os, ts, coef);
    var d := Tans(g, p, j, os);
    assert d == [Tan(g, p, j, x), Tan(g, p, j, y)];
    Inner2(cx, cy, Tan(g, p, j, x), Tan(g, p, j, y));
  }

  lemma PairIn(h: seq<Node>, g: seq<Node>, x: nat, y: nat, tx: Option<nat>, ty: Option<nat>)
    requires x < |g| && y < |g| && (tx.Some? ==> tx.value < |h|) && (ty.Some? ==> ty.value < |h|)
    ensures PushesIn(h, g, PushesOf([x, y], [tx, ty]))
  {
    var os, ts := [x, y], [tx, ty];
    assert os[0] == x && os[1] == y && ts[0] == tx && ts[1] == ty;
    PushesAreIn(h, g, os, ts);
  }

  lemma OneIn(h: seq<Node>, g: seq<Node>, x: nat, t: Option<nat>)
    requires x < |g| && (t.Some? ==> t.value < |h|)
    ensures PushesIn(h, g, PushesOf([x], [t]))
  {
    PushesAreIn(h, g, [x], [t]);
  }

  /** `bar` scaled: what a rule's coefficients stand for. */
  lemma Scaled2(bar: real, u: real, v: real, dx: real, dy: real)
    ensures Prod(Prod(bar, u), dx) + Prod(Prod(bar, v), dy) == Prod(bar, Prod(u, dx) + Prod(v, dy))
  {
  }

  lemma Scaled1(bar: real, u: real, dx: real)
    ensures Prod(Prod(bar, u), dx) == Prod(bar, Prod(u, dx))
  {
  }

  ghost predicate TermIs(h: seq<Node>, t: Option<nat>, moves: bool, n: Node)
    requires Ok(h)
  {
    if moves then t.Some? && Worth(h, t.value, n) else t.None?
  }

  /** Two operands, each with a term `bar * slope` where it moves. */
  lemma Rule2(h: seq<Node>, g: seq<Node>, e: nat, bar: nat, x: nat, y: nat, tx: Option<nat>, ty: Option<nat>,
              act: nat -> bool, wanted: set<nat>, u: Point -> real, v: Point -> real)
    requires Ok(g) && Grown(g, h) && e < |g| && bar < |h| && x < |g| && y < |g| && ActiveOk(g, [x, y], act, wanted)
    requires if act(x) then tx.Some? && tx.value < |h| && forall p: Point ::
             Eval(h, p, tx.value) == Prod(Eval(h, p, bar), u(p)) else tx.None?
    requires if act(y) then ty.Some? && ty.value < |h| && forall p: Point ::
             Eval(h, p, ty.value) == Prod(Eval(h, p, bar), v(p)) else ty.None?
    requires forall p: Point, j :: j in wanted ==>
             Tan(g, p, j, e) == Prod(u(p), Tan(g, p, j, x)) + Prod(v(p), Tan(g, p, j, y))
    ensures Flows(h, g, PushesOf([x, y], [tx, ty]), bar, e, wanted)
  {
    hide Eval, Tan, Ok, FM.Unmoved, Contribution, Prod;
    PairIn(h, g, x, y, tx, ty);
    forall p: Point, j | j in wanted
      ensures Contribution(h, g, p, j, PushesOf([x, y], [tx, ty])) == Prod(Eval(h, p, bar), Tan(g, p, j, e))
    {
      if !act(x) { StillAt(g, [x, y], act, wanted, x, p, j); }
      if !act(y) { StillAt(g, [x, y], act, wanted, y, p, j); }
      var a := Eval(h, p, bar);
      Flows2(h, g, p, j, x, y, tx, ty, Prod(a, u(p)), Prod(a, v(p)));
      Scaled2(a, u(p), v(p), Tan(g, p, j, x), Tan(g, p, j, y));
    }
  }

  /** One operand, its term `bar * slope`. */
  lemma Rule1(h: seq<Node>, g: seq<Node>, e: nat, bar: nat, x: nat, t: nat, wanted: set<nat>, u: Point -> real)
    requires Ok(g) && Grown(g, h) && e < |g| && bar < |h| && x < |g|
    requires t < |h| && forall p: Point :: Eval(h, p, t) == Prod(Eval(h, p, bar), u(p))
    requires forall p: Point, j :: j in wanted ==> Tan(g, p, j, e) == Prod(u(p), Tan(g, p, j, x))
    ensures Flows(h, g, PushesOf([x], [Some(t)]), bar, e, wanted)
  {
    hide Eval, Tan, Ok, FM.Unmoved, Contribution, Prod;
    OneIn(h, g, x, Some(t));
    forall p: Point, j | j in wanted
      ensures Contribution(h, g, p, j, PushesOf([x], [Some(t)])) == Prod(Eval(h, p, bar), Tan(g, p, j, e))
    {
      var a := Eval(h, p, bar);
      Flows1(h, g, p, j, x, Some(t), Prod(a, u(p)));
      Scaled1(a, u(p), Tan(g, p, j, x));
    }
  }

  function Scale(a: real, u: seq<real>): (r: seq<real>)
    ensures |r| == |u| && forall i :: 0 <= i < |u| ==> r[i] == Prod(a, u[i])
  {
    seq(|u|, i requires 0 <= i < |u| => Prod(a, u[i]))
  }

  lemma {:induction false} InnerScaled(a: real, u: seq<real>, d: seq<real>)
    requires |u| == |d|
    ensures Inner(Scale(a, u), d) == Prod(a, Inner(u, d))
  {
    if u == [] {
      ProdZero(a);
    } else {
      var n := |u| - 1;
      InnerScaled(a, u[..n], d[..n]);
      assert Scale(a, u)[..n] == Scale(a, u[..n]);
      Scaled2(a, 1.0, u[n], Inner(u[..n], d[..n]), d[n]);
      ProdOne(a);
      ProdOne(Inner(u[..n], d[..n]));
    }
  }

  lemma ProdOne(a: real)
    ensures Prod(a, 1.0) == a && Prod(1.0, a) == a
  {
  }

  /** `t` is `bar` times the `i`th slope, or its operand does not move. */
  ghost predicate SlopeTerm(h: seq<Node>, bar: nat, t: Option<nat>, moves: bool, i: nat, u: Point -> seq<real>)
    requires Ok(h) && bar < |h|
  {
    if moves then t.Some? && t.value < |h| && forall p: Point ::
        i < |u(p)| && Eval(h, p, t.value) == Prod(Eval(h, p, bar), u(p)[i])
    else t.None?
  }

  lemma SlopeTermGrown(g: seq<Node>, h: seq<Node>, bar: nat, t: Option<nat>, moves: bool, i: nat, u: Point -> seq<real>)
    requires Ok(g) && Grown(g, h) && bar < |g| && SlopeTerm(g, bar, t, moves, i, u)
    ensures SlopeTerm(h, bar, t, moves, i, u)
  {
    hide Eval, Prod;
    if moves {
      forall p: Point ensures i < |u(p)| && Eval(h, p, t.value) == Prod(Eval(h, p, bar), u(p)[i]) {
        EvalGrown(g, h, p, bar);
        EvalGrown(g, h, p, t.value);
      }
    }
  }

  /** A list of operands, each with a term `bar * slope` where it moves. */
  lemma RuleList(h: seq<Node>, g: seq<Node>, e: nat, bar: nat, os: seq<nat>, ts: seq<Option<nat>>,
                 act: nat -> bool, wanted: set<nat>, u: Point -> seq<real>)
    requires Ok(g) && Grown(g, h) && e < |g| && bar < |h| && Below(os, |g|) && ActiveOk(g, os, act, wanted)
             && |ts| == |os|
    requires forall i :: 0 <= i < |os| ==> SlopeTerm(h, bar, ts[i], act(os[i]), i, u)
    requires forall p: Point, j :: j in wanted ==> |u(p)| == |os| && Tan(g, p, j, e) == Inner(u(p), Tans(g, p, j, os))
    ensures Flows(h, g, PushesOf(os, ts), bar, e, wanted)
  {
    hide Eval, Tan, Ok, FM.Unmoved, Contribution, Prod, Inner, PushesOf;
    forall i | 0 <= i < |os| ensures os[i] < |g| && (ts[i].Some? ==> ts[i].value < |h|) {
      assert os[i] in os;
      assert SlopeTerm(h, bar, ts[i], act(os[i]), i, u);
    }
    PushesAreIn(h, g, os, ts);
    forall p: Point, j | j in wanted
      ensures Contribution(h, g, p, j, PushesOf(os, ts)) == Prod(Eval(h, p, bar), Tan(g, p, j, e))
    {
      var a := Eval(h, p, bar);
      var coef := Scale(a, u(p));
      forall i | 0 <= i < |os|
        ensures (ts[i].Some? ==> Eval(h, p, ts[i].value) == coef[i]) && (ts[i].None? ==> Tan(g, p, j, os[i]) == 0.0)
      {
        assert SlopeTerm(h, bar, ts[i], act(os[i]), i, u);
        assert os[i] in os;
        if !act(os[i]) { StillAt(g, os, act, wanted, os[i], p, j); }
      }
      ContributionIs(h, g, p, j, os, ts, coef);
      InnerScaled(a, u(p), Tans(g, p, j, os));
    }
  }

  // --- one node's adjoint, by its kind ------------------------------------------------------------------

  /** A term where an operand moves. */
  method TermFor(g: Graph, n: Node, moves: bool) returns (t: Option<nat>)
    requires g.Valid() && NodeOk(n, |g.nodes|)
    modifies g
    ensures g.Valid() && Grown(old(g.nodes), g.nodes) && TermIs(g.nodes, t, moves, n)
  {
    hide Worth, Ok;
    t := None;
    if moves { var r := g.Build(n); t := Some(r); }
  }

  lemma TermIsGrown(g: seq<Node>, h: seq<Node>, t: Option<nat>, moves: bool, n: Node)
    requires Ok(g) && Grown(g, h) && TermIs(g, t, moves, n)
    ensures TermIs(h, t, moves, n)
  {
    hide Worth;
    if moves { WorthGrown(g, h, t.value, n); }
  }

  lemma OperandIn(g: seq<Node>, e: nat, o: nat)
    requires Ok(g) && e < |g| && o in Operands(g[e])
    ensures o < e
  {
    assert NodeOk(g[e], e);
  }

  lemma AddFlows(h: seq<Node>, g: seq<Node>, e: nat, x: nat, y: nat, bar: nat, act: nat -> bool, wanted: set<nat>)
    requires Ok(g) && Grown(g, h) && e < |g| && g[e] == Add(x, y) && bar < |h| && ActiveOk(g, [x, y], act, wanted)
    ensures Flows(h, g, PushesOf([x, y], [if act(x) then Some(bar) else None, if act(y) then Some(bar) else None]),
                  bar, e, wanted)
  {
    hide Eval, Tan, Ok, FM.Unmoved, Prod, PushesOf;
    OperandIn(g, e, x);
    OperandIn(g, e, y);
    forall p: Point ensures Prod(Eval(h, p, bar), 1.0) == Eval(h, p, bar) { ProdOne(Eval(h, p, bar)); }
    forall p: Point, j | j in wanted
      ensures Tan(g, p, j, e) == Prod(1.0, Tan(g, p, j, x)) + Prod(1.0, Tan(g, p, j, y))
    {
      Tan2(g, e, x, y, p, j);
      ProdOne(Tan(g, p, j, x));
      ProdOne(Tan(g, p, j, y));
    }
    Rule2(h, g, e, bar, x, y, if act(x)
          then Some(bar) else None, if act(y) then Some(bar) else None, act, wanted, _ => 1.0, _ => 1.0);
  }

  lemma MulFlows(h: seq<Node>, g: seq<Node>, e: nat, x: nat, y: nat, bar: nat, tx: Option<nat>, ty: Option<nat>,
                 act: nat -> bool, wanted: set<nat>)
    requires Ok(g) && Grown(g, h) && e < |g| && g[e] == Mul(x, y) && bar < |h| && ActiveOk(g, [x, y], act, wanted)
    requires TermIs(h, tx, act(x), Mul(bar, y)) && TermIs(h, ty, act(y), Mul(bar, x))
    ensures Flows(h, g, PushesOf([x, y], [tx, ty]), bar, e, wanted)
  {
    hide Eval, Tan, Ok, FM.Unmoved, PushesOf, Worth;
    OperandIn(g, e, x);
    OperandIn(g, e, y);
    if act(x) { TimesIs(h, g, bar, y, tx.value); }
    if act(y) { TimesIs(h, g, bar, x, ty.value); }
    forall p: Point, j | j in wanted
      ensures Tan(g, p, j, e) == Prod(Eval(g, p, y), Tan(g, p, j, x)) + Prod(Eval(g, p, x), Tan(g, p, j, y))
    {
      Tan2(g, e, x, y, p, j);
    }
    Rule2(h, g, e, bar, x, y, tx, ty, act, wanted, (p: Point) => Eval(g, p, y), (p: Point) => Eval(g, p, x));
  }

  lemma TimesIs(h: seq<Node>, g: seq<Node>, bar: nat, y: nat, t: nat)
    requires Ok(g) && Grown(g, h) && y < |g| && Worth(h, t, Mul(bar, y))
    ensures bar < |h| && t < |h| && forall p: Point :: Eval(h, p, t) == Prod(Eval(h, p, bar), Eval(g, p, y))
  {
    hide Eval, Ok, Worth;
    WorthAt(h, t, Mul(bar, y));
    forall p: Point ensures bar < |h| && t < |h| && Eval(h, p, t) == Prod(Eval(h, p, bar), Eval(g, p, y)) {
      MulValue(h, t, bar, y, p);
      EvalGrown(g, h, p, y);
    }
    var p := Point(_ => 0.0, (_, _) => 0.0, (_, _, _) => 0.0, (_, _) => 0.0);
    MulValue(h, t, bar, y, p);
  }

  lemma NegFlows(h: seq<Node>, g: seq<Node>, e: nat, x: nat, bar: nat, t: nat, wanted: set<nat>)
    requires Ok(g) && Grown(g, h) && e < |g| && g[e] == Neg(x) && bar < |h| && Worth(h, t, Neg(bar))
    ensures Flows(h, g, PushesOf([x], [Some(t)]), bar, e, wanted)
  {
    hide Eval, Tan, Ok, PushesOf;
    OperandIn(g, e, x);
    WorthAt(h, t, Neg(bar));
    forall p: Point ensures Eval(h, p, t) == Prod(Eval(h, p, bar), -1.0) { Worth1(h, t, Neg(bar), bar, p); }
    forall p: Point, j | j in wanted ensures Tan(g, p, j, e) == Prod(-1.0, Tan(g, p, j, x)) { Tan1(g, e, x, p, j); }
    Rule1(h, g, e, bar, x, t, wanted, _ => -1.0);
  }

  lemma PowFlows(h: seq<Node>, g: seq<Node>, e: nat, x: nat, n: int, bar: nat, coeff: nat, q: nat, cp: nat, t: nat,
                 wanted: set<nat>)
    requires Ok(g) && Grown(g, h) && e < |g| && g[e] == Pow(x, n) && bar < |h|
    requires coeff < |h| && h[coeff] == Const(n as real) && Worth(h, q, Pow(x, n - 1)) && Worth(h, cp, Mul(coeff, q))
    requires Worth(h, t, Mul(bar, cp))
    ensures Flows(h, g, PushesOf([x], [Some(t)]), bar, e, wanted)
  {
    hide Eval, Tan, Ok, PushesOf, Worth;
    OperandIn(g, e, x);
    WorthAt(h, t, Mul(bar, cp));
    var u := (p: Point) => FM.PowSlope(p, Eval(g, p, x), n);
    forall p: Point ensures Eval(h, p, t) == Prod(Eval(h, p, bar), u(p)) {
      MulValue(h, t, bar, cp, p);
      EvalGrown(g, h, p, x);
      FM.PowFactor(h, p, x, n, coeff, q, cp);
    }
    forall p: Point, j | j in wanted ensures Tan(g, p, j, e) == Prod(u(p), Tan(g, p, j, x)) { Tan1(g, e, x, p, j); }
    Rule1(h, g, e, bar, x, t, wanted, u);
  }

  lemma UnFlows(h: seq<Node>, g: seq<Node>, e: nat, op: UnOp, x: nat, bar: nat, f: nat, t: nat, wanted: set<nat>)
    requires Ok(g) && Grown(g, h) && e < |g| && g[e] == Un(op, x) && bar < |h|
    requires Worth(h, f, Un(Slope(op), x)) && Worth(h, t, Mul(bar, f))
    ensures Flows(h, g, PushesOf([x], [Some(t)]), bar, e, wanted)
  {
    hide Eval, Tan, Ok, PushesOf, Worth;
    OperandIn(g, e, x);
    WorthAt(h, t, Mul(bar, f));
    var u := (p: Point) => p.un(Slope(op), Eval(g, p, x));
    forall p: Point ensures Eval(h, p, t) == Prod(Eval(h, p, bar), u(p)) {
      MulValue(h, t, bar, f, p);
      Worth1(h, f, Un(Slope(op), x), x, p);
      EvalGrown(g, h, p, x);
    }
    forall p: Point, j | j in wanted ensures Tan(g, p, j, e) == Prod(u(p), Tan(g, p, j, x)) { Tan1(g, e, x, p, j); }
    Rule1(h, g, e, bar, x, t, wanted, u);
  }

  /** A binary function's partial at its arguments. */
  ghost function PartialAt(g: seq<Node>, op: BinOp, second: bool, x: nat, y: nat): Point -> real
    requires Ok(g) && x < |g| && y < |g|
  {
    (p: Point) => p.bin(Partial(op, second), Eval(g, p, x), Eval(g, p, y))
  }

  lemma PartialTermIs(h: seq<Node>, g: seq<Node>, op: BinOp, second: bool, x: nat, y: nat, bar: nat, pa: nat, t: nat)
    requires Ok(g) && Grown(g, h) && x < |g| && y < |g| && Worth(h, pa, Bin(Partial(op, second), x, y))
             && Worth(h, t, Mul(bar, pa))
    ensures bar < |h| && t < |h| && forall p: Point ::
            Eval(h, p, t) == Prod(Eval(h, p, bar), PartialAt(g, op, second, x, y)(p))
  {
    hide Eval, Ok, Worth;
    MulAt(h, t, bar, pa);
    forall p: Point ensures Eval(h, p, t) == Prod(Eval(h, p, bar), PartialAt(g, op, second, x, y)(p)) {
      MulValue(h, t, bar, pa, p);
      BinValue(h, pa, Partial(op, second), x, y, p);
      EvalGrown(g, h, p, x);
      EvalGrown(g, h, p, y);
    }
  }

  lemma MulAt(h: seq<Node>, t: nat, a: nat, b: nat)
    requires Ok(h) && Worth(h, t, Mul(a, b))
    ensures t < |h| && a < |h| && b < |h|
  {
    assert a in Operands(Mul(a, b)) && b in Operands(Mul(a, b));
  }

  lemma BinFlows(h: seq<Node>, g: seq<Node>, e: nat, op: BinOp, x: nat, y: nat, bar: nat, pa: nat, pb: nat,
                 tx: Option<nat>, ty: Option<nat>, act: nat -> bool, wanted: set<nat>)
    requires Ok(g) && Grown(g, h) && e < |g| && g[e] == Bin(op, x, y) && bar < |h| && ActiveOk(g, [x, y], act, wanted)
    requires act(x) ==> Worth(h, pa, Bin(Partial(op, false), x, y))
    requires act(y) ==> Worth(h, pb, Bin(Partial(op, true), x, y))
    requires TermIs(h, tx, act(x), Mul(bar, pa)) && TermIs(h, ty, act(y), Mul(bar, pb))
    ensures Flows(h, g, PushesOf([x, y], [tx, ty]), bar, e, wanted)
  {
    hide Eval, Tan, Ok, FM.Unmoved, PushesOf, Worth;
    OperandIn(g, e, x);
    OperandIn(g, e, y);
    if act(x) { PartialTermIs(h, g, op, false, x, y, bar, pa, tx.value); }
    if act(y) { PartialTermIs(h, g, op, true, x, y, bar, pb, ty.value); }
    forall p: Point, j | j in wanted
      ensures Tan(g, p, j, e) ==
              Prod(PartialAt(g, op, false, x, y)(p), Tan(g, p, j, x))
                  + Prod(PartialAt(g, op, true, x, y)(p), Tan(g, p, j, y))
    {
      Tan2(g, e, x, y, p, j);
    }
    Rule2(h, g, e, bar, x, y, tx, ty, act, wanted, PartialAt(g, op, false, x, y), PartialAt(g, op, true, x, y));
  }

  /** Whether a select's condition holds, as a coefficient. */
  ghost function Taken(g: seq<Node>, c: nat, yes: bool): Point -> real
    requires Ok(g) && c < |g|
  {
    (p: Point) => if (Eval(g, p, c) != 0.0) == yes then 1.0 else 0.0
  }

  lemma TakenIs(h: seq<Node>, g: seq<Node>, c: nat, bar: nat, zero: nat, yes: bool, t: nat)
    requires Ok(g) && Grown(g, h) && c < |g| && zero < |h| && h[zero] == Const(0.0) && bar < |h|
    requires Worth(h, t, if yes then Select(c, bar, zero) else Select(c, zero, bar))
    ensures t < |h| && forall p: Point :: Eval(h, p, t) == Prod(Eval(h, p, bar), Taken(g, c, yes)(p))
  {
    hide Eval, Ok;
    var n := if yes then Select(c, bar, zero) else Select(c, zero, bar);
    WorthAt(h, t, n);
    forall p: Point ensures Eval(h, p, t) == Prod(Eval(h, p, bar), Taken(g, c, yes)(p)) {
      if yes { Worth3(h, t, n, c, bar, zero, p); } else { Worth3(h, t, n, c, zero, bar, p); }
      ConstIs(h, p, zero);
      EvalGrown(g, h, p, c);
    }
  }

  lemma SelectFlows(h: seq<Node>, g: seq<Node>, e: nat, c: nat, x: nat, y: nat, bar: nat, zero: nat, tx: Option<nat>,
                    ty: Option<nat>,
                    act: nat -> bool, wanted: set<nat>)
    requires Ok(g) && Grown(g, h) && e < |g| && g[e] == Select(c, x, y) && bar < |h| && ActiveOk(g, [x, y], act, wanted)
    requires zero < |h| && h[zero] == Const(0.0)
    requires TermIs(h, tx, act(x), Select(c, bar, zero)) && TermIs(h, ty, act(y), Select(c, zero, bar))
    ensures Flows(h, g, PushesOf([x, y], [tx, ty]), bar, e, wanted)
  {
    hide Eval, Tan, Ok, FM.Unmoved, PushesOf, Worth;
    OperandIn(g, e, c);
    OperandIn(g, e, x);
    OperandIn(g, e, y);
    if act(x) { TakenIs(h, g, c, bar, zero, true, tx.value); }
    if act(y) { TakenIs(h, g, c, bar, zero, false, ty.value); }
    forall p: Point, j | j in wanted
      ensures Tan(g, p, j, e) == Prod(Taken(g, c, true)(p), Tan(g, p, j, x))
              + Prod(Taken(g, c, false)(p), Tan(g, p, j, y))
    {
      Tan3(g, e, c, x, y, p, j);
    }
    Rule2(h, g, e, bar, x, y, tx, ty, act, wanted, Taken(g, c, true), Taken(g, c, false));
  }

  // --- lists ------------------------------------------------------------------------------------------

  function Ones(n: nat): (r: seq<real>)
    ensures |r| == n && forall i :: 0 <= i < n ==> r[i] == 1.0
  {
    seq(n, _ => 1.0)
  }

  lemma {:induction false} InnerOnes(d: seq<real>)
    ensures Inner(Ones(|d|), d) == SumOf(d)
  {
    hide Prod;
    if d != [] {
      var n := |d| - 1;
      InnerOnes(d[..n]);
      assert Ones(|d|)[..n] == Ones(n);
      ProdOne(d[n]);
    }
  }

  function Bars(os: seq<nat>, bar: nat, act: nat -> bool): (r: seq<Option<nat>>)
    ensures |r| == |os| && forall i :: 0 <= i < |os| ==> r[i] == if act(os[i]) then Some(bar) else None
  {
    seq(|os|, i requires 0 <= i < |os| => if act(os[i]) then Some(bar) else None)
  }

  lemma SumFlows(h: seq<Node>, g: seq<Node>, e: nat, args: seq<nat>, bar: nat, act: nat -> bool, wanted: set<nat>)
    requires Ok(g) && Grown(g, h) && e < |g| && g[e] == Reduce(Sum, args) && bar < |h| && ActiveOk(g, args, act, wanted)
    ensures Flows(h, g, PushesOf(args, Bars(args, bar, act)), bar, e, wanted)
  {
    hide Eval, Tan, Ok, FM.Unmoved, PushesOf, Prod, Inner, SumOf;
    assert Below(args, |g|) by { forall o | o in args ensures o < |g| { OperandIn(g, e, o); } }
    var u := (p: Point) => Ones(|args|);
    forall i | 0 <= i < |args| ensures SlopeTerm(h, bar, Bars(args, bar, act)[i], act(args[i]), i, u) {
      forall p: Point ensures Prod(Eval(h, p, bar), 1.0) == Eval(h, p, bar) { ProdOne(Eval(h, p, bar)); }
    }
    forall p: Point, j | j in wanted ensures Tan(g, p, j, e) == Inner(u(p), Tans(g, p, j, args)) {
      TanList(g, e, p, j);
      InnerOnes(Tans(g, p, j, args));
    }
    RuleList(h, g, e, bar, args, Bars(args, bar, act), act, wanted, u);
  }

  function AllOthers(v: seq<real>): (r: seq<real>)
    ensures |r| == |v| && forall i :: 0 <= i < |v| ==> r[i] == Others(v, i)
  {
    seq(|v|, i requires 0 <= i < |v| => Others(v, i))
  }

  lemma {:induction false} InnerOthers(v: seq<real>, d: seq<real>, n: nat)
    requires n <= |v| == |d|
    ensures Inner(AllOthers(v)[..n], d[..n]) == CoSum(v, d, n)
  {
    hide Others;
    if n > 0 {
      InnerOthers(v, d, n - 1);
      assert AllOthers(v)[..n][..n - 1] == AllOthers(v)[..n - 1] && d[..n][..n - 1] == d[..n - 1];
    }
  }

  /** The cofactors of a product at a point. */
  ghost function OthersAt(g: seq<Node>, args: seq<nat>): Point -> seq<real>
    requires Ok(g) && Below(args, |g|)
  {
    (p: Point) => AllOthers(Evals(g, p, args))
  }

  lemma ProductTermIs(h: seq<Node>, g: seq<Node>, args: seq<nat>, i: nat, bar: nat, other: nat, t: nat)
    requires Ok(g) && Grown(g, h) && Below(args, |g|) && i < |args| && bar < |h|
    requires Cofactor(h, args, i, other) && Worth(h, t, Mul(bar, other))
    ensures SlopeTerm(h, bar, Some(t), true, i, OthersAt(g, args))
  {
    hide Eval, Ok, Worth, Others;
    MulAt(h, t, bar, other);
    forall p: Point
      ensures i < |OthersAt(g, args)(p)| && Eval(h, p, t) == Prod(Eval(h, p, bar), OthersAt(g, args)(p)[i])
    {
      MulValue(h, t, bar, other, p);
      EvalsGrown(g, h, p, args);
    }
  }

  lemma ProductFlows(h: seq<Node>, g: seq<Node>, e: nat, args: seq<nat>, bar: nat, ts: seq<Option<nat>>,
                     act: nat -> bool, wanted: set<nat>)
    requires Ok(g) && Grown(g, h) && e < |g| && g[e] == Reduce(Product, args) && bar < |h|
             && ActiveOk(g, args, act, wanted)
    requires |ts| == |args| && Below(args, |g|)
             && forall i :: 0 <= i < |args| ==> SlopeTerm(h, bar, ts[i], act(args[i]), i, OthersAt(g, args))
    ensures Flows(h, g, PushesOf(args, ts), bar, e, wanted)
  {
    hide Eval, Tan, Ok, FM.Unmoved, PushesOf, Prod, Inner, SumOf, SlopeTerm, CoSum, ProductTan, Others;
    forall p: Point, j | j in wanted
      ensures |OthersAt(g, args)(p)| == |args| && Tan(g, p, j, e) == Inner(OthersAt(g, args)(p), Tans(g, p, j, args))
    {
      TanList(g, e, p, j);
      var v, d := Evals(g, p, args), Tans(g, p, j, args);
      CofactorRule(v, d);
      InnerOthers(v, d, |v|);
      assert AllOthers(v)[..|v|] == AllOthers(v) && d[..|v|] == d;
    }
    RuleList(h, g, e, bar, args, ts, act, wanted, OthersAt(g, args));
  }

  // --- minima and maxima ----------------------------------------------------------------------------

  /** Whether term `k` takes over from the running extremum, as 0 or 1; the first does. */
  function CondOf(op: ReduceOp, v: seq<real>, k: nat): real
    requires k < |v|
  {
    if k == 0 || Beats(op, v[k], ExtremumOf(op, v[..k])) then 1.0 else 0.0
  }

  /** That no later term takes over. */
  function TailOf(op: ReduceOp, v: seq<real>, i: nat): real
    requires i < |v|
    decreases |v| - i
  {
    if i + 1 == |v| then 1.0 else Prod(TailOf(op, v, i + 1), 1.0 - CondOf(op, v, i + 1))
  }

  function CoefsOf(op: ReduceOp, v: seq<real>): (r: seq<real>)
    ensures |r| == |v| && forall i :: 0 <= i < |v| ==> r[i] == Prod(CondOf(op, v, i), TailOf(op, v, i))
  {
    seq(|v|, i requires 0 <= i < |v| => Prod(CondOf(op, v, i), TailOf(op, v, i)))
  }

  lemma CondMore(op: ReduceOp, v: seq<real>, x: real, k: nat)
    requires k < |v|
    ensures CondOf(op, v + [x], k) == CondOf(op, v, k)
  {
    assert (v + [x])[..k] == v[..k] && (v + [x])[k] == v[k];
  }

  lemma {:induction false} TailMore(op: ReduceOp, v: seq<real>, x: real, i: nat)
    requires i < |v|
    ensures TailOf(op, v + [x], i) == Prod(TailOf(op, v, i), 1.0 - CondOf(op, v + [x], |v|))
    decreases |v| - i
  {
    hide CondOf;
    var w := v + [x];
    if i + 1 == |v| {
      assert TailOf(op, w, i + 1) == 1.0;
    } else {
      TailMore(op, v, x, i + 1);
      CondMore(op, v, x, i + 1);
      ProdSwap(TailOf(op, v, i + 1), 1.0 - CondOf(op, w, |v|), 1.0 - CondOf(op, v, i + 1));
    }
  }

  lemma ProdSwap(a: real, b: real, c: real)
    ensures Prod(Prod(a, b), c) == Prod(Prod(a, c), b)
  {
  }

  /** The 0/1 coefficients pick the derivative of the first extremal term: the select chain
      of the forward rule. */
  lemma {:induction false} CoefsPick(op: ReduceOp, v: seq<real>, d: seq<real>)
    requires |v| == |d| > 0
    ensures Inner(CoefsOf(op, v), d) == ExtremumTan(op, v, d)
    decreases |v|
  {
    var n := |v| - 1;
    var front, x := v[..n], v[n];
    assert v == front + [x];
    if n == 0 {
      Inner1(1.0, d[0]);
      assert CoefsOf(op, v) == [1.0] && d == [d[0]];
      ProdOne(d[0]);
    } else {
      hide CondOf, Prod, TailOf, ExtremumOf, ExtremumTan, Beats;
      CoefsPick(op, front, d[..n]);
      FrontCoefs(op, front, x);
      InnerScaled(1.0 - CondOf(op, v, n), CoefsOf(op, front), d[..n]);
      LastCoef(op, v, d, n);
    }
  }

  lemma FrontCoefs(op: ReduceOp, front: seq<real>, x: real)
    ensures CoefsOf(op, front + [x])[..|front|] == Scale(1.0 - CondOf(op, front + [x], |front|), CoefsOf(op, front))
  {
    hide CondOf, Prod, TailOf;
    var v, n := front + [x], |front|;
    var c := CondOf(op, v, n);
    forall i | 0 <= i < n ensures CoefsOf(op, v)[i] == Scale(1.0 - c, CoefsOf(op, front))[i] {
      CondMore(op, front, x, i);
      TailMore(op, front, x, i);
      ProdAssoc(CondOf(op, front, i), TailOf(op, front, i), 1.0 - c);
    }
  }

  lemma ProdAssoc(a: real, b: real, c: real)
    ensures Prod(a, Prod(b, c)) == Prod(c, Prod(a, b))
  {
  }

  lemma LastCoef(op: ReduceOp, v: seq<real>, d: seq<real>, n: nat)
    requires |v| == |d| == n + 1 && n > 0
    ensures ExtremumTan(op, v, d) ==
            Prod(1.0 - CondOf(op, v, n), ExtremumTan(op, v[..n], d[..n])) + Prod(CoefsOf(op, v)[n], d[n])
  {
    hide ExtremumOf;
    assert TailOf(op, v, n) == 1.0;
    ProdOne(CondOf(op, v, n));
  }

  ghost function CondAt(g: seq<Node>, op: ReduceOp, args: seq<nat>, k: nat): Point -> real
    requires Ok(g) && Below(args, |g|) && k < |args|
  { (p: Point) => CondOf(op, Evals(g, p, args), k) }

  ghost function TailAt(g: seq<Node>, op: ReduceOp, args: seq<nat>, i: nat): Point -> real
    requires Ok(g) && Below(args, |g|) && i < |args|
  { (p: Point) => TailOf(op, Evals(g, p, args), i) }

  ghost function ExtremumAt(g: seq<Node>, op: ReduceOp, args: seq<nat>, k: nat): Point -> real
    requires Ok(g) && Below(args, |g|) && 0 < k <= |args|
  { (p: Point) => ExtremumOf(op, Evals(g, p, args)[..k]) }

  ghost function CoefsAt(g: seq<Node>, op: ReduceOp, args: seq<nat>): Point -> seq<real>
    requires Ok(g) && Below(args, |g|)
  { (p: Point) => CoefsOf(op, Evals(g, p, args)) }

  lemma CondNext(h: seq<Node>, g: seq<Node>, op: ReduceOp, args: seq<nat>, k: nat, m: nat, c: nat, m2: nat)
    requires Ok(g) && Grown(g, h) && Below(args, |g|) && 0 < k < |args| && (op.Min? || op.Max?)
    requires Equals(h, m, ExtremumAt(g, op, args, k))
    requires Worth(h, c, Cmp(FM.Asks(op), args[k], m)) && Worth(h, m2, Reduce(op, [m, args[k]]))
    ensures Equals(h, c, CondAt(g, op, args, k)) && Equals(h, m2, ExtremumAt(g, op, args, k + 1))
  {
    hide Eval, Ok, ExtremumOf, ReduceOf;
    WorthAt(h, c, Cmp(FM.Asks(op), args[k], m));
    WorthAt(h, m2, Reduce(op, [m, args[k]]));
    assert args[k] in args;
    forall p: Point
      ensures Eval(h, p, c) == CondAt(g, op, args, k)(p)
      ensures Eval(h, p, m2) == ExtremumAt(g, op, args, k + 1)(p)
    {
      Worth2(h, c, Cmp(FM.Asks(op), args[k], m), args[k], m, p);
      Worth2(h, m2, Reduce(op, [m, args[k]]), m, args[k], p);
      FM.Extremum2(op, Eval(h, p, m), Eval(h, p, args[k]));
      EvalGrown(g, h, p, args[k]);
      var v := Evals(g, p, args);
      FM.ExtremumStep(op, v, v, k);
    }
  }

  lemma TailNext(h: seq<Node>, g: seq<Node>, op: ReduceOp, args: seq<nat>, i: nat, one: nat, tail: nat, c: nat,
                 neg: nat, notC: nat, r: nat)
    requires Ok(g) && Grown(g, h) && Below(args, |g|) && 0 < i < |args|
    requires one < |h| && h[one] == Const(1.0) && Equals(h, tail, TailAt(g, op, args, i))
             && Equals(h, c, CondAt(g, op, args, i))
    requires Worth(h, neg, Neg(c)) && Worth(h, notC, Add(one, neg)) && Worth(h, r, Mul(tail, notC))
    ensures Equals(h, r, TailAt(g, op, args, i - 1))
  {
    hide Eval, Ok, Worth, CondOf;
    MulAt(h, r, tail, notC);
    forall p: Point ensures Eval(h, p, r) == TailAt(g, op, args, i - 1)(p) {
      MulValue(h, r, tail, notC, p);
      AddValue(h, notC, one, neg, p);
      Worth1(h, neg, Neg(c), c, p);
      ConstIs(h, p, one);
    }
  }

  lemma CoefTermIs(h: seq<Node>, g: seq<Node>, op: ReduceOp, args: seq<nat>, i: nat, bar: nat, c: nat, tail: nat,
                   coef: nat, t: nat)
    requires Ok(g) && Grown(g, h) && Below(args, |g|) && i < |args| && bar < |h|
    requires Equals(h, c, CondAt(g, op, args, i)) && Equals(h, tail, TailAt(g, op, args, i))
    requires Worth(h, coef, Mul(c, tail)) && Worth(h, t, Mul(bar, coef))
    ensures SlopeTerm(h, bar, Some(t), true, i, CoefsAt(g, op, args))
  {
    hide Eval, Ok, Worth, CondOf, TailOf;
    MulAt(h, t, bar, coef);
    forall p: Point
      ensures i < |CoefsAt(g, op, args)(p)| && Eval(h, p, t) == Prod(Eval(h, p, bar), CoefsAt(g, op, args)(p)[i]) {
      MulValue(h, coef, c, tail, p);
      MulValue(h, t, bar, coef, p);
    }
  }

  lemma ExtremumFlows(h: seq<Node>, g: seq<Node>, e: nat, op: ReduceOp, args: seq<nat>, bar: nat, ts: seq<Option<nat>>,
                      act: nat -> bool, wanted: set<nat>)
    requires Ok(g) && Grown(g, h) && e < |g| && g[e] == Reduce(op, args) && (op.Min? || op.Max?) && bar < |h|
             && ActiveOk(g, args, act, wanted)
    requires |ts| == |args| > 0 && Below(args, |g|)
    requires forall i :: 0 <= i < |args| ==> SlopeTerm(h, bar, ts[i], act(args[i]), i, CoefsAt(g, op, args))
    ensures Flows(h, g, PushesOf(args, ts), bar, e, wanted)
  {
    hide Eval, Tan, Ok, FM.Unmoved, PushesOf, Prod, Inner, SumOf, SlopeTerm, ExtremumTan;
    forall p: Point, j | j in wanted
      ensures |CoefsAt(g, op, args)(p)| == |args| && Tan(g, p, j, e) ==
              Inner(CoefsAt(g, op, args)(p), Tans(g, p, j, args))
    {
      TanList(g, e, p, j);
      CoefsPick(op, Evals(g, p, args), Tans(g, p, j, args));
    }
    RuleList(h, g, e, bar, args, ts, act, wanted, CoefsAt(g, op, args));
  }

  // --- dots ---------------------------------------------------------------------------------------------

  /** Two lists, an element of one after the same of the other. */
  function Weave<T>(a: seq<T>, b: seq<T>): (r: seq<T>)
    requires |a| == |b|
    ensures |r| == 2 * |a| && forall k :: 0 <= k < |a| ==> r[2 * k] == a[k] && r[2 * k + 1] == b[k]
  {
    if a == [] then []
    else
      var n := |a| - 1;
      Weave(a[..n], b[..n]) + [a[n], b[n]]
  }

  lemma {:induction false} InnerWeave(u: seq<real>, w: seq<real>, x: seq<real>, y: seq<real>)
    requires |u| == |w| == |x| == |y|
    ensures Inner(Weave(u, w), Weave(x, y)) == Inner(u, x) + Inner(w, y)
  {
    hide Prod;
    if u != [] {
      var n := |u| - 1;
      InnerWeave(u[..n], w[..n], x[..n], y[..n]);
      var a, b := Weave(u[..n], w[..n]), Weave(x[..n], y[..n]);
      InnerTwo(a, b, u[n], w[n], x[n], y[n]);
    }
  }

  lemma InnerTwo(a: seq<real>, b: seq<real>, u: real, w: real, x: real, y: real)
    requires |a| == |b|
    ensures Inner(a + [u, w], b + [x, y]) == Inner(a, b) + Prod(u, x) + Prod(w, y)
  {
    hide Prod;
    var n := |a|;
    assert (a + [u, w])[..n + 1] == a + [u] && (b + [x, y])[..n + 1] == b + [x];
    assert (a + [u])[..n] == a && (b + [x])[..n] == b;
  }

  lemma {:induction false} DotTanIs(v: seq<real>, dx: seq<real>, w: seq<real>, dy: seq<real>, n: nat)
    requires n <= |v| == |dx| == |w| == |dy|
    ensures SumOf(seq(n, i requires 0 <= i < n => dx[i] * w[i] + v[i] * dy[i])) ==
            Inner(w[..n], dx[..n]) + Inner(v[..n], dy[..n])
  {
    if n > 0 {
      DotTanIs(v, dx, w, dy, n - 1);
      var s := seq(n, i requires 0 <= i < n => dx[i] * w[i] + v[i] * dy[i]);
      assert s[..n - 1] == seq(n - 1, i requires 0 <= i < n - 1 => dx[i] * w[i] + v[i] * dy[i]);
      assert w[..n][..n - 1] == w[..n - 1] && dx[..n][..n - 1] == dx[..n - 1];
      assert v[..n][..n - 1] == v[..n - 1] && dy[..n][..n - 1] == dy[..n - 1];
      assert Prod(w[n - 1], dx[n - 1]) == dx[n - 1] * w[n - 1] && Prod(v[n - 1], dy[n - 1]) == v[n - 1] * dy[n - 1];
    }
  }

  ghost function DotSlopes(g: seq<Node>, xs: seq<nat>, ys: seq<nat>): Point -> seq<real>
    requires Ok(g) && Below(xs, |g|) && Below(ys, |g|) && |xs| == |ys|
  { (p: Point) => Weave(Evals(g, p, ys), Evals(g, p, xs)) }

  lemma DotTermIs(h: seq<Node>, g: seq<Node>, xs: seq<nat>, ys: seq<nat>, k: nat, bar: nat, tx: Option<nat>,
                  ty: Option<nat>, act: nat -> bool)
    requires Ok(g) && Grown(g, h) && Below(xs, |g|) && Below(ys, |g|) && |xs| == |ys| && k < |xs| && bar < |h|
    requires TermIs(h, tx, act(xs[k]), Mul(bar, ys[k])) && TermIs(h, ty, act(ys[k]), Mul(bar, xs[k]))
    ensures SlopeTerm(h, bar, tx, act(xs[k]), 2 * k, DotSlopes(g, xs, ys))
    ensures SlopeTerm(h, bar, ty, act(ys[k]), 2 * k + 1, DotSlopes(g, xs, ys))
  {
    hide Eval, Ok, Worth, Prod;
    assert xs[k] in xs && ys[k] in ys;
    if act(xs[k]) { TimesIs(h, g, bar, ys[k], tx.value); }
    if act(ys[k]) { TimesIs(h, g, bar, xs[k], ty.value); }
  }

  lemma DotFlows(h: seq<Node>, g: seq<Node>, e: nat, xs: seq<nat>, ys: seq<nat>, bar: nat, ts: seq<Option<nat>>,
                 act: nat -> bool, wanted: set<nat>)
    requires Ok(g) && Grown(g, h) && e < |g| && g[e] == Dot(xs, ys) && |xs| == |ys| && bar < |h|
    requires ActiveOk(g, xs + ys, act, wanted) && Below(xs, |g|) && Below(ys, |g|) && |ts| == 2 * |xs|
    requires forall i :: 0 <= i < |ts| ==> SlopeTerm(h, bar, ts[i], act(Weave(xs, ys)[i]), i, DotSlopes(g, xs, ys))
    ensures Flows(h, g, PushesOf(Weave(xs, ys), ts), bar, e, wanted)
  {
    hide Eval, Tan, Ok, FM.Unmoved, PushesOf, Prod, Inner, SumOf, SlopeTerm, Weave;
    var os := Weave(xs, ys);
    assert Below(os, |g|) && ActiveOk(g, os, act, wanted) by { WeaveIn(g, xs, ys, act, wanted); }
    forall p: Point, j | j in wanted
      ensures |DotSlopes(g, xs, ys)(p)| == |os| && Tan(g, p, j, e) == Inner(DotSlopes(g, xs, ys)(p), Tans(g, p, j, os))
    {
      TanList(g, e, p, j);
      FM.DotParts(g, xs, ys, j, p);
      var v, w, dx, dy := Evals(g, p, xs), Evals(g, p, ys), Tans(g, p, j, xs), Tans(g, p, j, ys);
      DotTanIs(v, dx, w, dy, |v|);
      assert v[..|v|] == v && w[..|v|] == w && dx[..|v|] == dx && dy[..|v|] == dy;
      InnerWeave(w, v, dx, dy);
      TansWeave(g, p, j, xs, ys);
    }
    RuleList(h, g, e, bar, os, ts, act, wanted, DotSlopes(g, xs, ys));
  }

  lemma WeaveIn(g: seq<Node>, xs: seq<nat>, ys: seq<nat>, act: nat -> bool, wanted: set<nat>)
    requires Ok(g) && |xs| == |ys| && Below(xs, |g|) && Below(ys, |g|) && ActiveOk(g, xs + ys, act, wanted)
    ensures Below(Weave(xs, ys), |g|) && ActiveOk(g, Weave(xs, ys), act, wanted)
  {
    hide FM.Unmoved, Ok;
    WeaveFrom(xs, ys);
  }

  lemma {:induction false} WeaveFrom(xs: seq<nat>, ys: seq<nat>)
    requires |xs| == |ys|
    ensures forall o :: o in Weave(xs, ys) ==> o in xs || o in ys
  {
    if xs != [] { WeaveFrom(xs[..|xs| - 1], ys[..|xs| - 1]); }
  }

  lemma {:induction false} TansWeave(g: seq<Node>, p: Point, j: nat, xs: seq<nat>, ys: seq<nat>)
    requires Ok(g) && |xs| == |ys| && Below(xs, |g|) && Below(ys, |g|) && Below(Weave(xs, ys), |g|)
    ensures Tans(g, p, j, Weave(xs, ys)) == Weave(Tans(g, p, j, xs), Tans(g, p, j, ys))
  {
    hide Tan, Ok, Weave;
    if xs == [] {
      assert Weave<nat>([], []) == [] && Weave<real>([], []) == [] by { WeaveNone(); }
    } else {
      var n := |xs| - 1;
      var front := Weave(xs[..n], ys[..n]);
      WeaveStep(xs, ys);
      BelowFront(xs, |g|);
      BelowFront(ys, |g|);
      assert Below(front, |g|) by { assert forall o :: o in front ==> o in Weave(xs, ys); }
      TansWeave(g, p, j, xs[..n], ys[..n]);
      assert Tans(g, p, j, xs)[..n] == Tans(g, p, j, xs[..n]) && Tans(g, p, j, ys)[..n] == Tans(g, p, j, ys[..n]);
      WeaveStep(Tans(g, p, j, xs), Tans(g, p, j, ys));
      TansTwo(g, p, j, front, xs[n], ys[n]);
    }
  }

  lemma WeaveNone()
    ensures Weave<nat>([], []) == [] && Weave<real>([], []) == []
  {
  }

  lemma WeaveStep<T>(a: seq<T>, b: seq<T>)
    requires |a| == |b| > 0
    ensures Weave(a, b) == Weave(a[..|a| - 1], b[..|a| - 1]) + [a[|a| - 1], b[|a| - 1]]
  {
  }

  lemma BelowFront(os: seq<nat>, n: nat)
    requires Below(os, n) && os != []
    ensures Below(os[..|os| - 1], n) && os[|os| - 1] < n
  {
    var m := |os| - 1;
    assert os[m] in os;
    forall o | o in os[..m] ensures o < n {
      var k :| 0 <= k < m && os[k] == o;
      assert os[k] in os;
    }
  }

  lemma TansTwo(g: seq<Node>, p: Point, j: nat, os: seq<nat>, x: nat, y: nat)
    requires Ok(g) && Below(os, |g|) && x < |g| && y < |g| && Below(os + [x, y], |g|)
    ensures Tans(g, p, j, os + [x, y]) == Tans(g, p, j, os) + [Tan(g, p, j, x), Tan(g, p, j, y)]
  {
    hide Tan, Ok, Below;
  }

  // --- one node of the sweep ----------------------------------------------------------------------------

  /** What a node's sweep is given: the graph it was built over, the adjoint, the activity. */
  ghost predicate Given(g: Graph, g0: seq<Node>, e: nat, bar: nat, act: nat -> bool, wanted: set<nat>)
    reads g
  {
    && g.Valid() && Ok(g0) && Grown(g0, g.nodes) && e < |g0| && bar < |g.nodes|
    && ActiveOk(g0, Carrying(g0[e]), act, wanted)
  }

  /** Two terms, each where its operand moves. */
  method TwoTerms(g: Graph, x: Node, y: Node, mx: bool, my: bool) returns (tx: Option<nat>, ty: Option<nat>)
    requires g.Valid() && NodeOk(x, |g.nodes|) && NodeOk(y, |g.nodes|)
    modifies g
    ensures g.Valid() && Grown(old(g.nodes), g.nodes) && TermIs(g.nodes, tx, mx, x) && TermIs(g.nodes, ty, my, y)
  {
    hide Worth, Ok, TermIs;
    tx := TermFor(g, x, mx);
    ghost var h := g.nodes;
    FM.NodeGrown(y, h);
    ty := TermFor(g, y, my);
    TermIsGrown(h, g.nodes, tx, mx, x);
  }

  method SweepMul(g: Graph, ghost g0: seq<Node>, e: nat, x: nat, y: nat, bar: nat, act: nat -> bool,
                  ghost wanted: set<nat>)
    returns (ts: seq<Option<nat>>)
    requires Given(g, g0, e, bar, act, wanted) && g0[e] == Mul(x, y)
    modifies g
    ensures g.Valid() && Grown(old(g.nodes), g.nodes) && |ts| == 2
            && Flows(g.nodes, g0, PushesOf([x, y], ts), bar, e, wanted)
  {
    hide Worth, TermIs, Flows, PushesOf, ActiveOk;
    OperandIn(g0, e, x);
    OperandIn(g0, e, y);
    hide Ok;
    var tx, ty := TwoTerms(g, Mul(bar, y), Mul(bar, x), act(x), act(y));
    MulFlows(g.nodes, g0, e, x, y, bar, tx, ty, act, wanted);
    ts := [tx, ty];
  }

  method SweepNeg(g: Graph, ghost g0: seq<Node>, e: nat, x: nat, bar: nat, act: nat -> bool, ghost wanted: set<nat>)
    returns (ts: seq<Option<nat>>)
    requires Given(g, g0, e, bar, act, wanted) && g0[e] == Neg(x)
    modifies g
    ensures g.Valid() && Grown(old(g.nodes), g.nodes) && |ts| == 1
            && Flows(g.nodes, g0, PushesOf([x], ts), bar, e, wanted)
  {
    hide Worth, Flows, PushesOf, ActiveOk, Ok;
    var t := g.Build(Neg(bar));
    NegFlows(g.nodes, g0, e, x, bar, t, wanted);
    ts := [Some(t)];
  }

  method SweepPow(g: Graph, ghost g0: seq<Node>, e: nat, x: nat, n: int, bar: nat, act: nat -> bool,
                  ghost wanted: set<nat>)
    returns (ts: seq<Option<nat>>)
    requires Given(g, g0, e, bar, act, wanted) && g0[e] == Pow(x, n)
    modifies g
    ensures g.Valid() && Grown(old(g.nodes), g.nodes) && |ts| == 1
            && Flows(g.nodes, g0, PushesOf([x], ts), bar, e, wanted)
  {
    hide Graph.Valid, Worth, Flows, PushesOf, ActiveOk;
    OperandIn(g0, e, x);
    hide Ok;
    var coeff, q, cp := FM.PowSlopeOf(g, x, n);
    ghost var h := g.nodes;
    WorthAt(h, cp, Mul(coeff, q));
    var t := g.Build(Mul(bar, cp));
    WorthGrown(h, g.nodes, q, Pow(x, n - 1));
    WorthGrown(h, g.nodes, cp, Mul(coeff, q));
    PowFlows(g.nodes, g0, e, x, n, bar, coeff, q, cp, t, wanted);
    ts := [Some(t)];
  }

  method SweepUn(g: Graph, ghost g0: seq<Node>, e: nat, op: UnOp, x: nat, bar: nat, act: nat -> bool,
                 ghost wanted: set<nat>)
    returns (ts: seq<Option<nat>>)
    requires Given(g, g0, e, bar, act, wanted) && g0[e] == Un(op, x)
    modifies g
    ensures g.Valid() && Grown(old(g.nodes), g.nodes) && |ts| == 1
            && Flows(g.nodes, g0, PushesOf([x], ts), bar, e, wanted)
  {
    hide Graph.Valid, Worth, Flows, PushesOf, ActiveOk, Derives, Equals;
    OperandIn(g0, e, x);
    hide Ok;
    var f := UnaryFactor(g, op, x);
    ghost var h := g.nodes;
    WorthAt(h, f, Un(Slope(op), x));
    var t := g.Build(Mul(bar, f));
    WorthGrown(h, g.nodes, f, Un(Slope(op), x));
    UnFlows(g.nodes, g0, e, op, x, bar, f, t, wanted);
    ts := [Some(t)];
  }

  method SweepBin(g: Graph, ghost g0: seq<Node>, e: nat, op: BinOp, x: nat, y: nat, bar: nat, act: nat -> bool,
                  ghost wanted: set<nat>)
    returns (ts: seq<Option<nat>>)
    requires Given(g, g0, e, bar, act, wanted) && g0[e] == Bin(op, x, y)
    modifies g
    ensures g.Valid() && Grown(old(g.nodes), g.nodes) && |ts| == 2
            && Flows(g.nodes, g0, PushesOf([x, y], ts), bar, e, wanted)
  {
    hide Graph.Valid, Worth, TermIs, Flows, PushesOf, ActiveOk;
    OperandIn(g0, e, x);
    OperandIn(g0, e, y);
    hide Ok;
    var pa, pb := BinaryPartials(g, op, x, y, act(x), act(y));
    ghost var h := g.nodes;
    var tx, ty := TwoTerms(g, Mul(bar, pa), Mul(bar, pb), act(x), act(y));
    if act(x) { WorthGrown(h, g.nodes, pa, Bin(Partial(op, false), x, y)); }
    if act(y) { WorthGrown(h, g.nodes, pb, Bin(Partial(op, true), x, y)); }
    BinFlows(g.nodes, g0, e, op, x, y, bar, pa, pb, tx, ty, act, wanted);
    ts := [tx, ty];
  }

  /** A select passes its adjoint on only by the branch its condition takes. */
  method SweepSelect(g: Graph, ghost g0: seq<Node>, e: nat, c: nat, x: nat, y: nat, bar: nat, zero: nat,
                     act: nat -> bool,
                     ghost wanted: set<nat>)
    returns (ts: seq<Option<nat>>)
    requires Given(g, g0, e, bar, act, wanted) && g0[e] == Select(c, x, y) && zero < |g.nodes|
             && g.nodes[zero] == Const(0.0)
    modifies g
    ensures g.Valid() && Grown(old(g.nodes), g.nodes) && |ts| == 2
            && Flows(g.nodes, g0, PushesOf([x, y], ts), bar, e, wanted)
  {
    hide Graph.Valid, Worth, TermIs, Flows, PushesOf, ActiveOk;
    OperandIn(g0, e, c);
    hide Ok;
    var tx, ty := TwoTerms(g, Select(c, bar, zero), Select(c, zero, bar), act(x), act(y));
    SelectFlows(g.nodes, g0, e, c, x, y, bar, zero, tx, ty, act, wanted);
    ts := [tx, ty];
  }

  method SweepProduct(g: Graph, ghost g0: seq<Node>, e: nat, args: seq<nat>, bar: nat, act: nat -> bool,
                      ghost wanted: set<nat>)
    returns (ts: seq<Option<nat>>)
    requires Given(g, g0, e, bar, act, wanted) && g0[e] == Reduce(Product, args)
    modifies g
    ensures g.Valid() && Grown(old(g.nodes), g.nodes) && |ts| == |args|
            && Flows(g.nodes, g0, PushesOf(args, ts), bar, e, wanted)
  {
    hide Graph.Valid, Worth, Flows, PushesOf, ActiveOk, Cofactor, SlopeTerm, Derives, Equals;
    ghost var was := g.nodes;
    assert Below(args, |g0|) by { forall o | o in args ensures o < |g0| { OperandIn(g0, e, o); } }
    hide Ok;
    BelowGrown(args, g0, g.nodes);
    var others := Cofactors(g, args, seq(|args|, i requires 0 <= i < |args| => act(args[i])));
    ts := [];
    for i := 0 to |args|
      invariant g.Valid() && Grown(was, g.nodes) && |ts| == i
      invariant forall k :: 0 <= k < |args| && act(args[k]) ==>
                others[k].Some? && Cofactor(g.nodes, args, k, others[k].value)
      invariant forall k :: 0 <= k < i ==> SlopeTerm(g.nodes, bar, ts[k], act(args[k]), k, OthersAt(g0, args))
    {
      ghost var h := g.nodes;
      var t := ProductTerm(g, g0, args, i, others[i], bar, act(args[i]));
      FactorsGrown(h, g.nodes, args);
      SlopesGrown(h, g.nodes, bar, ts, args, act, OthersAt(g0, args));
      ts := ts + [t];
    }
    ProductFlows(g.nodes, g0, e, args, bar, ts, act, wanted);
  }

  method ProductTerm(g: Graph, ghost g0: seq<Node>, args: seq<nat>, i: nat, other: Option<nat>, bar: nat, moves: bool)
    returns (t: Option<nat>)
    requires g.Valid() && Ok(g0) && Grown(g0, g.nodes) && Below(args, |g0|) && i < |args| && bar < |g.nodes|
    requires moves ==> other.Some? && Cofactor(g.nodes, args, i, other.value)
    modifies g
    ensures g.Valid() && Grown(old(g.nodes), g.nodes) && SlopeTerm(g.nodes, bar, t, moves, i, OthersAt(g0, args))
  {
    hide Worth, Cofactor, SlopeTerm, Ok;
    ghost var h := g.nodes;
    t := None;
    if moves {
      FM.CofactorAt(h, args, i, other.value);
      var r := g.Build(Mul(bar, other.value));
      FactorsGrown(h, g.nodes, args);
      ProductTermIs(g.nodes, g0, args, i, bar, other.value, r);
      t := Some(r);
    } else {
      NoTerm(g.nodes, bar, i, OthersAt(g0, args));
    }
  }

  lemma NoTerm(h: seq<Node>, bar: nat, i: nat, u: Point -> seq<real>)
    requires Ok(h) && bar < |h|
    ensures SlopeTerm(h, bar, None, false, i, u)
  {
  }

  lemma SlopesGrown(g: seq<Node>, h: seq<Node>, bar: nat, ts: seq<Option<nat>>, os: seq<nat>, act: nat -> bool,
                    u: Point -> seq<real>)
    requires Ok(g) && (g == h || Grown(g, h)) && bar < |g| && |ts| <= |os|
    requires forall k :: 0 <= k < |ts| ==> SlopeTerm(g, bar, ts[k], act(os[k]), k, u)
    ensures Ok(h) && bar < |h| && forall k :: 0 <= k < |ts| ==> SlopeTerm(h, bar, ts[k], act(os[k]), k, u)
  {
    hide SlopeTerm;
    if g != h {
      forall k | 0 <= k < |ts| ensures SlopeTerm(h, bar, ts[k], act(os[k]), k, u) {
        SlopeTermGrown(g, h, bar, ts[k], act(os[k]), k, u);
      }
    }
  }

  /** Which terms of a min or max take over: the comparisons of the forward rule. */
  method Conditions(g: Graph, ghost g0: seq<Node>, op: ReduceOp, args: seq<nat>) returns (conds: seq<nat>)
    requires g.Valid() && Ok(g0) && Grown(g0, g.nodes) && Below(args, |g0|) && args != [] && (op.Min? || op.Max?)
    modifies g
    ensures g.Valid() && Grown(old(g.nodes), g.nodes) && |conds| == |args| - 1
    ensures forall k :: 1 <= k < |args| ==> Equals(g.nodes, conds[k - 1], CondAt(g0, op, args, k))
  {
    hide Worth, Equals, Ok;
    ghost var was := g.nodes;
    conds := [];
    var m: nat := args[0];
    FirstExtremum(g.nodes, g0, op, args);
    for k := 1 to |args|
      invariant g.Valid() && Grown(was, g.nodes) && |conds| == k - 1 && Equals(g.nodes, m, ExtremumAt(g0, op, args, k))
      invariant forall i :: 1 <= i < k ==> Equals(g.nodes, conds[i - 1], CondAt(g0, op, args, i))
    {
      ghost var h := g.nodes;
      var c, m2 := NextCond(g, g0, op, args, k, m);
      forall i | 1 <= i < k ensures Equals(g.nodes, conds[i - 1], CondAt(g0, op, args, i)) {
        EqualsGrown(h, g.nodes, conds[i - 1], CondAt(g0, op, args, i));
      }
      conds, m := conds + [c], m2;
    }
  }

  lemma FirstExtremum(h: seq<Node>, g: seq<Node>, op: ReduceOp, args: seq<nat>)
    requires Ok(g) && Grown(g, h) && Below(args, |g|) && args != []
    ensures args[0] < |g| && Equals(h, args[0], ExtremumAt(g, op, args, 1))
  {
    hide Eval;
    assert args[0] in args;
    forall p: Point ensures Eval(h, p, args[0]) == ExtremumAt(g, op, args, 1)(p) { EvalGrown(g, h, p, args[0]); }
  }

  method NextCond(g: Graph, ghost g0: seq<Node>, op: ReduceOp, args: seq<nat>, k: nat, m: nat) returns (c: nat, m2: nat)
    requires g.Valid() && Ok(g0) && Grown(g0, g.nodes) && Below(args, |g0|) && 0 < k < |args| && (op.Min? || op.Max?)
    requires Equals(g.nodes, m, ExtremumAt(g0, op, args, k))
    modifies g
    ensures g.Valid() && Grown(old(g.nodes), g.nodes)
    ensures Equals(g.nodes, c, CondAt(g0, op, args, k)) && Equals(g.nodes, m2, ExtremumAt(g0, op, args, k + 1))
  {
    hide Worth, Equals, Ok;
    ghost var was := g.nodes;
    EqualsIn(was, m, ExtremumAt(g0, op, args, k));
    assert args[k] in args;
    c := g.Build(Cmp(FM.Asks(op), args[k], m));
    ghost var h := g.nodes;
    m2 := g.Build(Reduce(op, [m, args[k]]));
    WorthGrown(h, g.nodes, c, Cmp(FM.Asks(op), args[k], m));
    EqualsGrown(was, g.nodes, m, ExtremumAt(g0, op, args, k));
    CondNext(g.nodes, g0, op, args, k, m, c, m2);
  }

  lemma EqualsIn(h: seq<Node>, r: nat, F: Point -> real)
    requires Ok(h) && Equals(h, r, F)
    ensures r < |h|
  {
  }

  /** The 0/1 coefficients of a min or max times its adjoint, last term first. */
  method SweepExtremum(g: Graph, ghost g0: seq<Node>, e: nat, op: ReduceOp, args: seq<nat>, bar: nat, act: nat -> bool,
                       ghost wanted: set<nat>)
    returns (ts: seq<Option<nat>>)
    requires Given(g, g0, e, bar, act, wanted) && g0[e] == Reduce(op, args) && (op.Min? || op.Max?) && args != []
    modifies g
    ensures g.Valid() && Grown(old(g.nodes), g.nodes) && |ts| == |args|
            && Flows(g.nodes, g0, PushesOf(args, ts), bar, e, wanted)
  {
    hide Graph.Valid, Worth, Flows, PushesOf, ActiveOk, SlopeTerm, Equals;
    assert Below(args, |g0|) by { forall o | o in args ensures o < |g0| { OperandIn(g0, e, o); } }
    hide Ok, CondAt, TailAt, CoefsAt, Below, CondsAre;
    var conds, one := CoefParts(g, g0, op, args);
    ts := CoefTerms(g, g0, op, args, conds, bar, one, act);
    ExtremumFlows(g.nodes, g0, e, op, args, bar, ts, act, wanted);
  }

  /** The conditions of the coefficients, and the one each is chosen from. */
  method CoefParts(g: Graph, ghost g0: seq<Node>, op: ReduceOp, args: seq<nat>) returns (conds: seq<nat>, one: nat)
    requires g.Valid() && Ok(g0) && Grown(g0, g.nodes) && Below(args, |g0|) && args != [] && (op.Min? || op.Max?)
    modifies g
    ensures g.Valid() && Grown(old(g.nodes), g.nodes) && one < |g.nodes| && g.nodes[one] == Const(1.0)
    ensures CondsAre(g.nodes, g0, op, args, conds) && Equals(g.nodes, one, CondAt(g0, op, args, 0))
    ensures Equals(g.nodes, one, TailAt(g0, op, args, |args| - 1))
  {
    hide Graph.Valid, Ok, Equals, CondAt, TailAt;
    conds := Conditions(g, g0, op, args);
    ghost var mid := g.nodes;
    one := g.Konst(1.0);
    CondsGrown(mid, g.nodes, g0, op, args, conds);
    FirstCond(g.nodes, g0, op, args, one);
  }

  /** The terms of the coefficients, their conditions built. */
  method CoefTerms(g: Graph, ghost g0: seq<Node>, op: ReduceOp, args: seq<nat>, conds: seq<nat>, bar: nat, one: nat,
                   act: nat -> bool)
    returns (ts: seq<Option<nat>>)
    requires g.Valid() && Ok(g0) && Grown(g0, g.nodes) && Below(args, |g0|) && args != [] && bar < |g.nodes|
    requires one < |g.nodes| && g.nodes[one] == Const(1.0)
    requires CondsAre(g.nodes, g0, op, args, conds) && Equals(g.nodes, one, CondAt(g0, op, args, 0))
    requires Equals(g.nodes, one, TailAt(g0, op, args, |args| - 1))
    modifies g
    ensures g.Valid() && Grown(old(g.nodes), g.nodes) && |ts| == |args| && bar < |g.nodes|
    ensures forall k :: 0 <= k < |args| ==> SlopeTerm(g.nodes, bar, ts[k], act(args[k]), k, CoefsAt(g0, op, args))
  {
    hide Graph.Valid, SlopeTerm, Equals, Ok, CondsAre, CondAt, TailAt, CoefsAt, Below;
    ghost var was := g.nodes;
    var tail: nat := one;
    ts := seq(|args|, _ => None);
    var n := |args|;
    for i := n downto 0
      invariant g.Valid() && Grown(was, g.nodes) && |ts| == n && bar < |g.nodes| && one < |g.nodes|
                && g.nodes[one] == Const(1.0)
      invariant CondsAre(g.nodes, g0, op, args, conds) && Equals(g.nodes, one, CondAt(g0, op, args, 0))
      invariant i > 0 ==> Equals(g.nodes, tail, TailAt(g0, op, args, i - 1))
      invariant forall k :: i <= k < n ==> SlopeTerm(g.nodes, bar, ts[k], act(args[k]), k, CoefsAt(g0, op, args))
    {
      ghost var h := g.nodes;
      CondsOf(h, g0, op, args, conds, i);
      var c := if i == 0 then one else conds[i - 1];
      var t, next := CoefStep(g, g0, op, args, i, bar, c, one, tail, act(args[i]));
      CondsGrown(h, g.nodes, g0, op, args, conds);
      EqualsGrown(h, g.nodes, one, CondAt(g0, op, args, 0));
      LaterGrown(h, g.nodes, bar, ts, args, act, i + 1, CoefsAt(g0, op, args));
      ts, tail := ts[i := t], next;
    }
  }

  ghost predicate CondsAre(h: seq<Node>, g: seq<Node>, op: ReduceOp, args: seq<nat>, conds: seq<nat>)
    requires Ok(h) && Ok(g) && Below(args, |g|)
  {
    |conds| == |args| - 1 && forall k :: 1 <= k < |args| ==> Equals(h, conds[k - 1], CondAt(g, op, args, k))
  }

  lemma CondsOf(h: seq<Node>, g: seq<Node>, op: ReduceOp, args: seq<nat>, conds: seq<nat>, i: nat)
    requires Ok(h) && Ok(g) && Below(args, |g|) && CondsAre(h, g, op, args, conds) && i < |args|
    ensures |conds| == |args| - 1 && (i > 0 ==> Equals(h, conds[i - 1], CondAt(g, op, args, i)))
  {
  }

  lemma CondsGrown(h: seq<Node>, h2: seq<Node>, g: seq<Node>, op: ReduceOp, args: seq<nat>, conds: seq<nat>)
    requires Ok(h) && (h2 == h || Grown(h, h2)) && Ok(g) && Below(args, |g|) && CondsAre(h, g, op, args, conds)
    ensures Ok(h2) && CondsAre(h2, g, op, args, conds)
  {
    hide Equals, Ok;
    if h2 != h {
      forall k | 1 <= k < |args| ensures Equals(h2, conds[k - 1], CondAt(g, op, args, k)) {
        EqualsGrown(h, h2, conds[k - 1], CondAt(g, op, args, k));
      }
    }
  }

  lemma LaterGrown(g: seq<Node>, h: seq<Node>, bar: nat, ts: seq<Option<nat>>, os: seq<nat>, act: nat -> bool,
                   from: nat, u: Point -> seq<real>)
    requires Ok(g) && Grown(g, h) && bar < |g| && |ts| == |os|
    requires forall k :: from <= k < |ts| ==> SlopeTerm(g, bar, ts[k], act(os[k]), k, u)
    ensures forall k :: from <= k < |ts| ==> SlopeTerm(h, bar, ts[k], act(os[k]), k, u)
  {
    hide SlopeTerm;
    forall k | from <= k < |ts| ensures SlopeTerm(h, bar, ts[k], act(os[k]), k, u) {
      SlopeTermGrown(g, h, bar, ts[k], act(os[k]), k, u);
    }
  }

  /** The first term takes over; no later one than the last does. */
  lemma FirstCond(h: seq<Node>, g: seq<Node>, op: ReduceOp, args: seq<nat>, one: nat)
    requires Ok(g) && Grown(g, h) && Below(args, |g|) && args != [] && one < |h| && h[one] == Const(1.0)
    ensures Equals(h, one, CondAt(g, op, args, 0)) && Equals(h, one, TailAt(g, op, args, |args| - 1))
  {
    hide Eval;
    forall p: Point ensures Eval(h, p, one) == 1.0 { ConstIs(h, p, one); }
  }

  /** One term's coefficient, where it moves, and the tail before it. */
  method CoefStep(g: Graph, ghost g0: seq<Node>, op: ReduceOp, args: seq<nat>, i: nat, bar: nat, c: nat, one: nat,
                  tail: nat, moves: bool)
    returns (t: Option<nat>, next: nat)
    requires g.Valid() && Ok(g0) && Grown(g0, g.nodes) && Below(args, |g0|) && i < |args| && bar < |g.nodes|
    requires one < |g.nodes| && g.nodes[one] == Const(1.0)
    requires Equals(g.nodes, c, CondAt(g0, op, args, i)) && Equals(g.nodes, tail, TailAt(g0, op, args, i))
    modifies g
    ensures g.Valid() && Grown(old(g.nodes), g.nodes) && SlopeTerm(g.nodes, bar, t, moves, i, CoefsAt(g0, op, args))
    ensures i > 0 ==> Equals(g.nodes, next, TailAt(g0, op, args, i - 1))
  {
    hide Worth, Equals, SlopeTerm, Ok;
    ghost var was := g.nodes;
    t := None;
    if moves {
      t := CoefTerm(g, g0, op, args, i, bar, c, tail);
    } else {
      NoTerm(g.nodes, bar, i, CoefsAt(g0, op, args));
    }
    ghost var h := g.nodes;
    if h != was {
      EqualsGrown(was, h, c, CondAt(g0, op, args, i));
      EqualsGrown(was, h, tail, TailAt(g0, op, args, i));
    }
    next := tail;
    if i > 0 {
      next := TailBefore(g, g0, op, args, i, one, tail, c);
      SlopeTermGrown(h, g.nodes, bar, t, moves, i, CoefsAt(g0, op, args));
    }
  }

  method CoefTerm(g: Graph, ghost g0: seq<Node>, op: ReduceOp, args: seq<nat>, i: nat, bar: nat, c: nat, tail: nat)
    returns (t: Option<nat>)
    requires g.Valid() && Ok(g0) && Grown(g0, g.nodes) && Below(args, |g0|) && i < |args| && bar < |g.nodes|
    requires Equals(g.nodes, c, CondAt(g0, op, args, i)) && Equals(g.nodes, tail, TailAt(g0, op, args, i))
    modifies g
    ensures g.Valid() && Grown(old(g.nodes), g.nodes) && SlopeTerm(g.nodes, bar, t, true, i, CoefsAt(g0, op, args))
  {
    hide Worth, Equals, SlopeTerm, Ok;
    ghost var was := g.nodes;
    EqualsIn(was, c, CondAt(g0, op, args, i));
    EqualsIn(was, tail, TailAt(g0, op, args, i));
    var coef := g.Build(Mul(c, tail));
    ghost var h := g.nodes;
    WorthAt(h, coef, Mul(c, tail));
    var r := g.Build(Mul(bar, coef));
    WorthGrown(h, g.nodes, coef, Mul(c, tail));
    EqualsGrown(was, g.nodes, c, CondAt(g0, op, args, i));
    EqualsGrown(was, g.nodes, tail, TailAt(g0, op, args, i));
    CoefTermIs(g.nodes, g0, op, args, i, bar, c, tail, coef, r);
    t := Some(r);
  }

  /** `tail * (1 - c)`. */
  method TailBefore(g: Graph, ghost g0: seq<Node>, op: ReduceOp, args: seq<nat>, i: nat, one: nat, tail: nat, c: nat)
    returns (next: nat)
    requires g.Valid() && Ok(g0) && Grown(g0, g.nodes) && Below(args, |g0|) && 0 < i < |args|
    requires one < |g.nodes| && g.nodes[one] == Const(1.0)
    requires Equals(g.nodes, c, CondAt(g0, op, args, i)) && Equals(g.nodes, tail, TailAt(g0, op, args, i))
    modifies g
    ensures g.Valid() && Grown(old(g.nodes), g.nodes) && Equals(g.nodes, next, TailAt(g0, op, args, i - 1))
  {
    hide Graph.Valid, Worth, Equals, Ok;
    ghost var was := g.nodes;
    EqualsIn(was, c, CondAt(g0, op, args, i));
    EqualsIn(was, tail, TailAt(g0, op, args, i));
    var neg := g.Build(Neg(c));
    ghost var h1 := g.nodes;
    WorthAt(h1, neg, Neg(c));
    var notC := g.Build(Add(one, neg));
    ghost var h2 := g.nodes;
    WorthAt(h2, notC, Add(one, neg));
    next := g.Build(Mul(tail, notC));
    WorthGrown(h1, g.nodes, neg, Neg(c));
    WorthGrown(h2, g.nodes, notC, Add(one, neg));
    EqualsGrown(was, g.nodes, c, CondAt(g0, op, args, i));
    EqualsGrown(was, g.nodes, tail, TailAt(g0, op, args, i));
    TailNext(g.nodes, g0, op, args, i, one, tail, c, neg, notC, next);
  }

  method SweepDot(g: Graph, ghost g0: seq<Node>, e: nat, xs: seq<nat>, ys: seq<nat>, bar: nat, act: nat -> bool,
                  ghost wanted: set<nat>)
    returns (ts: seq<Option<nat>>)
    requires Given(g, g0, e, bar, act, wanted) && g0[e] == Dot(xs, ys) && |xs| == |ys|
    modifies g
    ensures g.Valid() && Grown(old(g.nodes), g.nodes) && |ts| == 2 * |xs|
    ensures Flows(g.nodes, g0, PushesOf(Weave(xs, ys), ts), bar, e, wanted)
  {
    hide Worth, Flows, PushesOf, ActiveOk, SlopeTerm, TermIs, Weave;
    ghost var was := g.nodes;
    DotOperands(g0, e, xs, ys);
    hide Ok;
    hide SlopesAre;
    ts := [];
    NoSlopes(g.nodes, bar, Weave(xs, ys), act, DotSlopes(g0, xs, ys));
    for k := 0 to |xs|
      invariant g.Valid() && Grown(was, g.nodes) && |ts| == 2 * k && bar < |g.nodes|
      invariant SlopesAre(g.nodes, bar, ts, Weave(xs, ys), act, DotSlopes(g0, xs, ys))
    {
      ts := DotTwo(g, g0, xs, ys, k, bar, ts, act);
    }
    SlopesAll(g.nodes, bar, ts, Weave(xs, ys), act, DotSlopes(g0, xs, ys));
    DotFlows(g.nodes, g0, e, xs, ys, bar, ts, act, wanted);
  }

  ghost predicate SlopesAre(h: seq<Node>, bar: nat, ts: seq<Option<nat>>, os: seq<nat>, act: nat -> bool,
                            u: Point -> seq<real>)
    requires Ok(h) && bar < |h|
  {
    |ts| <= |os| && forall k :: 0 <= k < |ts| ==> SlopeTerm(h, bar, ts[k], act(os[k]), k, u)
  }

  lemma NoSlopes(h: seq<Node>, bar: nat, os: seq<nat>, act: nat -> bool, u: Point -> seq<real>)
    requires Ok(h) && bar < |h|
    ensures SlopesAre(h, bar, [], os, act, u)
  {
  }

  lemma SlopesAll(h: seq<Node>, bar: nat, ts: seq<Option<nat>>, os: seq<nat>, act: nat -> bool, u: Point -> seq<real>)
    requires Ok(h) && bar < |h| && SlopesAre(h, bar, ts, os, act, u)
    ensures |ts| <= |os| && forall k :: 0 <= k < |ts| ==> SlopeTerm(h, bar, ts[k], act(os[k]), k, u)
  {
  }

  /** The terms of one product of a dot. */
  method DotTwo(g: Graph, ghost g0: seq<Node>, xs: seq<nat>, ys: seq<nat>, k: nat, bar: nat, ts: seq<Option<nat>>,
                act: nat -> bool)
    returns (more: seq<Option<nat>>)
    requires g.Valid() && Ok(g0) && Grown(g0, g.nodes) && |xs| == |ys| && Below(xs, |g0|) && Below(ys, |g0|) && k < |xs|
    requires bar < |g.nodes| && |ts| == 2 * k && SlopesAre(g.nodes, bar, ts, Weave(xs, ys), act, DotSlopes(g0, xs, ys))
    modifies g
    ensures g.Valid() && Grown(old(g.nodes), g.nodes) && |more| == |ts| + 2
    ensures SlopesAre(g.nodes, bar, more, Weave(xs, ys), act, DotSlopes(g0, xs, ys))
  {
    hide Graph.Valid, Worth, SlopeTerm, TermIs, Ok;
    ghost var h := g.nodes;
    assert xs[k] in xs && ys[k] in ys;
    var tx, ty := TwoTerms(g, Mul(bar, ys[k]), Mul(bar, xs[k]), act(xs[k]), act(ys[k]));
    SlopesGrown(h, g.nodes, bar, ts, Weave(xs, ys), act, DotSlopes(g0, xs, ys));
    DotTermIs(g.nodes, g0, xs, ys, k, bar, tx, ty, act);
    assert Weave(xs, ys)[2 * k] == xs[k] && Weave(xs, ys)[2 * k + 1] == ys[k];
    more := ts + [tx, ty];
  }

  lemma DotOperands(g: seq<Node>, e: nat, xs: seq<nat>, ys: seq<nat>)
    requires Ok(g) && e < |g| && g[e] == Dot(xs, ys)
    ensures Below(xs, |g|) && Below(ys, |g|)
  {
    forall o | o in xs || o in ys ensures o < |g| { OperandIn(g, e, o); }
  }

  lemma NothingFlows(h: seq<Node>, g: seq<Node>, e: nat, bar: nat, wanted: set<nat>)
    requires Ok(g) && Grown(g, h) && e < |g| && bar < |h| && (g[e].Const? || g[e].Cmp?)
    ensures Flows(h, g, PushesOf([], []), bar, e, wanted)
  {
    hide Eval, Tan, Ok;
    forall p: Point, j | j in wanted ensures Tan(g, p, j, e) == 0.0 { TanList(g, e, p, j); }
    forall p: Point ensures Prod(Eval(h, p, bar), 0.0) == 0.0 { ProdZero(Eval(h, p, bar)); }
  }

  /** The terms of a node that is no symbol, for its operands in push order. */
  method SweepNode(g: Graph, ghost g0: seq<Node>, n: Node, e: nat, bar: nat, zero: nat, act: nat -> bool,
                   ghost wanted: set<nat>)
    returns (os: seq<nat>, ts: seq<Option<nat>>)
    requires Given(g, g0, e, bar, act, wanted) && n == g0[e] && !n.Sym? && zero < |g.nodes|
             && g.nodes[zero] == Const(0.0)
    modifies g
    ensures g.Valid() && Grown(old(g.nodes), g.nodes) && |os| == |ts|
            && Flows(g.nodes, g0, PushesOf(os, ts), bar, e, wanted)
    ensures forall o :: o in os ==> o in Carrying(n)
  {
    hide Flows, PushesOf, ActiveOk;
    assert NodeOk(n, e);
    hide Ok;
    match n
    case Const(_) => os, ts := [], []; NothingFlows(g.nodes, g0, e, bar, wanted);
    case Cmp(_, _, _) => os, ts := [], []; NothingFlows(g.nodes, g0, e, bar, wanted);
    case Add(x, y) =>
      os, ts := [x, y], [if act(x) then Some(bar) else None, if act(y) then Some(bar) else None];
      AddFlows(g.nodes, g0, e, x, y, bar, act, wanted);
    case Mul(x, y) => os := [x, y]; ts := SweepMul(g, g0, e, x, y, bar, act, wanted);
    case Neg(x) => os := [x]; ts := SweepNeg(g, g0, e, x, bar, act, wanted);
    case Pow(x, k) => os := [x]; ts := SweepPow(g, g0, e, x, k, bar, act, wanted);
    case Un(op, x) => os := [x]; ts := SweepUn(g, g0, e, op, x, bar, act, wanted);
    case Bin(op, x, y) => os := [x, y]; ts := SweepBin(g, g0, e, op, x, y, bar, act, wanted);
    case Select(c, x, y) => os := [x, y]; ts := SweepSelect(g, g0, e, c, x, y, bar, zero, act, wanted);
    case Reduce(op, args) => os := args; ts := SweepReduce(g, g0, e, op, args, bar, act, wanted);
    case Dot(xs, ys) =>
      WeaveFrom(xs, ys);
      os := Weave(xs, ys);
      ts := SweepDot(g, g0, e, xs, ys, bar, act, wanted);
  }

  method SweepReduce(g: Graph, ghost g0: seq<Node>, e: nat, op: ReduceOp, args: seq<nat>, bar: nat, act: nat -> bool,
                     ghost wanted: set<nat>)
    returns (ts: seq<Option<nat>>)
    requires Given(g, g0, e, bar, act, wanted) && g0[e] == Reduce(op, args) && (op.Min? || op.Max? ==> args != [])
    modifies g
    ensures g.Valid() && Grown(old(g.nodes), g.nodes) && |ts| == |args|
            && Flows(g.nodes, g0, PushesOf(args, ts), bar, e, wanted)
  {
    hide Flows, PushesOf, ActiveOk, Ok;
    match op
    case Sum => ts := Bars(args, bar, act); SumFlows(g.nodes, g0, e, args, bar, act, wanted);
    case Product => ts := SweepProduct(g, g0, e, args, bar, act, wanted);
    case _ => ts := SweepExtremum(g, g0, e, op, args, bar, act, wanted);
  }

  // --- the cone -----------------------------------------------------------------------------------------

  /** The members of a set below `n`, ascending. */
  function Ascending(s: set<nat>, n: nat): (r: seq<nat>)
    ensures forall i, j :: 0 <= i < j < |r| ==> r[i] < r[j]
    ensures forall i :: 0 <= i < |r| ==> r[i] < n
    ensures forall e :: e in r <==> e in s && e < n
  {
    if n == 0 then [] else Ascending(s, n - 1) + (if n - 1 in s then [n - 1] else [])
  }

  function Upto(n: nat): (r: set<nat>)
    ensures forall e: nat :: e in r <==> e < n
  {
    if n == 0 then {} else Upto(n - 1) + {n - 1}
  }

  /** What a seen node reads is seen, or on the stack. */
  ghost predicate Frontier(g: seq<Node>, seen: set<nat>, stack: seq<nat>) {
    && (forall e :: e in seen ==> e < |g|)
    && forall e, c :: e in seen && c in Carrying(g[e]) ==> c in seen || c in stack
  }

  lemma FrontierPop(g: seq<Node>, seen: set<nat>, stack: seq<nat>)
    requires stack != [] && Frontier(g, seen, stack) && stack[|stack| - 1] in seen
    ensures Frontier(g, seen, stack[..|stack| - 1])
  {
    hide Carrying;
    assert stack == stack[..|stack| - 1] + [stack[|stack| - 1]];
  }

  lemma FrontierNext(g: seq<Node>, seen: set<nat>, stack: seq<nat>, e: nat)
    requires stack != [] && Frontier(g, seen, stack) && e == stack[|stack| - 1] && e < |g|
    ensures Frontier(g, seen + {e}, stack[..|stack| - 1] + Carrying(g[e]))
  {
    hide Carrying;
    assert stack == stack[..|stack| - 1] + [e];
  }

  /** The root's cone, ascending and closed under the operands that carry a derivative. */
  method Cone(g: seq<Node>, root: nat) returns (nodes: seq<nat>)
    requires Ok(g) && root < |g|
    ensures root in nodes && forall i, j :: 0 <= i < j < |nodes| ==> nodes[i] < nodes[j]
    ensures forall e :: e in nodes ==> e < |g| && forall c :: c in Carrying(g[e]) ==> c in nodes && c < e
  {
    hide Ok, Carrying, Frontier;
    var seen: set<nat>, stack: seq<nat> := {}, [root];
    ghost var all := Upto(|g|);
    FrontierNone(g, stack);
    while stack != []
      invariant seen <= all && (root in seen || root in stack) && Below(stack, |g|) && Frontier(g, seen, stack)
      decreases |all - seen|, |stack|
    {
      var e := stack[|stack| - 1];
      var rest := stack[..|stack| - 1];
      assert stack == rest + [e];
      BelowFront(stack, |g|);
      if e in seen {
        FrontierPop(g, seen, stack);
        stack := rest;
      } else {
        FM.CarryingBelow(g, e);
        FrontierNext(g, seen, stack, e);
        assert e in all - seen && all - (seen + {e}) == (all - seen) - {e};
        seen, stack := seen + {e}, rest + Carrying(g[e]);
      }
    }
    nodes := Ascending(seen, |g|);
    FrontierDone(g, seen, nodes);
  }

  lemma FrontierNone(g: seq<Node>, stack: seq<nat>)
    ensures Frontier(g, {}, stack)
  {
  }

  lemma FrontierDone(g: seq<Node>, seen: set<nat>, nodes: seq<nat>)
    requires Ok(g) && Frontier(g, seen, []) && forall e :: e in nodes <==> e in seen && e < |g|
    ensures forall e :: e in nodes ==> e < |g| && forall c :: c in Carrying(g[e]) ==> c in nodes && c < e
  {
    hide Ok, Carrying;
    forall e | e in nodes ensures forall c :: c in Carrying(g[e]) ==> c in nodes && c < e { FM.CarryingBelow(g, e); }
  }

  // --- activity -----------------------------------------------------------------------------------------

  /** The first `n` nodes of a cone that are not active do not depend on a wanted symbol. */
  ghost predicate Activity(g: seq<Node>, nodes: seq<nat>, active: seq<bool>, n: nat, wanted: set<nat>)
    requires Ok(g)
  {
    n <= |nodes| && n <= |active| && forall i, j :: 0 <= i < n && !active[i] && j in wanted ==>
        FM.Unmoved(g, nodes[i], j)
  }

  lemma InactiveStill(g: seq<Node>, e: nat, j: nat)
    requires Ok(g) && e < |g| && g[e] != Sym(j) && forall c :: c in Carrying(g[e]) ==> FM.Unmoved(g, c, j)
    ensures FM.Unmoved(g, e, j)
  {
    hide Eval, Tan, Ok;
    var n := g[e];
    forall p: Point ensures Tan(g, p, j, e) == 0.0 {
      TanList(g, e, p, j);
      var d := Tans(g, p, j, Operands(n));
      forall i | Inert(n) <= i < |d| ensures d[i] == 0.0 {
        assert Carrying(n)[i - Inert(n)] in Carrying(n);
      }
      Still(p, j, n, Evals(g, p, Operands(n)), d);
    }
  }

  lemma Earlier(nodes: seq<nat>, i: nat, k: nat)
    requires forall i, j :: 0 <= i < j < |nodes| ==> nodes[i] < nodes[j]
    requires i < |nodes| && k < |nodes| && nodes[i] < nodes[k]
    ensures i < k
  {
  }

  /** Each node's place in the cone. */
  ghost predicate PlacesOk(nodes: seq<nat>, pos: map<nat, nat>) {
    && (forall i :: 0 <= i < |nodes| ==> nodes[i] in pos && pos[nodes[i]] == i)
    && (forall e :: e in pos ==> pos[e] < |nodes| && nodes[pos[e]] == e)
  }

  method Places(nodes: seq<nat>) returns (pos: map<nat, nat>)
    requires forall i, j :: 0 <= i < j < |nodes| ==> nodes[i] < nodes[j]
    ensures PlacesOk(nodes, pos)
  {
    pos := map[];
    for k := 0 to |nodes|
      invariant forall i :: 0 <= i < k ==> nodes[i] in pos && pos[nodes[i]] == i
      invariant forall e :: e in pos ==> pos[e] < k && nodes[pos[e]] == e
    {
      pos := pos[nodes[k] := k];
    }
  }

  /** A node is active if it is a wanted symbol or has an active operand. */
  method Activities(g: seq<Node>, nodes: seq<nat>, pos: map<nat, nat>, wanted: set<nat>) returns (active: seq<bool>)
    requires Ok(g) && PlacesOk(nodes, pos) && forall i, j :: 0 <= i < j < |nodes| ==> nodes[i] < nodes[j]
    requires forall e :: e in nodes ==> e < |g| && forall c :: c in Carrying(g[e]) ==> c in nodes && c < e
    ensures |active| == |nodes| && Activity(g, nodes, active, |nodes|, wanted)
  {
    hide FM.Unmoved, Ok;
    active := [];
    for k := 0 to |nodes|
      invariant |active| == k && Activity(g, nodes, active, k, wanted)
    {
      var e := nodes[k];
      assert e in nodes;
      forall c | c in Carrying(g[e]) ensures c in pos && pos[c] < k {
        var i :| 0 <= i < |nodes| && nodes[i] == c;
        Earlier(nodes, i, k);
      }
      var a := if g[e].Sym? then g[e].s in wanted else exists c :: c in Carrying(g[e]) && active[pos[c]];
      if !a {
        forall j | j in wanted ensures FM.Unmoved(g, e, j) {
          forall c | c in Carrying(g[e]) ensures FM.Unmoved(g, c, j) { assert FM.Unmoved(g, nodes[pos[c]], j); }
          InactiveStill(g, e, j);
        }
      }
      active := active + [a];
    }
  }

  // --- the inner product ----------------------------------------------------------------------------------

  ghost predicate AdjIn(h: seq<Node>, g: seq<Node>, nodes: seq<nat>, adj: seq<seq<nat>>) {
    && |adj| == |nodes| && Below(nodes, |g|)
    && forall i :: 0 <= i < |adj| ==> Below(adj[i], |h|)
  }

  /** The adjoints of the first `n` nodes of the cone, weighed by the nodes' derivatives. */
  ghost function Total(h: seq<Node>, g: seq<Node>, p: Point, j: nat, nodes: seq<nat>, adj: seq<seq<nat>>, n: nat): real
    requires Ok(h) && Ok(g) && AdjIn(h, g, nodes, adj) && n <= |nodes|
  {
    if n == 0 then 0.0
    else
      assert nodes[n - 1] in nodes;
      Total(h, g, p, j, nodes, adj, n - 1) + Prod(SumOf(Evals(h, p, adj[n - 1])), Tan(g, p, j, nodes[n - 1]))
  }

  /** What the sweep already gave the symbol `j`. */
  ghost function SymPart(h: seq<Node>, p: Point, j: nat, sym: map<nat, nat>): real
    requires Ok(h) && forall s :: s in sym ==> sym[s] < |h|
  {
    if j in sym then Eval(h, p, sym[j]) else 0.0
  }

  /** The sweep's invariant: what the adjoints still to be visited and the symbols already
      visited come to is the derivative of `f`, for every wanted symbol, at every point. */
  ghost predicate Balanced(h: seq<Node>, g: seq<Node>, nodes: seq<nat>, adj: seq<seq<nat>>, n: nat, sym: map<nat, nat>,
                           f: nat, wanted: set<nat>)
  {
    && Ok(h) && Ok(g) && AdjIn(h, g, nodes, adj) && n <= |nodes| && f < |g| && (forall s :: s in sym ==> sym[s] < |h|)
    && forall p: Point, j :: j in wanted ==>
         Total(h, g, p, j, nodes, adj, n) + SymPart(h, p, j, sym) == Tan(g, p, j, f)
  }

  lemma {:induction false} TotalGrown(h: seq<Node>, h2: seq<Node>, g: seq<Node>, p: Point, j: nat, nodes: seq<nat>,
                                      adj: seq<seq<nat>>, n: nat)
    requires Ok(h) && Grown(h, h2) && Ok(g) && AdjIn(h, g, nodes, adj) && n <= |nodes|
    ensures AdjIn(h2, g, nodes, adj) && Total(h2, g, p, j, nodes, adj, n) == Total(h, g, p, j, nodes, adj, n)
  {
    hide Eval, Tan, Ok, Prod, SumOf;
    forall i | 0 <= i < |adj| ensures Below(adj[i], |h2|) { assert Below(adj[i], |h|); }
    if n > 0 {
      TotalGrown(h, h2, g, p, j, nodes, adj, n - 1);
      EvalsGrown(h, h2, p, adj[n - 1]);
    }
  }

  lemma BalancedGrown(h: seq<Node>, h2: seq<Node>, g: seq<Node>, nodes: seq<nat>, adj: seq<seq<nat>>, n: nat,
                      sym: map<nat, nat>,
                      f: nat, wanted: set<nat>)
    requires Balanced(h, g, nodes, adj, n, sym, f, wanted) && Grown(h, h2)
    ensures Balanced(h2, g, nodes, adj, n, sym, f, wanted)
  {
    hide Eval, Tan, Ok, Total;
    assert AdjIn(h2, g, nodes, adj) by {
      forall i | 0 <= i < |adj| ensures Below(adj[i], |h2|) { assert Below(adj[i], |h|); }
    }
    forall p: Point, j | j in wanted
      ensures Total(h2, g, p, j, nodes, adj, n) + SymPart(h2, p, j, sym) == Tan(g, p, j, f)
    {
      TotalGrown(h, h2, g, p, j, nodes, adj, n);
      if j in sym { EvalGrown(h, h2, p, sym[j]); }
    }
  }

  /** A term pushed adds itself times its operand's derivative. */
  lemma {:induction false} TotalPush(h: seq<Node>, g: seq<Node>, p: Point, j: nat, nodes: seq<nat>,
                                     adj: seq<seq<nat>>, i: nat, t: nat, n: nat)
    requires Ok(h) && Ok(g) && AdjIn(h, g, nodes, adj) && n <= |nodes| && i < |nodes| && t < |h|
    ensures AdjIn(h, g, nodes, adj[i := adj[i] + [t]]) && nodes[i] < |g|
    ensures Total(h, g, p, j, nodes, adj[i := adj[i] + [t]], n) ==
            Total(h, g, p, j, nodes, adj, n) + (if i < n then Prod(Eval(h, p, t), Tan(g, p, j, nodes[i])) else 0.0)
  {
    hide Eval, Tan, Ok, Prod;
    var adj' := adj[i := adj[i] + [t]];
    assert nodes[i] in nodes;
    forall k | 0 <= k < |adj'| ensures Below(adj'[k], |h|) { assert Below(adj[k], |h|); }
    if n > 0 {
      TotalPush(h, g, p, j, nodes, adj, i, t, n - 1);
      if i == n - 1 {
        FM.SumMore(h, p, adj[i], t);
        ProdAdd(SumOf(Evals(h, p, adj[i])), Eval(h, p, t), Tan(g, p, j, nodes[i]));
      }
    }
  }

  lemma ProdAdd(a: real, b: real, x: real)
    ensures Prod(a + b, x) == Prod(a, x) + Prod(b, x)
  {
  }

  function Pushed(adj: seq<seq<nat>>, pos: map<nat, nat>, pushes: seq<(nat, nat)>): (r: seq<seq<nat>>)
    requires forall i :: 0 <= i < |pushes| ==> pushes[i].0 in pos && pos[pushes[i].0] < |adj|
    ensures |r| == |adj|
  {
    if pushes == [] then adj
    else
      var n := |pushes| - 1;
      var before := Pushed(adj, pos, pushes[..n]);
      var i := pos[pushes[n].0];
      before[i := before[i] + [pushes[n].1]]
  }

  /** All of a node's terms pushed: the total gains their contribution. */
  lemma {:induction false} TotalPushed(h: seq<Node>, g: seq<Node>, p: Point, j: nat, nodes: seq<nat>,
                                       pos: map<nat, nat>,
                                       adj: seq<seq<nat>>, pushes: seq<(nat, nat)>, n: nat)
    requires Ok(h) && Ok(g) && AdjIn(h, g, nodes, adj) && n <= |nodes| && PushesIn(h, g, pushes) && PlacesOk(nodes, pos)
    requires forall i :: 0 <= i < |pushes| ==> pushes[i].0 in pos && pos[pushes[i].0] < n
    ensures AdjIn(h, g, nodes, Pushed(adj, pos, pushes))
    ensures Total(h, g, p, j, nodes, Pushed(adj, pos, pushes), n) ==
            Total(h, g, p, j, nodes, adj, n) + Contribution(h, g, p, j, pushes)
  {
    hide Eval, Tan, Ok, Prod, Total;
    if pushes != [] {
      var m := |pushes| - 1;
      TotalPushed(h, g, p, j, nodes, pos, adj, pushes[..m], n);
      TotalPush(h, g, p, j, nodes, Pushed(adj, pos, pushes[..m]), pos[pushes[m].0], pushes[m].1, n);
    }
  }

  /** The next node down takes its terms with it. */
  lemma TotalNext(h: seq<Node>, g: seq<Node>, p: Point, j: nat, nodes: seq<nat>, adj: seq<seq<nat>>, k: nat)
    requires Ok(h) && Ok(g) && AdjIn(h, g, nodes, adj) && k < |nodes|
    ensures nodes[k] < |g| && Total(h, g, p, j, nodes, adj, k + 1) ==
            Total(h, g, p, j, nodes, adj, k) + Prod(SumOf(Evals(h, p, adj[k])), Tan(g, p, j, nodes[k]))
  {
    assert nodes[k] in nodes;
  }

  /** A node with no adjoint, or a zero one, is passed over. */
  lemma BalancedSkip(h: seq<Node>, g: seq<Node>, nodes: seq<nat>, adj: seq<seq<nat>>, k: nat, sym: map<nat, nat>,
                     f: nat, wanted: set<nat>)
    requires k < |nodes| && Balanced(h, g, nodes, adj, k + 1, sym, f, wanted)
    requires forall p: Point :: SumOf(Evals(h, p, adj[k])) == 0.0
    ensures Balanced(h, g, nodes, adj, k, sym, f, wanted)
  {
    hide Eval, Tan, Ok, Prod, Total, SumOf;
    forall p: Point, j | j in wanted
      ensures Total(h, g, p, j, nodes, adj, k) + SymPart(h, p, j, sym) == Tan(g, p, j, f)
    {
      TotalNext(h, g, p, j, nodes, adj, k);
      ProdZero(Tan(g, p, j, nodes[k]));
    }
  }

  /** A node's adjoint pushed on to its operands. */
  lemma BalancedPush(h: seq<Node>, g: seq<Node>, nodes: seq<nat>, pos: map<nat, nat>, adj: seq<seq<nat>>, k: nat,
                     sym: map<nat, nat>,
                     f: nat, wanted: set<nat>, bar: nat, pushes: seq<(nat, nat)>)
    requires k < |nodes| && Balanced(h, g, nodes, adj, k + 1, sym, f, wanted) && PlacesOk(nodes, pos)
    requires bar < |h| && forall p: Point :: Eval(h, p, bar) == SumOf(Evals(h, p, adj[k]))
    requires Flows(h, g, pushes, bar, nodes[k], wanted)
    requires forall i :: 0 <= i < |pushes| ==> pushes[i].0 in pos && pos[pushes[i].0] < k
    ensures Balanced(h, g, nodes, Pushed(adj, pos, pushes), k, sym, f, wanted)
  {
    hide Eval, Tan, Ok, Prod, Total, SumOf, Contribution, Pushed, PlacesOk;
    PushedIn(h, g, nodes, pos, adj, pushes, k);
    forall p: Point, j | j in wanted
      ensures Total(h, g, p, j, nodes, Pushed(adj, pos, pushes), k) + SymPart(h, p, j, sym) == Tan(g, p, j, f)
    {
      TotalNext(h, g, p, j, nodes, adj, k);
      TotalPushed(h, g, p, j, nodes, pos, adj, pushes, k);
    }
  }

  lemma {:induction false} PushedIn(h: seq<Node>, g: seq<Node>, nodes: seq<nat>, pos: map<nat, nat>,
                                    adj: seq<seq<nat>>, pushes: seq<(nat, nat)>, n: nat)
    requires AdjIn(h, g, nodes, adj) && n <= |nodes| && PushesIn(h, g, pushes)
    requires forall i :: 0 <= i < |pushes| ==> pushes[i].0 in pos && pos[pushes[i].0] < n
    ensures AdjIn(h, g, nodes, Pushed(adj, pos, pushes))
  {
    if pushes != [] {
      var m := |pushes| - 1;
      PushedIn(h, g, nodes, pos, adj, pushes[..m], n);
      var before := Pushed(adj, pos, pushes[..m]);
      forall k | 0 <= k < |adj| ensures Below(Pushed(adj, pos, pushes)[k], |h|) { assert Below(before[k], |h|); }
    }
  }

  /** A symbol's adjoint is its derivative's share. */
  lemma BalancedSym(h: seq<Node>, g: seq<Node>, nodes: seq<nat>, adj: seq<seq<nat>>, k: nat, sym: map<nat, nat>,
                    f: nat, wanted: set<nat>, bar: nat, s: nat)
    requires k < |nodes| && Balanced(h, g, nodes, adj, k + 1, sym, f, wanted) && nodes[k] < |g|
             && g[nodes[k]] == Sym(s) && s !in sym
    requires bar < |h| && forall p: Point :: Eval(h, p, bar) == SumOf(Evals(h, p, adj[k]))
    ensures Balanced(h, g, nodes, adj, k, sym[s := bar], f, wanted)
  {
    hide Eval, Tan, Ok, Prod, Total, SumOf;
    forall p: Point, j | j in wanted
      ensures Total(h, g, p, j, nodes, adj, k) + SymPart(h, p, j, sym[s := bar]) == Tan(g, p, j, f)
    {
      TotalNext(h, g, p, j, nodes, adj, k);
      TanList(g, nodes[k], p, j);
      ProdOne(Eval(h, p, bar));
      ProdZero(Eval(h, p, bar));
    }
  }

  // --- the sweep --------------------------------------------------------------------------------------------

  lemma {:induction false} PushTargets(os: seq<nat>, ts: seq<Option<nat>>)
    requires |os| == |ts|
    ensures forall i :: 0 <= i < |PushesOf(os, ts)| ==> PushesOf(os, ts)[i].0 in os
  {
    if os != [] {
      var n := |os| - 1;
      PushTargets(os[..n], ts[..n]);
      assert os[n] in os && forall o :: o in os[..n] ==> o in os;
    }
  }

  /** The cone of `f`, placed and marked. */
  ghost predicate ConeOk(g: seq<Node>, nodes: seq<nat>, pos: map<nat, nat>, act: nat -> bool, wanted: set<nat>)
    requires Ok(g)
  {
    && PlacesOk(nodes, pos) && (forall i, j :: 0 <= i < j < |nodes| ==> nodes[i] < nodes[j])
    && (forall e :: e in nodes ==> e < |g| && forall c :: c in Carrying(g[e]) ==> c in nodes && c < e)
    && (forall e, j :: e in nodes && !act(e) && j in wanted ==> FM.Unmoved(g, e, j))
  }

  lemma OperandsPlaced(g: seq<Node>, nodes: seq<nat>, pos: map<nat, nat>, act: nat -> bool, wanted: set<nat>, k: nat)
    requires Ok(g) && ConeOk(g, nodes, pos, act, wanted) && k < |nodes|
    ensures nodes[k] < |g| && ActiveOk(g, Carrying(g[nodes[k]]), act, wanted)
    ensures forall c :: c in Carrying(g[nodes[k]]) ==> c in pos && pos[c] < k
  {
    hide FM.Unmoved, Ok;
    var e := nodes[k];
    assert e in nodes;
    forall c | c in Carrying(g[e]) ensures c in pos && pos[c] < k {
      var i :| 0 <= i < |nodes| && nodes[i] == c;
      Earlier(nodes, i, k);
    }
  }

  /** The symbols given an adjoint so far are those of nodes already visited. */
  ghost predicate SymsDone(g: seq<Node>, nodes: seq<nat>, sym: map<nat, nat>, k: nat) {
    forall s :: s in sym ==> exists i :: k <= i < |nodes| && nodes[i] < |g| && g[nodes[i]] == Sym(s)
  }

  /** A symbol has one node, so its adjoint is given once. */
  lemma SymNew(g: seq<Node>, nodes: seq<nat>, pos: map<nat, nat>, act: nat -> bool, wanted: set<nat>,
               sym: map<nat, nat>, k: nat, s: nat)
    requires Ok(g) && Distinct(g) && ConeOk(g, nodes, pos, act, wanted)
    requires SymsDone(g, nodes, sym, k + 1) && k < |nodes| && nodes[k] < |g| && g[nodes[k]] == Sym(s)
    ensures s !in sym
  {
    hide FM.Unmoved, Ok, Carrying;
    forall i | k + 1 <= i < |nodes| && nodes[i] < |g| ensures g[nodes[i]] != Sym(s) {
      assert nodes[k] < nodes[i] && g[nodes[k]] != g[nodes[i]];
    }
  }

  lemma SymsMore(g: seq<Node>, nodes: seq<nat>, sym: map<nat, nat>, k: nat, s: nat, bar: nat)
    requires SymsDone(g, nodes, sym, k + 1) && k < |nodes| && nodes[k] < |g| && g[nodes[k]] == Sym(s)
    ensures SymsDone(g, nodes, sym[s := bar], k)
  {
    forall x | x in sym[s := bar] ensures exists i :: k <= i < |nodes| && nodes[i] < |g| && g[nodes[i]] == Sym(x) {
      if x != s {
        var i :| k + 1 <= i < |nodes| && nodes[i] < |g| && g[nodes[i]] == Sym(x);
      }
    }
  }

  lemma SymsLess(g: seq<Node>, nodes: seq<nat>, sym: map<nat, nat>, k: nat)
    requires SymsDone(g, nodes, sym, k + 1)
    ensures SymsDone(g, nodes, sym, k)
  {
    forall s | s in sym ensures exists i :: k <= i < |nodes| && nodes[i] < |g| && g[nodes[i]] == Sym(s) {
      var i :| k + 1 <= i < |nodes| && nodes[i] < |g| && g[nodes[i]] == Sym(s);
    }
  }

  /** One node visited, all its consumers seen: its terms folded into its adjoint, the
      adjoint passed on. */
  method Visit(g: Graph, g0: seq<Node>, nodes: seq<nat>, pos: map<nat, nat>, adj0: seq<seq<nat>>, sym0: map<nat, nat>,
               k: nat,
               zero: nat, act: nat -> bool, ghost f: nat, ghost wanted: set<nat>)
    returns (adj: seq<seq<nat>>, sym: map<nat, nat>)
    requires g.Valid() && Ok(g0) && Distinct(g0) && Grown(g0, g.nodes) && k < |nodes|
             && ConeOk(g0, nodes, pos, act, wanted)
    requires zero < |g.nodes| && g.nodes[zero] == Const(0.0)
    requires Balanced(g.nodes, g0, nodes, adj0, k + 1, sym0, f, wanted) && SymsDone(g0, nodes, sym0, k + 1)
    modifies g
    ensures g.Valid() && Grown(old(g.nodes), g.nodes)
    ensures Balanced(g.nodes, g0, nodes, adj, k, sym, f, wanted) && SymsDone(g0, nodes, sym, k)
  {
    hide Graph.Valid, SumOf, ConeOk, Total, Worth, SymsDone, Balanced, Flows, PushesOf, ActiveOk, Eval, Tan, PlacesOk;
    adj, sym := adj0, sym0;
    ghost var was := g.nodes;
    BalancedIn(was, g0, nodes, adj0, k + 1, sym0, f, wanted);
    OperandsPlaced(g0, nodes, pos, act, wanted, k);
    SymsLess(g0, nodes, sym0, k);
    var e := nodes[k];
    if adj[k] == [] {
      forall p: Point ensures SumOf(Evals(was, p, adj[k])) == 0.0 { NoTerms(was, p); }
      BalancedSkip(was, g0, nodes, adj, k, sym, f, wanted);
      return;
    }
    var bar := g.Build(Reduce(Sum, adj[k]));
    BalancedGrown(was, g.nodes, g0, nodes, adj0, k + 1, sym0, f, wanted);
    BarIs(was, g.nodes, bar, adj[k]);
    if bar == zero {
      forall p: Point ensures SumOf(Evals(g.nodes, p, adj[k])) == 0.0 { ConstIs(g.nodes, p, zero); }
      BalancedSkip(g.nodes, g0, nodes, adj, k, sym, f, wanted);
    } else if g0[e].Sym? {
      SymNew(g0, nodes, pos, act, wanted, sym0, k, g0[e].s);
      SymsMore(g0, nodes, sym0, k, g0[e].s, bar);
      BalancedSym(g.nodes, g0, nodes, adj, k, sym, f, wanted, bar, g0[e].s);
      sym := sym[g0[e].s := bar];
    } else {
      adj := PassOn(g, g0, nodes, pos, adj0, sym0, k, bar, zero, act, f, wanted);
    }
  }

  lemma NoTerms(h: seq<Node>, p: Point)
    requires Ok(h)
    ensures SumOf(Evals(h, p, [])) == 0.0
  {
  }

  lemma BalancedIn(h: seq<Node>, g: seq<Node>, nodes: seq<nat>, adj: seq<seq<nat>>, n: nat, sym: map<nat, nat>,
                   f: nat, wanted: set<nat>)
    requires Balanced(h, g, nodes, adj, n, sym, f, wanted)
    ensures Ok(h) && Ok(g) && AdjIn(h, g, nodes, adj) && n <= |nodes| == |adj|
            && (forall s :: s in sym ==> sym[s] < |h|)
    ensures forall i :: 0 <= i < |adj| ==> NodeOk(Reduce(Sum, adj[i]), |h|)
  {
    hide Total, Ok;
  }

  lemma BarIs(g: seq<Node>, h: seq<Node>, bar: nat, terms: seq<nat>)
    requires Ok(g) && Grown(g, h) && Below(terms, |g|) && Worth(h, bar, Reduce(Sum, terms))
    ensures bar < |h| && Below(terms, |h|) && forall p: Point :: Eval(h, p, bar) == SumOf(Evals(h, p, terms))
  {
    hide Eval, SumOf, Worth;
    WorthAt(h, bar, Reduce(Sum, terms));
    forall p: Point ensures Below(terms, |h|) && Eval(h, p, bar) == SumOf(Evals(h, p, terms)) {
      SumValue(h, bar, terms, p);
    }
  }

  method PassOn(g: Graph, g0: seq<Node>, nodes: seq<nat>, pos: map<nat, nat>, adj0: seq<seq<nat>>,
                ghost sym: map<nat, nat>, k: nat,
                bar: nat, zero: nat, act: nat -> bool, ghost f: nat, ghost wanted: set<nat>)
    returns (adj: seq<seq<nat>>)
    requires g.Valid() && Ok(g0) && Grown(g0, g.nodes) && k < |nodes| && nodes[k] < |g0|
             && ConeOk(g0, nodes, pos, act, wanted)
    requires zero < |g.nodes| && g.nodes[zero] == Const(0.0) && !g0[nodes[k]].Sym? && |adj0| == |nodes|
    requires Balanced(g.nodes, g0, nodes, adj0, k + 1, sym, f, wanted) && Below(adj0[k], |g.nodes|)
    requires bar < |g.nodes| && forall p: Point :: Eval(g.nodes, p, bar) == SumOf(Evals(g.nodes, p, adj0[k]))
    modifies g
    ensures g.Valid() && Grown(old(g.nodes), g.nodes) && Balanced(g.nodes, g0, nodes, adj, k, sym, f, wanted)
  {
    hide Total, Balanced, Flows, PushesOf, ActiveOk, Eval, SumOf, PlacesOk, Pushed;
    ghost var was := g.nodes;
    OperandsPlaced(g0, nodes, pos, act, wanted, k);
    var e := nodes[k];
    var os, ts := SweepNode(g, g0, g0[e], e, bar, zero, act, wanted);
    var pushes := PushesOf(os, ts);
    PushTargets(os, ts);
    assert PlacesOk(nodes, pos);
    PlacesBelow(nodes, pos, pushes, k);
    BalancedGrown(was, g.nodes, g0, nodes, adj0, k + 1, sym, f, wanted);
    forall p: Point ensures Below(adj0[k], |g.nodes|) && Eval(g.nodes, p, bar) == SumOf(Evals(g.nodes, p, adj0[k])) {
      EvalGrown(was, g.nodes, p, bar);
      EvalsGrown(was, g.nodes, p, adj0[k]);
    }
    BalancedPush(g.nodes, g0, nodes, pos, adj0, k, sym, f, wanted, bar, pushes);
    adj := Pushed(adj0, pos, pushes);
  }

  lemma PlacesBelow(nodes: seq<nat>, pos: map<nat, nat>, pushes: seq<(nat, nat)>, k: nat)
    requires PlacesOk(nodes, pos) && k < |nodes|
    requires forall i :: 0 <= i < |pushes| ==> pushes[i].0 in pos && pos[pushes[i].0] < k
    ensures forall i :: 0 <= i < |pushes| ==> pushes[i].0 in pos && pos[pushes[i].0] < |nodes|
  {
  }

  /** The cone of `f` in order, each node's place, and which nodes are active. */
  method Marked(g: seq<Node>, f: nat, wanted: set<nat>) returns (nodes: seq<nat>, pos: map<nat, nat>, act: nat -> bool)
    requires Ok(g) && f < |g|
    ensures ConeOk(g, nodes, pos, act, wanted) && f in nodes
  {
    hide ConeOk, PlacesOk, Activity, Ok, Carrying;
    nodes := Cone(g, f);
    pos := Places(nodes);
    var active := Activities(g, nodes, pos, wanted);
    act := (c: nat) => c in pos && pos[c] < |active| && active[pos[c]];
    ConeIs(g, nodes, pos, active, act, wanted);
  }

  /** `d(f)/d(wrt[i])` for every `i`, built in one adjoint sweep over the cone of `f`. Every
      entry has the value forward mode gives it. */
  method Gradient(g: Graph, f: nat, wrt: seq<nat>) returns (ds: seq<nat>)
    requires g.Valid() && f < |g.nodes|
    modifies g
    ensures g.Valid() && Grown(old(g.nodes), g.nodes)
    ensures |ds| == |wrt| && forall i :: 0 <= i < |wrt| ==> Derives(g.nodes, ds[i], f, wrt[i])
  {
    hide Total, Balanced, ConeOk, Derives, Eval, Tan, PlacesOk, Gives, Activity, Ok;
    var g0 := g.nodes;
    assert Ok(g0) && Distinct(g0);
    hide Graph.Valid;
    var wanted := set s | s in wrt;
    var nodes, pos, act := Marked(g0, f, wanted);
    var zero := g.Konst(0.0);
    var one := g.Konst(1.0);
    var adj := Seeded(nodes, pos, f, act(f), one);
    Seed(g.nodes, g0, nodes, pos, act, f, one, wanted);
    var sym := SweepAll(g, g0, nodes, pos, adj, zero, act, f, wanted);
    ds := seq(|wrt|, i requires 0 <= i < |wrt| => if wrt[i] in sym then sym[wrt[i]] else zero);
    forall i | 0 <= i < |wrt| ensures Derives(g.nodes, ds[i], f, wrt[i]) {
      Harvest(g.nodes, g0, f, sym, wanted, wrt[i], zero);
    }
  }

  /** Every node of the cone, last one first. */
  method SweepAll(g: Graph, g0: seq<Node>, nodes: seq<nat>, pos: map<nat, nat>, adj0: seq<seq<nat>>, zero: nat,
                  act: nat -> bool,
                  ghost f: nat, ghost wanted: set<nat>)
    returns (sym: map<nat, nat>)
    requires g.Valid() && Ok(g0) && Distinct(g0) && Grown(g0, g.nodes) && ConeOk(g0, nodes, pos, act, wanted)
    requires zero < |g.nodes| && g.nodes[zero] == Const(0.0)
             && Balanced(g.nodes, g0, nodes, adj0, |nodes|, map[], f, wanted)
    modifies g
    ensures g.Valid() && Grown(old(g.nodes), g.nodes) && f < |g0| && Gives(g.nodes, g0, f, sym, wanted)
  {
    hide Graph.Valid, Total, Balanced, SymsDone, ConeOk, Eval, Tan, PlacesOk;
    var adj := adj0;
    sym := map[];
    ghost var was := g.nodes;
    NoSyms(g0, nodes);
    for k := |nodes| downto 0
      invariant g.Valid() && Grown(was, g.nodes) && zero < |g.nodes| && g.nodes[zero] == Const(0.0)
      invariant Balanced(g.nodes, g0, nodes, adj, k, sym, f, wanted) && SymsDone(g0, nodes, sym, k)
    {
      adj, sym := Visit(g, g0, nodes, pos, adj, sym, k, zero, act, f, wanted);
    }
    AllVisited(g.nodes, g0, nodes, adj, sym, f, wanted);
  }

  /** What each symbol was given is the derivative by it. */
  ghost predicate Gives(h: seq<Node>, g: seq<Node>, f: nat, sym: map<nat, nat>, wanted: set<nat>)
    requires Ok(h) && Ok(g) && f < |g|
  {
    && (forall s :: s in sym ==> sym[s] < |h|)
    && forall p: Point, j :: j in wanted ==> SymPart(h, p, j, sym) == Tan(g, p, j, f)
  }

  lemma AllVisited(h: seq<Node>, g: seq<Node>, nodes: seq<nat>, adj: seq<seq<nat>>, sym: map<nat, nat>, f: nat,
                   wanted: set<nat>)
    requires Balanced(h, g, nodes, adj, 0, sym, f, wanted)
    ensures Ok(h) && Ok(g) && f < |g| && Gives(h, g, f, sym, wanted)
  {
    hide Eval, Tan, Ok;
    forall p: Point, j | j in wanted ensures SymPart(h, p, j, sym) == Tan(g, p, j, f) {
      assert Total(h, g, p, j, nodes, adj, 0) == 0.0;
    }
  }

  lemma ConeIs(g: seq<Node>, nodes: seq<nat>, pos: map<nat, nat>, active: seq<bool>, act: nat -> bool, wanted: set<nat>)
    requires Ok(g) && PlacesOk(nodes, pos) && (forall i, j :: 0 <= i < j < |nodes| ==> nodes[i] < nodes[j])
    requires forall e :: e in nodes ==> e < |g| && forall c :: c in Carrying(g[e]) ==> c in nodes && c < e
    requires |active| == |nodes| && Activity(g, nodes, active, |nodes|, wanted)
    requires forall c: nat :: act(c) == (c in pos && pos[c] < |active| && active[pos[c]])
    ensures ConeOk(g, nodes, pos, act, wanted)
  {
    hide FM.Unmoved, Ok, Carrying;
    forall e, j | e in nodes && !act(e) && j in wanted ensures FM.Unmoved(g, e, j) {
      var i :| 0 <= i < |nodes| && nodes[i] == e;
      assert FM.Unmoved(g, nodes[i], j);
    }
  }

  /** The adjoint of `f` by itself. */
  function Seeded(nodes: seq<nat>, pos: map<nat, nat>, f: nat, moves: bool, one: nat): (r: seq<seq<nat>>)
    ensures |r| == |nodes|
  {
    var none := seq(|nodes|, _ => []);
    if moves && f in pos && pos[f] < |nodes| then none[pos[f] := [one]] else none
  }

  lemma {:induction false} TotalNone(h: seq<Node>, g: seq<Node>, p: Point, j: nat, nodes: seq<nat>,
                                     adj: seq<seq<nat>>, n: nat)
    requires Ok(h) && Ok(g) && AdjIn(h, g, nodes, adj) && n <= |nodes| && forall i :: 0 <= i < n ==> adj[i] == []
    ensures Total(h, g, p, j, nodes, adj, n) == 0.0
  {
    hide Eval, Tan, Ok, Prod;
    if n > 0 {
      TotalNone(h, g, p, j, nodes, adj, n - 1);
      assert nodes[n - 1] in nodes;
      ProdZero(Tan(g, p, j, nodes[n - 1]));
    }
  }

  lemma Seed(h: seq<Node>, g: seq<Node>, nodes: seq<nat>, pos: map<nat, nat>, act: nat -> bool, f: nat, one: nat,
             wanted: set<nat>)
    requires Ok(g) && Grown(g, h) && ConeOk(g, nodes, pos, act, wanted) && f in nodes && one < |h|
             && h[one] == Const(1.0)
    ensures Balanced(h, g, nodes, Seeded(nodes, pos, f, act(f), one), |nodes|, map[], f, wanted)
  {
    hide Eval, Tan, Ok, Prod, Total, FM.Unmoved;
    var n := |nodes|;
    var none: seq<seq<nat>> := seq(n, _ => []);
    var adj := Seeded(nodes, pos, f, act(f), one);
    var at :| 0 <= at < n && nodes[at] == f;
    assert AdjIn(h, g, nodes, none);
    assert AdjIn(h, g, nodes, adj);
    forall p: Point, j | j in wanted
      ensures Total(h, g, p, j, nodes, adj, n) + SymPart(h, p, j, map[]) == Tan(g, p, j, f) {
      TotalNone(h, g, p, j, nodes, none, n);
      if act(f) {
        TotalPush(h, g, p, j, nodes, none, at, one, n);
        assert none[at] + [one] == [one];
        ConstIs(h, p, one);
        ProdOne(Tan(g, p, j, f));
      } else {
        assert FM.Unmoved(g, f, j);
        UnmovedTan(g, f, j, p);
      }
    }
  }

  lemma UnmovedTan(g: seq<Node>, f: nat, j: nat, p: Point)
    requires Ok(g) && FM.Unmoved(g, f, j)
    ensures f < |g| && Tan(g, p, j, f) == 0.0
  {
  }

  lemma NoSyms(g: seq<Node>, nodes: seq<nat>)
    ensures SymsDone(g, nodes, map[], |nodes|)
  {
  }

  lemma Harvest(h: seq<Node>, g: seq<Node>, f: nat, sym: map<nat, nat>, wanted: set<nat>, s: nat, zero: nat)
    requires Ok(g) && Grown(g, h) && f < |g| && Gives(h, g, f, sym, wanted) && s in wanted && zero < |h|
             && h[zero] == Const(0.0)
    ensures Derives(h, if s in sym then sym[s] else zero, f, s)
  {
    hide Eval, Tan, Ok;
    var d := if s in sym then sym[s] else zero;
    forall p: Point ensures Eval(h, p, d) == Tan(h, p, s, f) {
      assert SymPart(h, p, s, sym) == Tan(g, p, s, f);
      TanGrown(g, h, p, s, f);
      ConstIs(h, p, zero);
    }
  }
}
