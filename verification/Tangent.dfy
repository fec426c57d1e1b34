/** The derivative of every node by a symbol, as dual numbers give it: the reference both
    symbolic sweeps are held to. Functions the graph does not interpret bring their own
    slopes; selections and extrema take the branch their value takes. */
module Tangents {
  import opened Basics
  import opened Graphs

  /** The product rule, term by term. */
  function ProductTan(xs: seq<real>, ds: seq<real>): real
    requires |xs| == |ds|
  {
    if xs == [] then 0.0
    else
      var n := |xs| - 1;
      ProductTan(xs[..n], ds[..n]) * xs[n] + ProductOf(xs[..n]) * ds[n]
  }

  /** The slope of an extremum: that of the term that attains it first. */
  function ExtremumTan(op: ReduceOp, xs: seq<real>, ds: seq<real>): real
    requires |xs| == |ds| > 0
  {
    var n := |xs| - 1;
    if n == 0 then ds[0]
    else if Beats(op, xs[n], ExtremumOf(op, xs[..n])) then ds[n] else ExtremumTan(op, xs[..n], ds[..n])
  }

  function ReduceTan(op: ReduceOp, xs: seq<real>, ds: seq<real>): real
    requires |xs| == |ds| && (op.Min? || op.Max? ==> xs != [])
  {
    match op
    case Sum => SumOf(ds)
    case Product => ProductTan(xs, ds)
    case _ => ExtremumTan(op, xs, ds)
  }

  function DotTan(xs: seq<real>, dx: seq<real>, ys: seq<real>, dy: seq<real>): real
    requires |xs| == |dx| == |ys| == |dy|
  {
    SumOf(seq(|xs|, i requires 0 <= i < |xs| => dx[i] * ys[i] + xs[i] * dy[i]))
  }

  /** A node's derivative by symbol `j` from its operands' values and derivatives. */
  function Rule(p: Point, j: nat, n: Node, v: seq<real>, d: seq<real>): real
    requires |v| == |d| == |Operands(n)|
    requires n.Reduce? && (n.rop.Min? || n.rop.Max?) ==> n.args != []
    requires n.Dot? ==> |n.xs| == |n.ys|
  {
    match n
    case Const(_) => 0.0
    case Sym(s) => if s == j then 1.0 else 0.0
    case Add(_, _) => d[0] + d[1]
    case Mul(_, _) => d[0] * v[1] + v[0] * d[1]
    case Neg(_) => -d[0]
    case Pow(_, k) => k as real * p.pow(v[0], k - 1) * d[0]
    case Un(op, _) => p.un(Slope(op), v[0]) * d[0]
    case Bin(op, _, _) => p.bin(Partial(op, false), v[0], v[1]) * d[0] + p.bin(Partial(op, true), v[0], v[1]) * d[1]
    case Cmp(_, _, _) => 0.0
    case Select(_, _, _) => if v[0] != 0.0 then d[1] else d[2]
    case Reduce(op, _) => ReduceTan(op, v, d)
    case Dot(xs, _) => DotTan(v[..|xs|], d[..|xs|], v[|xs|..], d[|xs|..])
  }

  /** The derivative of node `e` by symbol `j` at a point. */
  function Tan(g: seq<Node>, p: Point, j: nat, e: nat): real
    requires Ok(g) && e < |g|
    decreases e, 1
  {
    assert NodeOk(g[e], e);
    Rule(p, j, g[e], Args(g, p, e), ArgTans(g, p, j, e))
  }

  /** The derivatives of a node's operands. */
  function ArgTans(g: seq<Node>, p: Point, j: nat, e: nat): (r: seq<real>)
    requires Ok(g) && e < |g|
    ensures var os := Operands(g[e]);
            |r| == |os| && forall i :: 0 <= i < |os| ==> os[i] < e && r[i] == Tan(g, p, j, os[i])
    decreases e, 0
  {
    var os := Operands(g[e]);
    assert NodeOk(g[e], e);
    assert forall i :: 0 <= i < |os| ==> os[i] in os;
    seq(|os|, i requires 0 <= i < |os| => Tan(g, p, j, os[i]))
  }

  function Tans(g: seq<Node>, p: Point, j: nat, os: seq<nat>): (r: seq<real>)
    requires Ok(g) && Below(os, |g|)
    ensures |r| == |os| && forall i :: 0 <= i < |os| ==> os[i] < |g| && r[i] == Tan(g, p, j, os[i])
  {
    assert forall i :: 0 <= i < |os| ==> os[i] in os;
    seq(|os|, i requires 0 <= i < |os| => Tan(g, p, j, os[i]))
  }

  /** The derivative of a node over operands of the graph. */
  function NodeTan(g: seq<Node>, p: Point, j: nat, n: Node): real
    requires Ok(g) && NodeOk(n, |g|)
  {
    Rule(p, j, n, Evals(g, p, Operands(n)), Tans(g, p, j, Operands(n)))
  }

  lemma TanIs(g: seq<Node>, p: Point, j: nat, e: nat)
    requires Ok(g) && e < |g|
    ensures NodeOk(g[e], |g|) && Tan(g, p, j, e) == NodeTan(g, p, j, g[e])
  {
    hide Rule, Eval;
    assert NodeOk(g[e], e);
    assert Args(g, p, e) == Evals(g, p, Operands(g[e]));
    assert ArgTans(g, p, j, e) == Tans(g, p, j, Operands(g[e]));
  }

  lemma {:induction false} TanGrown(g: seq<Node>, h: seq<Node>, p: Point, j: nat, e: nat)
    requires Ok(g) && Grown(g, h) && e < |g|
    ensures Tan(h, p, j, e) == Tan(g, p, j, e)
    decreases e
  {
    hide Rule, Eval;
    var os := Operands(g[e]);
    assert h[e] == g[e] && NodeOk(g[e], e);
    forall i | 0 <= i < |os|
      ensures Args(h, p, e)[i] == Args(g, p, e)[i] && ArgTans(h, p, j, e)[i] == ArgTans(g, p, j, e)[i]
    {
      assert os[i] in os;
      EvalGrown(g, h, p, os[i]);
      TanGrown(g, h, p, j, os[i]);
    }
    assert Args(h, p, e) == Args(g, p, e) && ArgTans(h, p, j, e) == ArgTans(g, p, j, e);
  }

  /** Expression `d` is the derivative of node `e` by symbol `j`, at every point. */
  ghost predicate Derives(g: seq<Node>, d: nat, e: nat, j: nat)
    requires Ok(g)
  {
    d < |g| && e < |g| && forall p: Point :: Eval(g, p, d) == Tan(g, p, j, e)
  }

  lemma DerivesGrown(g: seq<Node>, h: seq<Node>, d: nat, e: nat, j: nat)
    requires Ok(g) && Grown(g, h) && Derives(g, d, e, j)
    ensures Derives(h, d, e, j)
  {
    hide Eval, Tan;
    forall p: Point ensures Eval(h, p, d) == Tan(h, p, j, e) {
      EvalGrown(g, h, p, d);
      TanGrown(g, h, p, j, e);
    }
  }

  // --- what carries a derivative --------------------------------------------------------------

  /** The length of the prefix of operands the derivative ignores. */
  function Inert(n: Node): (k: nat)
    ensures k <= |Operands(n)|
  {
    match n case Cmp(_, _, _) => 2 case Select(_, _, _) => 1 case _ => 0
  }

  /** The operands after the ignored prefix. */
  function Carrying(n: Node): (r: seq<nat>)
    ensures forall o :: o in r ==> o in Operands(n)
  {
    Operands(n)[Inert(n)..]
  }

  lemma {:induction false} ZeroSum(xs: seq<real>)
    requires forall i :: 0 <= i < |xs| ==> xs[i] == 0.0
    ensures SumOf(xs) == 0.0
  {
    if xs != [] { ZeroSum(xs[..|xs| - 1]); }
  }

  lemma {:induction false} ZeroProductTan(xs: seq<real>, ds: seq<real>)
    requires |xs| == |ds| && forall i :: 0 <= i < |ds| ==> ds[i] == 0.0
    ensures ProductTan(xs, ds) == 0.0
  {
    if xs != [] { ZeroProductTan(xs[..|xs| - 1], ds[..|xs| - 1]); }
  }

  lemma {:induction false} ZeroExtremumTan(op: ReduceOp, xs: seq<real>, ds: seq<real>)
    requires |xs| == |ds| > 0 && forall i :: 0 <= i < |ds| ==> ds[i] == 0.0
    ensures ExtremumTan(op, xs, ds) == 0.0
  {
    if |xs| > 1 { ZeroExtremumTan(op, xs[..|xs| - 1], ds[..|xs| - 1]); }
  }

  /** A node none of whose carrying operands moves does not move. */
  lemma Still(p: Point, j: nat, n: Node, v: seq<real>, d: seq<real>)
    requires |v| == |d| == |Operands(n)| && n != Sym(j)
    requires n.Reduce? && (n.rop.Min? || n.rop.Max?) ==> n.args != []
    requires n.Dot? ==> |n.xs| == |n.ys|
    requires forall i :: Inert(n) <= i < |d| ==> d[i] == 0.0
    ensures Rule(p, j, n, v, d) == 0.0
  {
    match n
    case Reduce(op, args) =>
      ZeroSum(d);
      ZeroProductTan(v, d);
      if op.Min? || op.Max? { ZeroExtremumTan(op, v, d); }
    case Dot(xs, _) =>
      var m := |xs|;
      ZeroSum(seq(m, i requires 0 <= i < m => d[..m][i] * v[m..][i] + v[..m][i] * d[m..][i]));
    case _ =>
  }
}
