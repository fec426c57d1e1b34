/** The expression graph: an arena of hash-consed nodes, an operand always of a smaller
    id than its node, and the smart constructors that grow it. */
module Graphs {
  import opened Basics

  /** A unary function, or the slope another one's derivative rule builds from its nodes. */
  datatype UnOp = Fn(code: nat) | Slope(of: UnOp)

  /** A binary function, or one of its two partial derivatives. */
  datatype BinOp = Fn2(code: nat) | Partial(of: BinOp, second: bool)

  datatype Node =
    | Const(v: real)
    | Sym(s: nat)
    | Add(a: nat, b: nat)
    | Mul(a: nat, b: nat)
    | Neg(a: nat)
    | Pow(a: nat, n: int)
    | Un(op: UnOp, a: nat)
    | Bin(bop: BinOp, a: nat, b: nat)
    | Cmp(cop: CmpOp, a: nat, b: nat)
    | Select(c: nat, t: nat, e: nat)
    | Reduce(rop: ReduceOp, args: seq<nat>)
    | Dot(xs: seq<nat>, ys: seq<nat>)

  /** What the symbols and the functions the graph does not interpret stand for. */
  datatype Point = Point(sym: nat -> real, un: (UnOp, real) -> real, bin: (BinOp, real, real) -> real,
                         pow: (real, int) -> real)

  function Operands(n: Node): seq<nat> {
    match n
    case Const(_) => []
    case Sym(_) => []
    case Add(a, b) => [a, b]
    case Mul(a, b) => [a, b]
    case Neg(a) => [a]
    case Pow(a, _) => [a]
    case Un(_, a) => [a]
    case Bin(_, a, b) => [a, b]
    case Cmp(_, a, b) => [a, b]
    case Select(c, t, e) => [c, t, e]
    case Reduce(_, args) => args
    case Dot(xs, ys) => xs + ys
  }

  predicate Below(os: seq<nat>, n: nat) { forall o :: o in os ==> o < n }

  predicate NodeOk(n: Node, id: nat) {
    && Below(Operands(n), id)
    && (n.Dot? ==> |n.xs| == |n.ys|)
    && (n.Reduce? && (n.rop.Min? || n.rop.Max?) ==> n.args != [])
  }

  /** Every operand comes before its node. */
  predicate Ok(g: seq<Node>) { forall i :: 0 <= i < |g| ==> NodeOk(g[i], i) }

  // --- values ------------------------------------------------------------------------------

  predicate Holds(op: CmpOp, x: real, y: real) {
    match op
    case Gt => x > y
    case Ge => x >= y
    case Lt => x < y
    case Le => x <= y
    case Eq => x == y
    case Ne => x != y
  }

  function SumOf(xs: seq<real>): real { if xs == [] then 0.0 else SumOf(xs[..|xs| - 1]) + xs[|xs| - 1] }

  function ProductOf(xs: seq<real>): real { if xs == [] then 1.0 else ProductOf(xs[..|xs| - 1]) * xs[|xs| - 1] }

  /** Whether a term replaces the running extremum. */
  predicate Beats(op: ReduceOp, x: real, m: real) { if op.Max? then x > m else x < m }

  /** The first extremal term. */
  function ExtremumOf(op: ReduceOp, xs: seq<real>): real
    requires xs != []
  {
    if |xs| == 1 then xs[0]
    else
      var m, x := ExtremumOf(op, xs[..|xs| - 1]), xs[|xs| - 1];
      if Beats(op, x, m) then x else m
  }

  function ReduceOf(op: ReduceOp, xs: seq<real>): real
    requires op.Min? || op.Max? ==> xs != []
  {
    match op
    case Sum => SumOf(xs)
    case Product => ProductOf(xs)
    case _ => ExtremumOf(op, xs)
  }

  function Times(xs: seq<real>, ys: seq<real>): (r: seq<real>)
    requires |xs| == |ys|
    ensures |r| == |xs| && forall i :: 0 <= i < |xs| ==> r[i] == xs[i] * ys[i]
  {
    seq(|xs|, i requires 0 <= i < |xs| => xs[i] * ys[i])
  }

  /** A node's value from its operands' values, in operand order. */
  function ValueOf(p: Point, n: Node, v: seq<real>): real
    requires |v| == |Operands(n)|
    requires n.Reduce? && (n.rop.Min? || n.rop.Max?) ==> n.args != []
    requires n.Dot? ==> |n.xs| == |n.ys|
  {
    match n
    case Const(c) => c
    case Sym(s) => p.sym(s)
    case Add(_, _) => v[0] + v[1]
    case Mul(_, _) => v[0] * v[1]
    case Neg(_) => -v[0]
    case Pow(_, k) => p.pow(v[0], k)
    case Un(op, _) => p.un(op, v[0])
    case Bin(op, _, _) => p.bin(op, v[0], v[1])
    case Cmp(op, _, _) => if Holds(op, v[0], v[1]) then 1.0 else 0.0
    case Select(_, _, _) => if v[0] != 0.0 then v[1] else v[2]
    case Reduce(op, _) => ReduceOf(op, v)
    case Dot(xs, _) => SumOf(Times(v[..|xs|], v[|xs|..]))
  }

  function Eval(g: seq<Node>, p: Point, e: nat): real
    requires Ok(g) && e < |g|
    decreases e, 1
  {
    assert NodeOk(g[e], e);
    ValueOf(p, g[e], Args(g, p, e))
  }

  /** The values of a node's operands. */
  function Args(g: seq<Node>, p: Point, e: nat): (r: seq<real>)
    requires Ok(g) && e < |g|
    ensures var os := Operands(g[e]);
            |r| == |os| && forall i :: 0 <= i < |os| ==> os[i] < e && r[i] == Eval(g, p, os[i])
    decreases e, 0
  {
    var os := Operands(g[e]);
    assert NodeOk(g[e], e);
    assert forall i :: 0 <= i < |os| ==> os[i] in os;
    seq(|os|, i requires 0 <= i < |os| => Eval(g, p, os[i]))
  }

  /** The values of a list of nodes. */
  function Evals(g: seq<Node>, p: Point, os: seq<nat>): (r: seq<real>)
    requires Ok(g) && Below(os, |g|)
    ensures |r| == |os| && forall i :: 0 <= i < |os| ==> os[i] < |g| && r[i] == Eval(g, p, os[i])
  {
    assert forall i :: 0 <= i < |os| ==> os[i] in os;
    seq(|os|, i requires 0 <= i < |os| => Eval(g, p, os[i]))
  }

  /** `g` grown: the same nodes, and maybe more. */
  predicate Grown(g: seq<Node>, h: seq<Node>) { g <= h && Ok(h) && Distinct(h) }

  /** A node's value is its own, whatever the graph gains. */
  lemma {:induction false} EvalGrown(g: seq<Node>, h: seq<Node>, p: Point, e: nat)
    requires Ok(g) && Ok(h) && g <= h && e < |g|
    ensures Eval(h, p, e) == Eval(g, p, e)
    decreases e
  {
    hide ValueOf;
    var os := Operands(g[e]);
    assert h[e] == g[e] && NodeOk(g[e], e);
    forall i | 0 <= i < |os| ensures Args(h, p, e)[i] == Args(g, p, e)[i] {
      assert os[i] in os;
      EvalGrown(g, h, p, os[i]);
    }
    assert Args(h, p, e) == Args(g, p, e);
  }

  lemma {:induction false} EvalsGrown(g: seq<Node>, h: seq<Node>, p: Point, os: seq<nat>)
    requires Ok(g) && Ok(h) && g <= h && Below(os, |g|)
    ensures Below(os, |h|) && Evals(h, p, os) == Evals(g, p, os)
  {
    hide Eval;
    forall i | 0 <= i < |os| ensures os[i] < |g| && Eval(h, p, os[i]) == Eval(g, p, os[i]) {
      assert os[i] in os;
      EvalGrown(g, h, p, os[i]);
    }
  }

  // --- the arena ---------------------------------------------------------------------------

  /** The value of a node over operands of the graph. */
  function NodeValue(g: seq<Node>, p: Point, n: Node): real
    requires Ok(g) && NodeOk(n, |g|)
  {
    ValueOf(p, n, Evals(g, p, Operands(n)))
  }

  lemma EvalIs(g: seq<Node>, p: Point, e: nat)
    requires Ok(g) && e < |g|
    ensures NodeOk(g[e], |g|) && Eval(g, p, e) == NodeValue(g, p, g[e])
  {
    hide ValueOf;
    assert NodeOk(g[e], e);
    assert Args(g, p, e) == Evals(g, p, Operands(g[e]));
  }

  /** Node `r` has node `n`'s value, at every point. */
  ghost predicate Worth(g: seq<Node>, r: nat, n: Node)
    requires Ok(g)
  {
    r < |g| && NodeOk(n, |g|) && forall p: Point :: Eval(g, p, r) == NodeValue(g, p, n)
  }

  lemma WorthItself(g: seq<Node>, e: nat)
    requires Ok(g) && e < |g|
    ensures Worth(g, e, g[e])
  {
    assert NodeOk(g[e], e);
    forall p: Point ensures Eval(g, p, e) == NodeValue(g, p, g[e]) { EvalIs(g, p, e); }
  }

  lemma {:induction false} WorthGrown(g: seq<Node>, h: seq<Node>, r: nat, n: Node)
    requires Ok(g) && Worth(g, r, n) && Grown(g, h)
    ensures Worth(h, r, n)
  {
    forall p: Point ensures Eval(h, p, r) == NodeValue(h, p, n) {
      EvalGrown(g, h, p, r);
      NodeValueGrown(g, h, p, n);
    }
  }

  lemma {:induction false} NodeValueGrown(g: seq<Node>, h: seq<Node>, p: Point, n: Node)
    requires Ok(g) && NodeOk(n, |g|) && Grown(g, h)
    ensures NodeOk(n, |h|) && NodeValue(h, p, n) == NodeValue(g, p, n)
  {
    hide ValueOf;
    EvalsGrown(g, h, p, Operands(n));
  }

  /** A node of the graph that a node simplifies to, where one is at hand. */
  function Simpler(g: seq<Node>, n: Node): Simple
    requires NodeOk(n, |g|)
  {
    match n
    case Add(a, b) =>
      assert a in Operands(n) && b in Operands(n);
      if g[a] == Const(0.0) then There(b) else if g[b] == Const(0.0) then There(a)
      else if g[a].Const? && g[b].Const? then Folded(g[a].v + g[b].v) else AsIs
    case Mul(a, b) =>
      assert a in Operands(n) && b in Operands(n);
      if g[a] == Const(0.0) || g[b] == Const(1.0) then There(a)
      else if g[b] == Const(0.0) || g[a] == Const(1.0) then There(b)
      else if g[a].Const? && g[b].Const? then Folded(g[a].v * g[b].v) else AsIs
    case Neg(a) => assert a in Operands(n); if g[a].Const? then Folded(-g[a].v) else AsIs
    case Select(c, t, e) => assert c in Operands(n); if t == e then There(t) else AsIs
    case Reduce(op, args) =>
      if |args| == 1 then There(args[0])
      else if args == [] then Folded(if op.Product? then 1.0 else 0.0) else AsIs
    case _ => AsIs
  }

  datatype Simple = There(e: nat) | Folded(v: real) | AsIs

  ghost predicate Keeps(g: seq<Node>, p: Point, n: Node, s: Simple)
    requires Ok(g) && NodeOk(n, |g|)
  {
    && (s.There? ==> s.e < |g| && Eval(g, p, s.e) == NodeValue(g, p, n))
    && (s.Folded? ==> s.v == NodeValue(g, p, n))
  }

  /** Simplifying keeps the value. */
  lemma {:induction false} SimplerIs(g: seq<Node>, n: Node, p: Point)
    requires Ok(g) && NodeOk(n, |g|)
    ensures Keeps(g, p, n, Simpler(g, n))
  {
    hide Eval, Ok;
    forall o | o in Operands(n) && g[o].Const? ensures Eval(g, p, o) == g[o].v { ConstIs(g, p, o); }
    match n
    case Add(a, b) => assert a in Operands(n) && b in Operands(n);
    case Mul(a, b) => assert a in Operands(n) && b in Operands(n);
    case Neg(a) => assert a in Operands(n);
    case Select(_, t, _) => assert t in Operands(n);
    case Reduce(op, args) =>
      if |args| == 1 {
        assert args[0] in Operands(n);
        OneTerm(op, Evals(g, p, args));
      }
    case _ =>
  }

  lemma ConstIs(g: seq<Node>, p: Point, e: nat)
    requires Ok(g) && e < |g| && g[e].Const?
    ensures Eval(g, p, e) == g[e].v
  {
  }

  lemma OneTerm(op: ReduceOp, xs: seq<real>)
    requires |xs| == 1
    ensures ReduceOf(op, xs) == xs[0]
  {
    assert xs[..0] == [];
    assert SumOf(xs[..0]) == 0.0 && ProductOf(xs[..0]) == 1.0;
  }

  class Graph {
    var nodes: seq<Node>
    var index: map<Node, nat>

    ghost predicate Valid()
      reads this
    {
      && Ok(nodes) && Distinct(nodes)
      && (forall i :: 0 <= i < |nodes| ==> nodes[i] in index && index[nodes[i]] == i)
      && (forall n :: n in index ==> index[n] < |nodes| && nodes[index[n]] == n)
    }

    constructor ()
      ensures Valid() && nodes == []
    {
      nodes, index := [], map[];
    }

    /** The node, new or the one already there. */
    method Intern(n: Node) returns (r: nat)
      requires Valid() && NodeOk(n, |nodes|)
      modifies this
      ensures Valid() && Grown(old(nodes), nodes) && r < |nodes| && nodes[r] == n
    {
      if n in index {
        r := index[n];
      } else {
        r := |nodes|;
        assert n !in nodes;
        nodes, index := nodes + [n], index[n := r];
      }
    }

    /** The node's smart constructor: some node of its value. */
    method Build(n: Node) returns (r: nat)
      requires Valid() && NodeOk(n, |nodes|)
      modifies this
      ensures Valid() && Grown(old(nodes), nodes) && Worth(nodes, r, n)
    {
      hide Eval, Ok, NodeValue, Simpler, NodeOk, Worth;
      ghost var g := nodes;
      match Simpler(nodes, n)
      case There(e) => r := e; WorthThere(nodes, r, n);
      case Folded(v) => r := Konst(v); WorthConst(g, nodes, r, v, n);
      case AsIs => r := Intern(n); WorthItself(nodes, r);
    }

    method Konst(v: real) returns (r: nat)
      requires Valid()
      modifies this
      ensures Valid() && Grown(old(nodes), nodes) && r < |nodes| && nodes[r] == Const(v)
    {
      r := Intern(Const(v));
    }
  }

  lemma WorthThere(g: seq<Node>, r: nat, n: Node)
    requires Ok(g) && NodeOk(n, |g|) && Distinct(g) && Simpler(g, n) == There(r)
    ensures Grown(g, g) && Worth(g, r, n)
  {
    hide Eval, NodeValue, Simpler;
    forall p: Point ensures r < |g| && Eval(g, p, r) == NodeValue(g, p, n) { SimplerIs(g, n, p); }
    var p := Point(_ => 0.0, (_, _) => 0.0, (_, _, _) => 0.0, (_, _) => 0.0);
    SimplerIs(g, n, p);
  }

  lemma WorthConst(g: seq<Node>, h: seq<Node>, r: nat, v: real, n: Node)
    requires Ok(g) && NodeOk(n, |g|) && Grown(g, h) && r < |h| && h[r] == Const(v) && Simpler(g, n) == Folded(v)
    ensures Worth(h, r, n)
  {
    hide Eval, NodeValue, Simpler;
    forall p: Point ensures Eval(h, p, r) == NodeValue(h, p, n) {
      SimplerIs(g, n, p);
      NodeValueGrown(g, h, p, n);
      ConstIs(h, p, r);
    }
  }
}
