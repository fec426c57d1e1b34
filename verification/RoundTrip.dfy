/** Graphs as they are built, and that a graph's module loads back to that very graph. */
module RoundTrips {
  import opened Basics
  import opened Bindings
  import opened Arenas
  import Rewriting
  import opened Modules
  import opened Loading
  import opened Reloads

  /** A graph with its symbols' names. */
  datatype Built = Built(A: Arena, names: seq<string>)

  /** The symbols of a graph's nodes, in the order of the nodes. */
  function SymbolList(nodes: seq<GraphNode>): seq<nat> {
    if nodes == [] then []
    else
      var last := nodes[|nodes| - 1];
      SymbolList(nodes[..|nodes| - 1]) + if last.Symbol? then [last.s] else []
  }

  ghost predicate Counting(s: seq<nat>) { forall k :: 0 <= k < |s| ==> s[k] == k }

  /** The parameters of `f` have nodes before `e`. */
  ghost predicate NodesOfParams(A: Arena, f: nat, e: nat)
    requires f < |A.funcs|
  { forall k :: 0 <= k < |A.funcs[f].params| ==> HasNode(A, A.funcs[f].params[k], e) }

  ghost predicate HasNode(A: Arena, s: nat, e: nat) {
    exists j :: 0 <= j < e && j < |A.nodes| && A.nodes[j] == Rewriting.Symbol(s)
  }

  /** A call as the graph makes it: over a function all of whose earlier outputs, and all of
      whose parameters, and those of the functions before it, were there; with the binding
      `bind` makes; of an output that is not its own value. */
  ghost predicate CallMade(A: Arena, call: GraphNode, e: nat)
    requires call.Call?
  {
    && call.f < |A.funcs| && call.out < |A.funcs[call.f].outputs|
    && (forall k :: 0 <= k <= call.out ==> OutputBefore(A.funcs[call.f].outputs[k], e))
    && (forall f :: 0 <= f <= call.f ==> NodesOfParams(A, f, e))
    && ContextMade(call.ctx, call.f, |A.funcs[call.f].params|)
    && !Folds(A, A.funcs[call.f].outputs[call.out])
  }

  ghost predicate ContextMade(c: Context, f: nat, n: nat) {
    c.Context? ==> c.at != [] && |c.at| == |c.exprs| && c == ContextOver(f, n, c.at, c.exprs)
  }

  /** A call of the output is its value. */
  ghost predicate Folds(A: Arena, o: Output) { o.Zero? || (o.Expr? && o.e < |A.nodes| && A.nodes[o.e].Const?) }

  ghost predicate FuncMade(A: Arena, f: nat)
    requires f < |A.funcs|
  { NodesOfParams(A, f, |A.nodes|) && A.funcs[f].height == 0 }

  /** What every graph keeps that starts from the constants `start` and grows by interning,
      naming, defining functions and appending outputs. */
  ghost predicate History(g: Built, start: seq<GraphNode>) {
    && start <= g.A.nodes && Distinct(g.A.nodes) && Arranged(g.A) && Distinct(g.names)
    && SymbolList(g.A.nodes) == seq(|g.names|, k => k)
    && (forall e :: 0 <= e < |g.A.nodes| && g.A.nodes[e].Call? ==> CallMade(g.A, g.A.nodes[e], e))
    && forall f :: 0 <= f < |g.A.funcs| ==> FuncMade(g.A, f)
  }

  // --- building ----------------------------------------------------------------------------------------

  datatype Step = Node(n: GraphNode) | Name(name: string) | Define(fn: Function) | Append(f: nat, o: Output)

  /** A step the graph takes: what is interned is new, a call is made as calls are made. */
  ghost predicate May(g: Built, s: Step) {
    match s
    case Node(n) =>
      && !n.Symbol? && n !in g.A.nodes && NodeArranged(g.A, n, |g.A.nodes|)
      && (n.Call? ==> ContextMade(n.ctx, n.f, |g.A.funcs[n.f].params|) && !Folds(g.A, g.A.funcs[n.f].outputs[n.out]))
    case Name(name) => name !in g.names
    case Define(fn) => fn.outputs == [] && |fn.keeps| == |fn.params| && fn.height == 0
                       && forall k :: 0 <= k < |fn.params| ==> fn.params[k] < |g.names|
    case Append(f, o) => f < |g.A.funcs| && OutputBefore(o, |g.A.nodes|)
  }

  ghost function After(g: Built, s: Step): Built
    requires May(g, s)
  {
    match s
    case Node(n) => g.(A := g.A.(nodes := g.A.nodes + [n]))
    case Name(name) => Built(g.A.(nodes := g.A.nodes + [Rewriting.Symbol(|g.names|)]), g.names + [name])
    case Define(fn) => g.(A := g.A.(funcs := g.A.funcs + [fn]))
    case Append(f, o) => g.(A := g.A.(funcs := g.A.funcs[f := g.A.funcs[f].(outputs := g.A.funcs[f].outputs + [o])]))
  }

  ghost predicate Runs(states: seq<Built>, steps: seq<Step>, start: seq<GraphNode>) {
    && |states| == |steps| + 1 && states[0] == Built(Arena(start, []), [])
    && forall i :: 0 <= i < |steps| ==> May(states[i], steps[i]) && states[i + 1] == After(states[i], steps[i])
  }

  ghost predicate Start(start: seq<GraphNode>) {
    Distinct(start) && forall e :: 0 <= e < |start| ==> start[e].Const?
  }

  lemma {:induction false} NoSymbols(nodes: seq<GraphNode>)
    requires forall e :: 0 <= e < |nodes| ==> !nodes[e].Symbol?
    ensures SymbolList(nodes) == []
  {
    if nodes != [] { NoSymbols(nodes[..|nodes| - 1]); }
  }

  /** Functions and nodes only grow, so what was made stays made. */
  lemma CallStays(A: Arena, B: Arena, call: GraphNode, e: nat)
    requires call.Call? && CallMade(A, call, e) && Grows(A, B) && e <= |A.nodes|
    requires NodeArranged(A, call, e)
    ensures CallMade(B, call, e)
  {
    assert FuncGrows(A.funcs[call.f], B.funcs[call.f]);
    forall f | 0 <= f <= call.f ensures NodesOfParams(B, f, e) {
      assert NodesOfParams(A, f, e) && FuncGrows(A.funcs[f], B.funcs[f]);
      forall k | 0 <= k < |B.funcs[f].params| ensures HasNode(B, B.funcs[f].params[k], e) {
        assert HasNode(A, A.funcs[f].params[k], e);
      }
    }
  }

  lemma FuncStays(A: Arena, B: Arena, f: nat)
    requires f < |A.funcs| && FuncMade(A, f) && Grows(A, B) && A.funcs[f].height == B.funcs[f].height
    ensures FuncMade(B, f)
  {
    assert FuncGrows(A.funcs[f], B.funcs[f]);
    forall k | 0 <= k < |B.funcs[f].params| ensures HasNode(B, B.funcs[f].params[k], |B.nodes|) {
      assert HasNode(A, A.funcs[f].params[k], |A.nodes|);
    }
  }

  lemma {:induction false} ListedNode(nodes: seq<GraphNode>, s: nat) returns (j: nat)
    requires s in SymbolList(nodes)
    ensures j < |nodes| && nodes[j] == Rewriting.Symbol(s)
  {
    var last := nodes[|nodes| - 1];
    if last == Rewriting.Symbol(s) { j := |nodes| - 1; } else { j := ListedNode(nodes[..|nodes| - 1], s); }
  }

  /** The nodes of a graph in order, one more interned. */
  lemma NodesGrow(g: Built, h: Built, n: GraphNode, start: seq<GraphNode>)
    requires History(g, start) && h.A == Arena(g.A.nodes + [n], g.A.funcs) && n !in g.A.nodes
    requires NodeArranged(g.A, n, |g.A.nodes|) && (n.Call? ==> CallMade(g.A, n, |g.A.nodes|))
    ensures Grows(g.A, h.A) && start <= h.A.nodes && Distinct(h.A.nodes) && Arranged(h.A)
    ensures forall e :: 0 <= e < |h.A.nodes| && h.A.nodes[e].Call? ==> CallMade(h.A, h.A.nodes[e], e)
    ensures forall f :: 0 <= f < |h.A.funcs| ==> FuncMade(h.A, f)
    ensures SymbolList(h.A.nodes) == SymbolList(g.A.nodes) + if n.Symbol? then [n.s] else []
  {
    hide NodeArranged, CallMade, FuncArranged, FuncMade;
    assert h.A.nodes[..|g.A.nodes|] == g.A.nodes;
    assert Grows(g.A, h.A);
    forall e | 0 <= e < |h.A.nodes|
      ensures NodeArranged(h.A, h.A.nodes[e], e) && (h.A.nodes[e].Call? ==> CallMade(h.A, h.A.nodes[e], e)) {
      assert NodeArranged(g.A, h.A.nodes[e], e);
      NodeGrows(g.A, h.A, h.A.nodes[e], e);
      if h.A.nodes[e].Call? { CallStays(g.A, h.A, h.A.nodes[e], e); }
    }
    forall f | 0 <= f < |h.A.funcs| ensures FuncArranged(h.A, f) && FuncMade(h.A, f) {
      assert FuncArranged(g.A, f) && FuncMade(g.A, f);
      FuncStays(g.A, h.A, f);
      FuncReaches(g.A, h.A, f);
    }
  }

  lemma FuncReaches(A: Arena, B: Arena, f: nat)
    requires f < |A.funcs| && FuncArranged(A, f) && |A.nodes| <= |B.nodes| && f < |B.funcs| && A.funcs[f] == B.funcs[f]
    ensures FuncArranged(B, f)
  {
  }

  /** Functions only, of which what is new is in order. */
  lemma FuncsGrow(g: Built, h: Built, start: seq<GraphNode>)
    requires History(g, start) && h.names == g.names && h.A.nodes == g.A.nodes && Grows(g.A, h.A)
    requires forall f :: 0 <= f < |h.A.funcs| ==> FuncArranged(h.A, f) && FuncMade(h.A, f)
    ensures History(h, start)
  {
    hide NodeArranged, CallMade, FuncArranged, FuncMade, SymbolList;
    forall e | 0 <= e < |h.A.nodes|
      ensures NodeArranged(h.A, h.A.nodes[e], e) && (h.A.nodes[e].Call? ==> CallMade(h.A, h.A.nodes[e], e)) {
      assert NodeArranged(g.A, h.A.nodes[e], e);
      NodeGrows(g.A, h.A, h.A.nodes[e], e);
      if h.A.nodes[e].Call? { CallStays(g.A, h.A, h.A.nodes[e], e); }
    }
  }

  /** A call that may be interned is made as calls are. */
  lemma CallNext(g: Built, n: GraphNode, start: seq<GraphNode>)
    requires History(g, start) && May(g, Node(n)) && n.Call?
    ensures CallMade(g.A, n, |g.A.nodes|)
  {
    hide SymbolList, ContextOk, Folds, ContextMade;
    assert FuncArranged(g.A, n.f);
    forall f | 0 <= f <= n.f ensures NodesOfParams(g.A, f, |g.A.nodes|) { assert FuncMade(g.A, f); }
  }

  lemma DefineKeeps(g: Built, fn: Function, start: seq<GraphNode>)
    requires History(g, start) && May(g, Define(fn))
    ensures History(After(g, Define(fn)), start)
  {
    hide NodeArranged, CallMade, SymbolList;
    var h := After(g, Define(fn));
    forall f | 0 <= f < |h.A.funcs| ensures FuncArranged(h.A, f) && FuncMade(h.A, f) {
      if f < |g.A.funcs| {
        assert FuncArranged(g.A, f) && FuncMade(g.A, f);
        FuncStays(g.A, h.A, f);
      } else {
        forall k | 0 <= k < |fn.params| ensures HasNode(h.A, fn.params[k], |h.A.nodes|) {
          assert SymbolList(g.A.nodes)[fn.params[k]] == fn.params[k];
          var j := ListedNode(g.A.nodes, fn.params[k]);
        }
      }
    }
    FuncsGrow(g, h, start);
  }

  lemma AppendKeeps(g: Built, f: nat, o: Output, start: seq<GraphNode>)
    requires History(g, start) && May(g, Append(f, o))
    ensures History(After(g, Append(f, o)), start)
  {
    hide NodeArranged, CallMade, SymbolList;
    var h := After(g, Append(f, o));
    assert Grows(g.A, h.A);
    forall d | 0 <= d < |h.A.funcs| ensures FuncArranged(h.A, d) && FuncMade(h.A, d) {
      assert FuncArranged(g.A, d) && FuncMade(g.A, d);
      FuncStays(g.A, h.A, d);
    }
    FuncsGrow(g, h, start);
  }

  /** Every step keeps the history. */
  lemma StepKeeps(g: Built, s: Step, start: seq<GraphNode>)
    requires History(g, start) && May(g, s)
    ensures History(After(g, s), start)
  {
    match s
    case Node(n) =>
      hide Arranged, NodeArranged, CallMade, FuncMade;
      if n.Call? { CallNext(g, n, start); }
      NodeMay(g, n);
      NodesGrow(g, After(g, s), n, start);
    case Name(name) =>
      hide Arranged, NodeArranged, CallMade, FuncMade;
      var n := Rewriting.Symbol(|g.names|);
      if n in g.A.nodes {
        NamesListed(g.A.nodes, |g.names|);
        assert false;
      }
      SymbolArranged(g.A, n);
      NodesGrow(g, After(g, s), n, start);
    case Define(fn) => DefineKeeps(g, fn, start);
    case Append(f, o) => AppendKeeps(g, f, o, start);
  }

  lemma NodeMay(g: Built, n: GraphNode)
    requires May(g, Node(n))
    ensures n !in g.A.nodes && NodeArranged(g.A, n, |g.A.nodes|)
  {
  }

  lemma SymbolArranged(A: Arena, n: GraphNode)
    requires n.Symbol?
    ensures NodeArranged(A, n, |A.nodes|)
  {
  }

  lemma {:induction false} NamesListed(nodes: seq<GraphNode>, s: nat)
    requires Rewriting.Symbol(s) in nodes
    ensures s in SymbolList(nodes)
  {
    var last := |nodes| - 1;
    if nodes[last] != Rewriting.Symbol(s) {
      assert Rewriting.Symbol(s) in nodes[..last];
      NamesListed(nodes[..last], s);
    }
  }

  lemma Begun(start: seq<GraphNode>)
    requires Start(start)
    ensures History(Built(Arena(start, []), []), start)
  {
    NoSymbols(start);
  }

  /** Every graph a run reaches has the history. */
  lemma {:induction false} RunKeeps(states: seq<Built>, steps: seq<Step>, start: seq<GraphNode>)
    requires Start(start) && Runs(states, steps, start)
    ensures History(states[|steps|], start)
    decreases |steps|
  {
    hide History, May, After;
    if steps == [] {
      Begun(start);
    } else {
      var last := |steps| - 1;
      RunKeeps(states[..last + 1], steps[..last], start);
      StepKeeps(states[last], steps[last], start);
    }
  }

  // --- a graph as a module -----------------------------------------------------------------------------

  /** The window lies in the pool and holds `list`. */
  ghost predicate Holds(m: Module, l: Window, list: seq<nat>) {
    Unwrapped(l) && l.Past() <= |m.pool| && Slice(m, l) == list
  }

  /** Entry `o` of the call table stands for calls of output `out` of `f` in context `c`. */
  ghost predicate Names(m: Module, o: nat, f: nat, out: nat, c: Context) {
    && o < |m.callOutputs| == |m.contexts| && m.callOutputs[o] == (f, out)
    && match m.contexts[o]
       case None => c.NoContext?
       case Some((at, l)) => c.Context? && c.at == at && Holds(m, l, c.exprs)
  }

  /** Node `j` of the module is the data of node `n`. */
  ghost predicate NodeStored(m: Module, j: nat, n: GraphNode)
    requires j < |m.nodes|
  {
    match m.nodes[j]
    case Const(c) => c < |m.consts| && n == Rewriting.Const(m.consts[c])
    case Symbol(s) => n == Rewriting.Symbol(s)
    case Inline(op, args) => n == Rewriting.Op(op, args)
    case Listed(op, shape, l) => n.Op? && n.op == op && ShapeFits(shape, |n.args|) && Holds(m, l, n.args)
    case Call(o, l) => n.Call? && Names(m, o, n.f, n.out, n.ctx) && Holds(m, l, n.list)
  }

  ghost predicate FuncStored(data: FunctionData, fn: Function) {
    && data.params == fn.params && data.keeps == fn.keeps && data.outputs == fn.outputs
    && |data.outputRoles| <= |data.outputs| && data.body.Some? == fn.external
  }

  /** `m` is the data of a graph, whatever the order of its tables. */
  ghost predicate Stores(m: Module, g: Built) {
    && m.version == VERSION && m.symbols == g.names
    && |m.nodes| == |g.A.nodes| && (forall j :: 0 <= j < |m.nodes| ==> NodeStored(m, j, g.A.nodes[j]))
    && |m.funcs| == |g.A.funcs| && (forall f :: 0 <= f < |m.funcs| ==> FuncStored(m.funcs[f], g.A.funcs[f]))
    && |m.callOutputs| == |m.contexts| && forall o :: 0 <= o < |m.callOutputs| ==> CallOutputFits(m, o)
  }

  lemma NodeData(m: Module, g: Built, j: nat)
    requires Stores(m, g) && j < |m.nodes|
    ensures NodeStored(m, j, g.A.nodes[j])
  {
  }

  lemma MetStored(m: Module, g: Built, s: nat, i: nat)
    requires Stores(m, g) && HasNode(g.A, s, i) && i <= |g.A.nodes|
    ensures Met(m, s, i)
  {
    var j :| 0 <= j < i && j < |g.A.nodes| && g.A.nodes[j] == Rewriting.Symbol(s);
    NodeData(m, g, j);
  }

  lemma ParamsStored(m: Module, g: Built, f: nat, i: nat)
    requires Stores(m, g) && f < |m.funcs| && NodesOfParams(g.A, f, i) && i <= |g.A.nodes|
    ensures ParamsMet(m, f, i)
  {
    hide Met, HasNode;
    assert FuncStored(m.funcs[f], g.A.funcs[f]);
    forall k | 0 <= k < |m.funcs[f].params| ensures Met(m, m.funcs[f].params[k], i) {
      MetStored(m, g, g.A.funcs[f].params[k], i);
    }
  }

  lemma {:induction false} SymbolBelow(nodes: seq<GraphNode>, j: nat, n: nat)
    requires j < |nodes| && nodes[j].Symbol? && SymbolList(nodes) == seq(n, k => k)
    ensures nodes[j].s < n
  {
    NamesListed(nodes, nodes[j].s);
    assert nodes[j].s in seq(n, k => k);
  }

  lemma FuncPasses(m: Module, g: Built, start: seq<GraphNode>, f: nat)
    requires History(g, start) && Stores(m, g) && f < |m.funcs|
    ensures FuncFits(m, f)
  {
    hide SymbolList, NodeStored, NodeArranged, CallMade;
    assert FuncStored(m.funcs[f], g.A.funcs[f]) && FuncMade(g.A, f) && FuncArranged(g.A, f);
    ParamsStored(m, g, f, |m.nodes|);
    forall k | 0 <= k < |m.funcs[f].params| ensures m.funcs[f].params[k] < |m.symbols| {
      var s := g.A.funcs[f].params[k];
      assert HasNode(g.A, s, |g.A.nodes|);
      var j :| 0 <= j < |g.A.nodes| && g.A.nodes[j] == Rewriting.Symbol(s);
      SymbolBelow(g.A.nodes, j, |g.names|);
    }
  }

  /** The lists of a node hold what comes before it. */
  lemma HeldBefore(m: Module, l: Window, list: seq<nat>, i: nat)
    requires Holds(m, l, list) && forall k :: 0 <= k < |list| ==> list[k] < i
    ensures Unwrapped(l) && ListBefore(m, l, i) && |list| == l.len
  {
    forall k | l.start <= k < l.Past() ensures m.pool[k] < i { assert m.pool[k] == list[k - l.start]; }
  }

  lemma CallPasses(m: Module, g: Built, start: seq<GraphNode>, i: nat, o: nat, l: Window)
    requires History(g, start) && Stores(m, g) && i < |m.nodes| && m.nodes[i] == Call(o, l)
    ensures NodeFits(m, i) && NodeReady(m, i)
  {
    hide SymbolList, ContextOk, ContextOver, Folds, Holds, ListBefore, Unwrapped, NodesOfParams, ParamsMet;
    var n := g.A.nodes[i];
    assert NodeStored(m, i, n) && NodeArranged(g.A, n, i) && CallMade(g.A, n, i);
    assert FuncStored(m.funcs[n.f], g.A.funcs[n.f]) && CallOutputFits(m, o);
    forall k | 0 <= k < |n.list| ensures n.list[k] < i { assert n.Operands()[k] == n.list[k]; }
    HeldBefore(m, l, n.list, i);
    forall k | 0 <= k < |n.ctx.Exprs()| ensures n.ctx.Exprs()[k] < i {
      assert n.Operands()[|n.list| + k] == n.ctx.Exprs()[k];
    }
    if n.ctx.Context? {
      var (at, w) := m.contexts[o].value;
      assert Holds(m, w, n.ctx.exprs);
      forall k | 0 <= k < |n.ctx.exprs| ensures n.ctx.exprs[k] < i { assert n.ctx.Exprs()[k] < i; }
      HeldBefore(m, w, n.ctx.exprs, i);
    }
    forall f | 0 <= f <= n.f ensures ParamsMet(m, f, i) { ParamsStored(m, g, f, i); }
  }

  lemma NodePasses(m: Module, g: Built, start: seq<GraphNode>, i: nat)
    requires History(g, start) && Stores(m, g) && i < |m.nodes|
    ensures NodeFits(m, i) && NodeReady(m, i)
  {
    hide SymbolList, CallFits, ContextReady;
    var n := g.A.nodes[i];
    NodeData(m, g, i);
    assert NodeArranged(g.A, n, i);
    match m.nodes[i]
    case Const(_) =>
    case Symbol(_) => SymbolBelow(g.A.nodes, i, |g.names|);
    case Inline(_, args) => assert forall k :: 0 <= k < |args| ==> n.Operands()[k] == args[k];
    case Listed(_, _, l) =>
      assert forall k :: 0 <= k < |n.args| ==> n.Operands()[k] == n.args[k];
      HeldBefore(m, l, n.args, i);
    case Call(o, l) => CallPasses(m, g, start, i, o, l);
  }

  /** The data of a graph passes the check and loads without a panic. */
  lemma StoredPasses(m: Module, g: Built, start: seq<GraphNode>)
    requires History(g, start) && Stores(m, g)
    ensures Passes(m) && LoadReady(m)
  {
    hide NodeFits, NodeReady, FuncFits, History, NodeStored, FuncStored, CallOutputFits;
    forall f | 0 <= f < |m.funcs| ensures FuncFits(m, f) { FuncPasses(m, g, start, f); }
    forall i | 0 <= i < |m.nodes| ensures NodeFits(m, i) && NodeReady(m, i) { NodePasses(m, g, start, i); }
  }

  // --- loading it back -----------------------------------------------------------------------------------

  /** What a load of `m` into the graph of the constants `start` leaves. */
  ghost predicate Reloaded(m: Module, map': LoadMap, h: Built, start: seq<GraphNode>, zero: nat) {
    && LoadedAs(m, map', 0, h.A, h.names, zero) && Arranged(h.A) && start <= h.A.nodes
    && Distinct(h.A.nodes) && Distinct(h.names)
    && Compact(map'.exprs, |start|, |h.A.nodes|) && Compact(SymbolsOf(m, map'.exprs, h.A.nodes), 0, |h.names|)
  }

  /** The first nodes are where they were. */
  ghost predicate Same(exprs: seq<nat>, A: Arena, B: Arena, n: nat) {
    n <= |exprs| && n <= |A.nodes| && n <= |B.nodes| &&
    forall j :: 0 <= j < n ==> exprs[j] == j && B.nodes[j] == A.nodes[j]
  }

  lemma {:induction false} SymbolPrefix(nodes: seq<GraphNode>, n: nat)
    requires n <= |nodes|
    ensures SymbolList(nodes[..n]) <= SymbolList(nodes)
    decreases |nodes|
  {
    if n < |nodes| {
      SymbolPrefix(nodes[..|nodes| - 1], n);
      assert nodes[..|nodes| - 1][..n] == nodes[..n];
    } else {
      assert nodes[..n] == nodes;
    }
  }

  lemma {:induction false} SymbolsPrefix(m: Module, exprs: seq<nat>, nodes: seq<GraphNode>, n: nat)
    requires n <= |exprs|
    ensures SymbolsOf(m, exprs[..n], nodes) <= SymbolsOf(m, exprs, nodes)
    decreases |exprs|
  {
    if n < |exprs| {
      SymbolsPrefix(m, exprs[..|exprs| - 1], nodes, n);
      assert exprs[..|exprs| - 1][..n] == exprs[..n];
    } else {
      assert exprs[..n] == exprs;
    }
  }

  lemma Lengths(m: Module, g: Built, map': LoadMap, h: Built, start: seq<GraphNode>, zero: nat)
    requires Stores(m, g) && Reloaded(m, map', h, start, zero)
    ensures |map'.exprs| == |m.nodes| == |g.A.nodes| && ExprsMapped(map'.exprs, h.A)
  {
    ExprsBelow(m, map', h.A, 0, h.names, zero);
  }

  lemma NoneListed(m: Module, nodes: seq<GraphNode>)
    ensures SymbolsOf(m, [], nodes) == [] == SymbolList([])
  {
  }

  /** The symbols get the numbers they had. */
  lemma {:induction false} SymbolsSame(m: Module, g: Built, map': LoadMap, h: Built, start: seq<GraphNode>, zero: nat,
                                       n: nat)
    requires History(g, start) && Stores(m, g) && Reloaded(m, map', h, start, zero) && n <= |m.nodes|
    ensures |map'.exprs| == |m.nodes|
    ensures SymbolsOf(m, map'.exprs[..n], h.A.nodes) == SymbolList(g.A.nodes[..n])
    ensures forall j :: 0 <= j < n && g.A.nodes[j].Symbol? ==>
                map'.exprs[j] < |h.A.nodes| && h.A.nodes[map'.exprs[j]] == g.A.nodes[j]
  {
    hide History, Stores, Reloaded, SymbolsOf, SymbolList;
    Lengths(m, g, map', h, start, zero);
    if n == 0 {
      NoneListed(m, h.A.nodes);
    } else {
      SymbolsSame(m, g, map', h, start, zero, n - 1);
      SymbolSame(m, g, map', h, start, zero, n - 1);
    }
  }

  lemma SymbolSame(m: Module, g: Built, map': LoadMap, h: Built, start: seq<GraphNode>, zero: nat, j: nat)
    requires History(g, start) && Stores(m, g) && Reloaded(m, map', h, start, zero) && j < |m.nodes| == |map'.exprs|
    requires SymbolsOf(m, map'.exprs[..j], h.A.nodes) == SymbolList(g.A.nodes[..j])
    requires forall i :: 0 <= i < j && g.A.nodes[i].Symbol? ==>
                 map'.exprs[i] < |h.A.nodes| && h.A.nodes[map'.exprs[i]] == g.A.nodes[i]
    ensures SymbolsOf(m, map'.exprs[..j + 1], h.A.nodes) == SymbolList(g.A.nodes[..j + 1])
    ensures g.A.nodes[j].Symbol? ==> map'.exprs[j] < |h.A.nodes| && h.A.nodes[map'.exprs[j]] == g.A.nodes[j]
  {
    hide NodeArranged, CallMade, FuncMade, FuncsMapped, SymbolsMapped, Arranged, CallOutputFits, Names, Holds, Compact,
      SymbolsOf, SymbolList, ShapeFits, NodesMapped;
    ImageAt(m, map', h.A, 0, h.names, zero, j);
    var e, n, before := map'.exprs[j], g.A.nodes[j], SymbolList(g.A.nodes[..j]);
    SymbolsTail(m, map'.exprs, h.A.nodes, j);
    ListTail(g.A.nodes, j);
    NodeData(m, g, j);
    if n.Symbol? {
      var r, t := |before|, h.A.nodes[e].s;
      SymbolsPrefix(m, map'.exprs, h.A.nodes, j + 1);
      SymbolPrefix(g.A.nodes, j + 1);
      var ids := SymbolsOf(m, map'.exprs, h.A.nodes);
      assert ids[r] == t && n.s == r by {
        LastOfPrefix(before, t, ids);
        LastOfPrefix(before, n.s, SymbolList(g.A.nodes));
      }
      forall i | 0 <= i < r ensures before[i] == i && ids[i] == i { assert before[i] == SymbolList(g.A.nodes)[i]; }
      NextNumber(ids, |h.names|, r);
      if t < r {
        assert before[t] in before;
        NumberTaken(m, g, map', h, start, zero, j, t);
      }
    } else {
      assert before + [] == before;
    }
  }

  lemma LastOfPrefix(s: seq<nat>, x: nat, t: seq<nat>)
    requires s + [x] <= t
    ensures |s| < |t| && t[|s|] == x && forall i :: 0 <= i < |s| ==> t[i] == s[i]
  {
    assert (s + [x])[|s|] == t[|s|];
    forall i | 0 <= i < |s| ensures t[i] == s[i] { assert (s + [x])[i] == t[i]; }
  }

  lemma NextNumber(ids: seq<nat>, size: nat, r: nat)
    requires Compact(ids, 0, size) && r < |ids| && forall i :: 0 <= i < r ==> ids[i] == i
    ensures ids[r] <= r
  {
    assert ids[r] <= 0 || Follows(ids, r);
  }

  lemma SymbolsTail(m: Module, exprs: seq<nat>, nodes: seq<GraphNode>, j: nat)
    requires j < |exprs|
    ensures SymbolsOf(m, exprs[..j + 1], nodes) == SymbolsOf(m, exprs[..j], nodes) + SymbolAt(m, nodes, j, exprs[j])
  {
    assert exprs[..j + 1][..j] == exprs[..j];
  }

  lemma ListTail(nodes: seq<GraphNode>, j: nat)
    requires j < |nodes|
    ensures SymbolList(nodes[..j + 1]) == SymbolList(nodes[..j]) + if nodes[j].Symbol? then [nodes[j].s] else []
  {
    assert nodes[..j + 1][..j] == nodes[..j];
  }

  /** A number an earlier symbol has is not another's. */
  lemma NumberTaken(m: Module, g: Built, map': LoadMap, h: Built, start: seq<GraphNode>, zero: nat, j: nat, t: nat)
    requires History(g, start) && Stores(m, g) && Reloaded(m, map', h, start, zero) && j < |m.nodes| == |map'.exprs|
    requires g.A.nodes[j].Symbol? && map'.exprs[j] < |h.A.nodes| && h.A.nodes[map'.exprs[j]] == Rewriting.Symbol(t)
    requires forall i :: 0 <= i < j && g.A.nodes[i].Symbol? ==>
                 map'.exprs[i] < |h.A.nodes| && h.A.nodes[map'.exprs[i]] == g.A.nodes[i]
    requires t in SymbolList(g.A.nodes[..j])
    ensures g.A.nodes[j].s == t
  {
    hide NodeArranged, CallMade, FuncMade, FuncsMapped, SymbolsMapped, Arranged, CallOutputFits, Compact, SymbolList;
    var i := ListedNode(g.A.nodes[..j], t);
    assert g.A.nodes[i] == Rewriting.Symbol(t);
    NodeData(m, g, i);
    NodeData(m, g, j);
    ImageAt(m, map', h.A, 0, h.names, zero, i);
    ImageAt(m, map', h.A, 0, h.names, zero, j);
    assert m.symbols[g.A.nodes[i].s] == m.symbols[g.A.nodes[j].s];
  }

  /** Where the nodes before are the same, the node is loaded as itself. */
  lemma ImageSame(m: Module, g: Built, map': LoadMap, h: Built, start: seq<GraphNode>, zero: nat, j: nat)
    requires History(g, start) && Stores(m, g) && Reloaded(m, map', h, start, zero)
    requires j < |m.nodes| && Same(map'.exprs, g.A, h.A, j)
    ensures j < |map'.exprs| && map'.exprs[j] < |h.A.nodes| && j < |g.A.nodes|
    ensures h.A.nodes[map'.exprs[j]] == g.A.nodes[j]
  {
    hide CallMade, FuncMade, FuncsMapped, SymbolsMapped, CallOutputFits, Compact, SymbolsOf, SymbolList, ShapeFits,
      Names, CallImage, Grows;
    Lengths(m, g, map', h, start, zero);
    NodeData(m, g, j);
    ImageAt(m, map', h.A, 0, h.names, zero, j);
    var n, e := g.A.nodes[j], map'.exprs[j];
    assert NodeArranged(g.A, n, j);
    match m.nodes[j]
    case Const(_) =>
    case Symbol(_) => SymbolsSame(m, g, map', h, start, zero, j + 1);
    case Inline(_, args) =>
      assert forall k :: 0 <= k < |args| ==> n.Operands()[k] == args[k];
      assert MapAll(map'.exprs, args) == args;
    case Listed(_, _, l) =>
      assert forall k :: 0 <= k < |n.args| ==> n.Operands()[k] == n.args[k];
      ListSame(m, map'.exprs, l, h.A.nodes[e].args, n.args, j);
    case Call(o, l) =>
      var c, list :| CallImage(m, map'.exprs, 0, h.A, zero, o, l, e, c, list);
      CallSame(m, g, map', h, start, zero, j, o, l, c, list);
  }

  lemma ListSame(m: Module, exprs: seq<nat>, l: Window, r: seq<nat>, list: seq<nat>, j: nat)
    requires ListMapped(m, exprs, l, r) && Holds(m, l, list) && j <= |exprs|
    requires (forall k :: 0 <= k < |list| ==> list[k] < j) && forall i :: 0 <= i < j ==> exprs[i] == i
    ensures r == list
  {
    forall k | 0 <= k < |r| ensures r[k] == list[k] { assert list[k] == m.pool[l.start + k]; }
  }

  /** Nor does a call fold that did not. */
  lemma CallSame(m: Module, g: Built, map': LoadMap, h: Built, start: seq<GraphNode>, zero: nat, j: nat, o: nat,
                 l: Window, c: Context, list: seq<nat>)
    requires History(g, start) && Stores(m, g) && Reloaded(m, map', h, start, zero)
    requires j < |m.nodes| == |map'.exprs| && Same(map'.exprs, g.A, h.A, j) && m.nodes[j] == Call(o, l)
    requires map'.exprs[j] < |h.A.nodes| && o < |m.callOutputs| == |m.contexts| && m.callOutputs[o].0 < |m.funcs|
    requires CallImage(m, map'.exprs, 0, h.A, zero, o, l, map'.exprs[j], c, list)
    ensures h.A.nodes[map'.exprs[j]] == g.A.nodes[j]
  {
    hide FuncMade, FuncsMapped, SymbolsMapped, NodesMapped, CallOutputFits, Compact, SymbolsOf, SymbolList, ContextOver,
      ContextOk, Grows, LoadedAs, Arranged, NodesOfParams, Holds, ListMapped;
    var n := g.A.nodes[j];
    NodeData(m, g, j);
    CallHistory(g, start, j);
    assert FuncStored(m.funcs[n.f], g.A.funcs[n.f]);
    LoadedFunc(m, map', h.A, 0, h.names, zero, n.f);
    MappedOutput(m, map', h.A, 0, n.f, n.out);
    assert forall k :: 0 <= k < |n.list| ==> n.Operands()[k] == n.list[k];
    ListSame(m, map'.exprs, l, list, n.list, j);
    if n.ctx.Context? {
      var (at, w) := m.contexts[o].value;
      var bound :| ListMapped(m, map'.exprs, w, bound) && c == ContextOver(n.f, |m.funcs[n.f].params|, at, bound);
      assert forall k :: 0 <= k < |n.ctx.exprs| ==> n.Operands()[|n.list| + k] == n.ctx.exprs[k];
      ListSame(m, map'.exprs, w, bound, n.ctx.exprs, j);
    }
  }

  lemma CallHistory(g: Built, start: seq<GraphNode>, j: nat)
    requires History(g, start) && j < |g.A.nodes| && g.A.nodes[j].Call?
    ensures NodeArranged(g.A, g.A.nodes[j], j) && CallMade(g.A, g.A.nodes[j], j)
  {
  }

  lemma PlaceFacts(m: Module, g: Built, map': LoadMap, h: Built, start: seq<GraphNode>, zero: nat, j: nat)
    requires History(g, start) && Reloaded(m, map', h, start, zero) && j < |map'.exprs|
    ensures Distinct(g.A.nodes) && Distinct(h.A.nodes) && |start| <= |g.A.nodes| && |start| <= |h.A.nodes|
    ensures j < |start| ==> h.A.nodes[j] == g.A.nodes[j]
    ensures map'.exprs[j] <= |start| || Follows(map'.exprs, j)
  {
    hide Distinct, Arranged, LoadedAs, SymbolList, SymbolsOf;
    if j < |start| { assert h.A.nodes[j] == start[j] == g.A.nodes[j]; }
  }

  lemma {:induction false} NodesSame(m: Module, g: Built, map': LoadMap, h: Built, start: seq<GraphNode>, zero: nat,
                                     n: nat)
    requires History(g, start) && Stores(m, g) && Reloaded(m, map', h, start, zero) && n <= |m.nodes|
    ensures Same(map'.exprs, g.A, h.A, n)
  {
    hide History, Stores, Reloaded, Compact;
    if n > 0 {
      NodesSame(m, g, map', h, start, zero, n - 1);
      ImageSame(m, g, map', h, start, zero, n - 1);
      PlaceFacts(m, g, map', h, start, zero, n - 1);
      PlaceSame(map'.exprs, g.A, h.A, |start|, n - 1);
    }
  }

  /** A node loaded as itself is loaded where it was: an earlier place holds another node, and
      no later one has been given out. */
  lemma PlaceSame(exprs: seq<nat>, A: Arena, B: Arena, size: nat, j: nat)
    requires Distinct(A.nodes) && Distinct(B.nodes) && Same(exprs, A, B, j)
    requires j < |exprs| && j < |A.nodes| && exprs[j] < |B.nodes| && B.nodes[exprs[j]] == A.nodes[j]
    requires j < size ==> j < |B.nodes| && B.nodes[j] == A.nodes[j]
    requires exprs[j] <= size || Follows(exprs, j)
    ensures Same(exprs, A, B, j + 1)
  {
    hide Distinct;
    var e := exprs[j];
    if j < size {
      SameIndex(B.nodes, e, j);
    } else if e < j {
      assert A.nodes[e] == A.nodes[j];
      SameIndex(A.nodes, e, j);
    }
  }

  lemma SameIndex<T>(s: seq<T>, i: nat, j: nat)
    requires Distinct(s) && i < |s| && j < |s| && s[i] == s[j]
    ensures i == j
  {
  }

  lemma SymbolsBack(m: Module, g: Built, map': LoadMap, h: Built, start: seq<GraphNode>, zero: nat)
    requires History(g, start) && Stores(m, g) && Reloaded(m, map', h, start, zero)
    requires h.A.nodes == g.A.nodes && Same(map'.exprs, g.A, h.A, |m.nodes|)
    ensures h.names == g.names
  {
    hide CallMade, FuncMade, Arranged, SymbolsMapped, FuncsMapped, SymbolsOf, SymbolList, CallOutputFits;
    Lengths(m, g, map', h, start, zero);
    forall s | 0 <= s < |g.names| ensures s < |h.names| && h.names[s] == g.names[s] {
      assert SymbolList(g.A.nodes)[s] == s;
      var j := ListedNode(g.A.nodes, s);
      NodeData(m, g, j);
      ImageAt(m, map', h.A, 0, h.names, zero, j);
    }
    SymbolsSame(m, g, map', h, start, zero, |m.nodes|);
    assert map'.exprs[..|m.nodes|] == map'.exprs && g.A.nodes[..|m.nodes|] == g.A.nodes;
    var ids := SymbolsOf(m, map'.exprs, h.A.nodes);
    assert ids == seq(|g.names|, k => k);
    assert |h.names| <= |g.names|;
    if g.names != [] { assert h.names[|g.names| - 1] == g.names[|g.names| - 1]; }
  }

  lemma FuncBack(m: Module, g: Built, map': LoadMap, h: Built, start: seq<GraphNode>, zero: nat, f: nat)
    requires History(g, start) && Stores(m, g) && Reloaded(m, map', h, start, zero) && f < |m.funcs|
    requires h.A.nodes == g.A.nodes && h.names == g.names && Same(map'.exprs, g.A, h.A, |m.nodes|)
    ensures f < |h.A.funcs| && h.A.funcs[f] == g.A.funcs[f]
  {
    hide CallMade, NodeArranged, NodesMapped, SymbolsOf, SymbolList, CallOutputFits, Compact, NodeStored, Met;
    LoadedFunc(m, map', h.A, 0, h.names, zero, f);
    Lengths(m, g, map', h, start, zero);
    var fn, was := h.A.funcs[f], g.A.funcs[f];
    assert FuncStored(m.funcs[f], was) && FuncMade(g.A, f) && FuncArranged(g.A, f);
    forall k | 0 <= k < |was.params| ensures fn.params[k] == was.params[k] {
      assert map'.symbols[was.params[k]] == Some(fn.params[k]);
    }
    forall k | 0 <= k < |was.outputs| ensures fn.outputs[k] == was.outputs[k] { MappedOutput(m, map', h.A, 0, f, k); }
    assert fn.params == was.params && fn.keeps == was.keeps && fn.outputs == was.outputs;
  }

  /** A graph's module loads back to the graph: the same nodes at the same places, the same
      functions, the same names. */
  lemma Reproduced(m: Module, g: Built, map': LoadMap, h: Built, start: seq<GraphNode>, zero: nat)
    requires History(g, start) && Stores(m, g) && Reloaded(m, map', h, start, zero)
    ensures h == g && |map'.exprs| == |g.A.nodes| && Counting(map'.exprs)
  {
    hide CallMade, FuncMade, Arranged, NodesMapped, SymbolsMapped, SymbolsOf, SymbolList, CallOutputFits, NodeStored;
    Lengths(m, g, map', h, start, zero);
    NodesSame(m, g, map', h, start, zero, |m.nodes|);
    assert |h.A.nodes| <= |g.A.nodes|;
    assert h.A.nodes == g.A.nodes;
    SymbolsBack(m, g, map', h, start, zero);
    forall f | 0 <= f < |m.funcs| ensures f < |h.A.funcs| && h.A.funcs[f] == g.A.funcs[f] {
      FuncBack(m, g, map', h, start, zero, f);
    }
    assert h.A.funcs == g.A.funcs;
  }

  lemma IndexedDistinct<T(!new)>(xs: seq<T>, at: map<T, nat>)
    requires Indexed(xs, at)
    ensures Distinct(xs)
  {
  }

  /** What the first `n` nodes of a graph take of its tables, in their order. */
  ghost function Used(m: Module, nodes: seq<GraphNode>, n: nat): Tables
    requires n <= |nodes| == |m.nodes|
  { if n == 0 then Tables([], []) else Entered(Used(m, nodes, n - 1), nodes[n - 1], m.nodes[n - 1].Listed?) }

  lemma {:induction false} UsedAre(m: Module, exprs: seq<nat>, nodes: seq<GraphNode>, n: nat)
    requires n <= |exprs| == |nodes| == |m.nodes| && Counting(exprs)
    ensures TablesOf(m, exprs[..n], nodes, Tables([], [])) == Used(m, nodes, n)
  {
    hide Entered;
    if n > 0 {
      UsedAre(m, exprs, nodes, n - 1);
      assert exprs[..n][..n - 1] == exprs[..n - 1];
    }
  }

  lemma CallsStay(m: Module, g: Built, exprs: seq<nat>)
    requires Stores(m, g) && |exprs| == |g.A.nodes| && Counting(exprs)
    ensures Unfolded(m, exprs, g.A.nodes)
  {
    forall j | 0 <= j < |exprs| && m.nodes[j].Call? ensures g.A.nodes[exprs[j]].Call? { NodeData(m, g, j); }
  }

  /** A module of a graph loaded into an empty one: never refused, never a panic, and the graph
      is back, its tables holding what its nodes use. */
  method LoadBack(m: Module, nought: nat, one: nat, supplied: set<string>, ghost g: Built)
    returns (graph: Graph, r: Outcome)
    requires nought != one && History(g, [Rewriting.Const(nought), Rewriting.Const(one)]) && Stores(m, g)
    requires !Lacking(m, supplied)
    ensures fresh(graph) && r.Loaded? && graph.A() == g.A && graph.symbols == g.names
    ensures |r.map'.exprs| == |g.A.nodes| == |m.nodes| && Counting(r.map'.exprs)
    ensures graph.tables == Used(m, g.A.nodes, |m.nodes|)
  {
    hide Passes, LoadReady, History, Stores, Lacking, LoadedAs, Compact, SymbolsOf, Grows, Arranged, Unfolded, TablesOf,
      Used, Counting;
    ghost var start := [Rewriting.Const(nought), Rewriting.Const(one)];
    StoredPasses(m, g, start);
    graph := new Graph(nought, one);
    ghost var was := graph.A();
    r := graph.Load(m, supplied);
    NodesKept(was, graph.A());
    IndexedDistinct(graph.nodes, graph.dedup);
    IndexedDistinct(graph.symbols, graph.symbolIds);
    Reproduced(m, g, r.map', Built(graph.A(), graph.symbols), start, graph.zero);
    CallsStay(m, g, r.map'.exprs);
    Lengths(m, g, r.map', Built(graph.A(), graph.symbols), start, graph.zero);
    UsedAre(m, r.map'.exprs, graph.nodes, |m.nodes|);
    assert r.map'.exprs[..|m.nodes|] == r.map'.exprs;
  }

  /** Constants and symbols use no tables. */
  lemma {:induction false} LeavesUseNone(m: Module, nodes: seq<GraphNode>, n: nat)
    requires n <= |nodes| == |m.nodes| && forall e :: 0 <= e < n ==> nodes[e].Const? || nodes[e].Symbol?
    ensures Used(m, nodes, n) == Tables([], [])
  {
    if n > 0 { LeavesUseNone(m, nodes, n - 1); }
  }

  ghost const NOUGHT_ONE := [Rewriting.Const(0), Rewriting.Const(1)]

  /** `f(p) = 1`, and a symbol `q`. */
  ghost function Folding(): Built {
    Built(Arena(NOUGHT_ONE + [Rewriting.Symbol(0), Rewriting.Symbol(1)],
                [Function([0], [false], false, [Output.Expr(1)], 0)]), ["p", "q"])
  }

  lemma FoldingHistory()
    ensures History(Folding(), NOUGHT_ONE)
  {
    hide History;
    var g0 := Built(Arena(NOUGHT_ONE, []), []);
    Begun(NOUGHT_ONE);
    var g1 := After(g0, Name("p"));
    StepKeeps(g0, Name("p"), NOUGHT_ONE);
    var g2 := After(g1, Name("q"));
    StepKeeps(g1, Name("q"), NOUGHT_ONE);
    var fn := Function([0], [false], false, [], 0);
    var g3 := After(g2, Define(fn));
    StepKeeps(g2, Define(fn), NOUGHT_ONE);
    StepKeeps(g3, Append(0, Output.Expr(1)), NOUGHT_ONE);
    assert fn.outputs + [Output.Expr(1)] == [Output.Expr(1)];
    assert After(g3, Append(0, Output.Expr(1))).A.funcs == Folding().A.funcs;
    assert After(g3, Append(0, Output.Expr(1))).A.nodes == Folding().A.nodes;
    assert After(g3, Append(0, Output.Expr(1))) == Folding();
  }

  lemma FoldingUses(m: Module)
    requires Stores(m, Folding())
    ensures |m.nodes| == 4 && Used(m, Folding().A.nodes, 4) == Tables([], [])
  {
    LeavesUseNone(m, Folding().A.nodes, 4);
  }

  method BuildFolding() returns (graph: Graph)
    ensures fresh(graph) && graph.Valid() && graph.A() == Folding().A && graph.symbols == Folding().names
    ensures graph.tables == Tables([], [])
  {
    hide Arranged, Indexed;
    graph := new Graph(0, 1);
    var e, s;
    e, s := graph.Sym("p");
    assert graph.symbols == ["p"] && graph.nodes == NOUGHT_ONE + [Rewriting.Symbol(0)];
    e, s := graph.Sym("q");
    assert graph.symbols == ["p", "q"] && graph.nodes == Folding().A.nodes;
    hide Grows;
    var f := graph.PushFunction(Function([0], [false], false, [], 0));
    graph.PushOutput(f, Output.Expr(1));
    assert graph.funcs[0].outputs == [Output.Expr(1)];
    assert graph.funcs == Folding().A.funcs;
  }

  /** `f(p) = 1` called over `q`: the call is the constant, and its list stays in the pool
      without a node, so no load of the graph's module enters it. */
  method FoldedCall() returns (graph: Graph)
    ensures History(Built(graph.A(), graph.symbols), NOUGHT_ONE) && graph.tables.lists == [[3]]
    ensures forall m :: Stores(m, Built(graph.A(), graph.symbols)) ==>
                |m.nodes| == |graph.nodes| && Used(m, graph.nodes, |m.nodes|).lists == []
  {
    hide History, Stores, Arranged, Used, Indexed;
    graph := BuildFolding();
    var e := graph.CallIn(0, 0, NoContext, [3]);
    assert e == 1 && graph.nodes == Folding().A.nodes;
    FoldingHistory();
    forall m | Stores(m, Folding()) ensures |m.nodes| == 4 && Used(m, graph.nodes, 4) == Tables([], []) {
      FoldingUses(m);
    }
  }
}
