/** Loading a module into a graph: every node interned anew, functions defined as far as the
    sweep has met their outputs, and the values that come out of it. */
module Loading {
  import opened Basics
  import opened Bindings
  import opened Arenas
  import Rewriting
  import opened Modules

  type GraphNode = Rewriting.Node

  // --- a graph while it grows --------------------------------------------------------------------------

  /** What node `n` refers to, a called body included, comes before `e`. */
  ghost predicate NodeArranged(A: Arena, n: GraphNode, e: nat) {
    && (forall k :: 0 <= k < |n.Operands()| ==> n.Operands()[k] < e)
    && (n.Call? ==>
          && n.f < |A.funcs| && n.out < |A.funcs[n.f].outputs| && OutputBefore(A.funcs[n.f].outputs[n.out], e)
          && ContextOk(n.ctx, |A.funcs[n.f].params|) && |n.list| == Arity(n.ctx, |A.funcs[n.f].params|))
  }

  ghost predicate FuncArranged(A: Arena, f: nat)
    requires f < |A.funcs|
  {
    && |A.funcs[f].keeps| == |A.funcs[f].params|
    && forall k :: 0 <= k < |A.funcs[f].outputs| ==> OutputBefore(A.funcs[f].outputs[k], |A.nodes|)
  }

  ghost predicate Arranged(A: Arena) {
    && (forall e :: 0 <= e < |A.nodes| ==> NodeArranged(A, A.nodes[e], e))
    && forall f :: 0 <= f < |A.funcs| ==> FuncArranged(A, f)
  }

  /** The same function, with at least the outputs it had. */
  ghost predicate FuncGrows(f: Function, g: Function) {
    f.params == g.params && f.keeps == g.keeps && f.external == g.external && f.outputs <= g.outputs
  }

  ghost predicate Grows(A: Arena, B: Arena) {
    A.nodes <= B.nodes && |A.funcs| <= |B.funcs| && forall f :: 0 <= f < |A.funcs| ==> FuncGrows(A.funcs[f], B.funcs[f])
  }

  lemma NodeGrows(A: Arena, B: Arena, n: GraphNode, e: nat)
    requires Grows(A, B) && NodeArranged(A, n, e)
    ensures NodeArranged(B, n, e)
  {
    if n.Call? { assert FuncGrows(A.funcs[n.f], B.funcs[n.f]); }
  }

  /** Where a table gives each of `xs` its index. */
  ghost predicate Indexed<T(!new)>(xs: seq<T>, at: map<T, nat>) {
    && (forall k :: 0 <= k < |xs| ==> xs[k] in at && at[xs[k]] == k)
    && forall x :: x in at ==> at[x] < |xs| && xs[at[x]] == x
  }

  /** The node a call of output `out` comes to: the graph's zero, the constant the output is,
      or the call. */
  ghost predicate Called(A: Arena, zero: nat, call: GraphNode, e: nat)
    requires call.Call?
  {
    && call.f < |A.funcs| && call.out < |A.funcs[call.f].outputs| && e < |A.nodes|
    && match A.funcs[call.f].outputs[call.out]
       case Zero => e == zero
       case Expr(b) => b < |A.nodes| && if A.nodes[b].Const? then e == b else A.nodes[e] == call
       case External(_) => A.nodes[e] == call
  }

  // --- the map of a load ---------------------------------------------------------------------------------

  /** Where the sweep has put what it met; a function is mapped once it is defined. */
  datatype LoadMap = LoadMap(exprs: seq<nat>, symbols: seq<Option<nat>>, funcs: seq<Option<nat>>)

  function MapOutput(exprs: seq<nat>, o: Output): Output
    requires OutputBefore(o, |exprs|)
  { if o.Expr? then Output.Expr(exprs[o.e]) else o }

  function MapAll(exprs: seq<nat>, es: seq<nat>): (r: seq<nat>)
    requires forall k :: 0 <= k < |es| ==> es[k] < |exprs|
    ensures |r| == |es| && forall k :: 0 <= k < |es| ==> r[k] == exprs[es[k]]
  { seq(|es|, k requires 0 <= k < |es| => exprs[es[k]]) }

  /** Exactly the symbols met are mapped, to the symbols of their names. */
  ghost predicate SymbolsMapped(m: Module, map': LoadMap, names: seq<string>) {
    && |map'.symbols| == |m.symbols|
    && forall s :: 0 <= s < |m.symbols| ==>
        && (map'.symbols[s].Some? <==> Met(m, s, |map'.exprs|))
        && (map'.symbols[s].Some? ==> map'.symbols[s].value < |names| && names[map'.symbols[s].value] == m.symbols[s])
  }

  /** `fn` is function `f` of the module over the symbols of the graph, with the outputs it has
      so far; no proof about a load descends by its height. */
  ghost predicate FuncImage(m: Module, map': LoadMap, fn: Function, f: nat)
    requires f < |m.funcs|
  {
    var data := m.funcs[f];
    && |fn.params| == |fn.keeps| == |data.params| && fn.external == data.body.Some? && fn.height == 0
    && (forall k :: 0 <= k < |data.params| ==>
          data.params[k] < |map'.symbols| && map'.symbols[data.params[k]] == Some(fn.params[k]))
    && (forall k :: 0 <= k < |data.params| ==> fn.keeps[k] == (k < |data.keeps| && data.keeps[k]))
    && OutputsImage(m, map'.exprs, fn, f)
  }

  ghost predicate OutputsImage(m: Module, exprs: seq<nat>, fn: Function, f: nat)
    requires f < |m.funcs|
  {
    var outs := m.funcs[f].outputs;
    |fn.outputs| <= |outs| && forall k :: 0 <= k < |fn.outputs| ==>
        OutputBefore(outs[k], |exprs|) && fn.outputs[k] == MapOutput(exprs, outs[k])
  }

  /** All outputs up to the first that is not met yet. */
  ghost predicate UpToDate(m: Module, exprs: seq<nat>, fn: Function, f: nat)
    requires f < |m.funcs|
  {
    var outs := m.funcs[f].outputs;
    |fn.outputs| < |outs| ==> !OutputBefore(outs[|fn.outputs|], |exprs|)
  }

  /** The first `defined` functions follow the graph's own, `base` of them, in their order. */
  ghost predicate FuncsMapped(m: Module, map': LoadMap, A: Arena, base: nat, defined: nat) {
    && |map'.funcs| == |m.funcs| && defined <= |m.funcs| && |A.funcs| == base + defined
    && (forall f :: 0 <= f < |m.funcs| ==> map'.funcs[f] == if f < defined then Some(base + f) else None)
    && forall f :: 0 <= f < |m.funcs| && map'.funcs[f].Some? ==> FuncImage(m, map', A.funcs[map'.funcs[f].value], f)
  }

  /** The first `n` functions are defined and hold all the outputs they can. */
  ghost predicate Synced(m: Module, map': LoadMap, A: Arena, n: nat) {
    |map'.funcs| == |m.funcs| && forall g :: 0 <= g < n && g < |m.funcs| ==>
        && map'.funcs[g].Some? && map'.funcs[g].value < |A.funcs|
        && UpToDate(m, map'.exprs, A.funcs[map'.funcs[g].value], g)
  }

  ghost predicate ExprsMapped(exprs: seq<nat>, A: Arena) { forall j :: 0 <= j < |exprs| ==> exprs[j] < |A.nodes| }

  // --- what a node becomes -------------------------------------------------------------------------------

  /** The slots of `n` parameters of which `at` are bound. */
  ghost function SlotsOf(at: seq<nat>, n: nat): (r: seq<Slot>)
    ensures |r| == n
  { seq(n, p requires 0 <= p < n => if p in at then Bound(IndexOf(at, p)) else Passed(Free(at, p))) }

  ghost function ContextOver(f: nat, n: nat, at: seq<nat>, exprs: seq<nat>): Context {
    if at == [] then NoContext else Context(f, at, exprs, SlotsOf(at, n))
  }

  lemma SlotsUnique(c: Context, n: nat)
    requires ContextOk(c, n) && c.Context?
    ensures c.slot == SlotsOf(c.at, n)
  {
    forall p | 0 <= p < n ensures c.slot[p] == SlotsOf(c.at, n)[p] {
      if p in c.at { assert c.slot[c.at[IndexOf(c.at, p)]] == Bound(IndexOf(c.at, p)); }
    }
  }

  lemma {:induction false} Ascends(at: seq<nat>, i: nat, j: nat)
    requires AscendingStep(at) && i < j < |at|
    ensures at[i] < at[j]
    decreases j
  {
    if i < j - 1 { Ascends(at, i, j - 1); }
    assert at[j - 1] < at[j - 1 + 1];
  }

  function Slice(m: Module, l: Window): seq<nat>
  { if l.Past() <= |m.pool| then m.pool[l.start..l.Past()] else [] }

  /** The sum of a window's fields does not wrap. */
  predicate Unwrapped(l: Window) { l.Past() < 0x1_0000_0000 }

  predicate ContextReady(m: Module, o: nat, i: nat)
    requires o < |m.contexts|
  { m.contexts[o].Some? ==> Unwrapped(m.contexts[o].value.1) && ListBefore(m, m.contexts[o].value.1, i) }

  /** What the check does not ask of node `i`: that no window of it wraps around, and that the
      expressions its call's context binds come before it. */
  predicate NodeReady(m: Module, i: nat)
    requires i < |m.nodes|
  {
    match m.nodes[i]
    case Listed(_, _, l) => Unwrapped(l)
    case Call(o, l) => Unwrapped(l) && o < |m.contexts| && ContextReady(m, o, i)
    case _ => true
  }

  predicate LoadReady(m: Module) { forall i :: 0 <= i < |m.nodes| ==> NodeReady(m, i) }

  /** Operands read: the mapped nodes. */
  ghost predicate ListMapped(m: Module, exprs: seq<nat>, l: Window, r: seq<nat>) {
    ListBefore(m, l, |exprs|) && |r| == l.len && forall k :: 0 <= k < |r| ==> r[k] == exprs[m.pool[l.start + k]]
  }

  /** `c` binds what the context of call output `o` binds, in function `f` of the graph. */
  ghost predicate ContextImage(m: Module, exprs: seq<nat>, o: nat, f: nat, n: nat, c: Context)
    requires o < |m.contexts|
  {
    match m.contexts[o]
    case None => c.NoContext?
    case Some((at, l)) => exists bound :: ListMapped(m, exprs, l, bound) && c == ContextOver(f, n, at, bound)
  }

  /** Node `j` of the module is, at `e` of the graph, the same node over what its operands are there;
      of a call, what the call comes to. */
  ghost predicate NodeImage(m: Module, exprs: seq<nat>, base: nat, A: Arena, names: seq<string>, zero: nat, j: nat,
                            e: nat)
    requires j < |m.nodes| && e < |A.nodes|
  {
    match m.nodes[j]
    case Const(c) => c < |m.consts| && A.nodes[e] == Rewriting.Const(m.consts[c])
    case Symbol(s) =>
      s < |m.symbols| && A.nodes[e].Symbol? && A.nodes[e].s < |names| && names[A.nodes[e].s] == m.symbols[s]
    case Inline(op, args) =>
      (forall k :: 0 <= k < |args| ==> args[k] < |exprs|) && A.nodes[e] == Rewriting.Op(op, MapAll(exprs, args))
    case Listed(op, _, l) => A.nodes[e].Op? && A.nodes[e].op == op && ListMapped(m, exprs, l, A.nodes[e].args)
    case Call(o, l) =>
      && o < |m.callOutputs| == |m.contexts|
      && var (f, k) := m.callOutputs[o];
         f < |m.funcs| && exists c, list :: CallImage(m, exprs, base, A, zero, o, l, e, c, list)
  }

  ghost predicate CallImage(m: Module, exprs: seq<nat>, base: nat, A: Arena, zero: nat, o: nat, l: Window, e: nat,
                            c: Context, list: seq<nat>)
    requires o < |m.callOutputs| == |m.contexts| && m.callOutputs[o].0 < |m.funcs|
  {
    var (f, k) := m.callOutputs[o];
    && ContextImage(m, exprs, o, base + f, |m.funcs[f].params|, c) && ListMapped(m, exprs, l, list)
    && Called(A, zero, Rewriting.Call(base + f, k, c, list), e)
  }

  ghost predicate NodesMapped(m: Module, exprs: seq<nat>, base: nat, A: Arena, names: seq<string>, zero: nat) {
    |exprs| <= |m.nodes| && ExprsMapped(exprs, A) &&
    forall j :: 0 <= j < |exprs| ==> NodeImage(m, exprs, base, A, names, zero, j, exprs[j])
  }

  // --- what a whole load leaves ----------------------------------------------------------------------------

  ghost predicate Follows(ids: seq<nat>, j: nat)
    requires j < |ids|
  { exists i :: 0 <= i < j && ids[j] <= ids[i] + 1 }

  /** Ids given out one after the other: each is at most `start`, or one more than an earlier
      one; the last given out is there. */
  ghost predicate Compact(ids: seq<nat>, start: nat, size: nat) {
    && (forall j :: 0 <= j < |ids| ==> ids[j] <= start || Follows(ids, j))
    && (size <= start || exists i :: 0 <= i < |ids| && ids[i] == size - 1)
  }

  /** The symbol node `e` is of, of a symbol's node `j`. */
  ghost function SymbolAt(m: Module, nodes: seq<GraphNode>, j: nat, e: nat): seq<nat> {
    if j < |m.nodes| && m.nodes[j].Symbol? && e < |nodes| && nodes[e].Symbol? then [nodes[e].s] else []
  }

  /** The symbols of the mapped nodes in the graph, in the order of the nodes. */
  ghost function SymbolsOf(m: Module, exprs: seq<nat>, nodes: seq<GraphNode>): seq<nat> {
    if exprs == [] then []
    else
      var last := |exprs| - 1;
      SymbolsOf(m, exprs[..last], nodes) + SymbolAt(m, nodes, last, exprs[last])
  }

  /** No call came to another node. */
  ghost predicate Unfolded(m: Module, exprs: seq<nat>, nodes: seq<GraphNode>) {
    forall j :: 0 <= j < |exprs| && j < |m.nodes| && m.nodes[j].Call? ==> exprs[j] < |nodes| && nodes[exprs[j]].Call?
  }

  /** The tables `t` once the mapped nodes are interned, in their order. */
  ghost function TablesOf(m: Module, exprs: seq<nat>, nodes: seq<GraphNode>, t: Tables): Tables {
    if exprs == [] then t
    else
      var last := |exprs| - 1;
      var before := TablesOf(m, exprs[..last], nodes, t);
      if exprs[last] < |nodes| && last < |m.nodes| then Entered(before, nodes[exprs[last]], m.nodes[last].Listed?)
      else before
  }

  /** A body the function expects is not supplied. */
  predicate Lacks(m: Module, f: nat, supplied: set<string>)
    requires f < |m.funcs|
  { m.funcs[f].body.Some? && m.funcs[f].body.value !in supplied }

  predicate Lacking(m: Module, supplied: set<string>) { exists f :: 0 <= f < |m.funcs| && Lacks(m, f, supplied) }

  /** Every node mapped to its image, every function defined, in order, with all its outputs. */
  ghost predicate LoadedAs(m: Module, map': LoadMap, base: nat, A: Arena, names: seq<string>, zero: nat) {
    && |map'.exprs| == |m.nodes| && NodesMapped(m, map'.exprs, base, A, names, zero)
    && SymbolsMapped(m, map', names) && FuncsMapped(m, map', A, base, |m.funcs|)
    && forall f :: 0 <= f < |m.funcs| ==> AllOutputs(m, A, base, f)
  }

  ghost predicate AllOutputs(m: Module, A: Arena, base: nat, f: nat)
    requires f < |m.funcs|
  { base + f < |A.funcs| && |A.funcs[base + f].outputs| == |m.funcs[f].outputs| }

  /** What a load comes to: the module refused before anything is added, a read out of range,
      or the map. */
  datatype Outcome = Refused(error: ModuleError) | Panicked | Loaded(map': LoadMap)

  /** The operand lists a graph has interned, and the calls it has numbered, in their order. */
  datatype Tables = Tables(lists: seq<seq<nat>>, calls: seq<(nat, nat, Context)>)

  function Listing<T(==)>(xs: seq<T>, x: T): seq<T> { if x in xs then xs else xs + [x] }

  /** The tables once node `n` is interned: of a call what it binds, then what it passes. */
  function Entered(t: Tables, n: GraphNode, listed: bool): Tables {
    match n
    case Call(f, out, ctx, list) =>
      var lists := if ctx.Context? then Listing(t.lists, ctx.exprs) else t.lists;
      Tables(Listing(lists, list), Listing(t.calls, (f, out, ctx)))
    case Op(_, args) => if listed then t.(lists := Listing(t.lists, args)) else t
    case _ => t
  }

  /** Nothing added, or `e` at the end. */
  ghost predicate Added<T>(was: seq<T>, now: seq<T>, e: nat) { now == was || (|now| == |was| + 1 && e == |was|) }

  /** What a load may add: nothing to the functions the graph had. */
  ghost predicate Own(was: seq<Function>, now: seq<Function>, base: nat) {
    forall f :: 0 <= f < base && f < |was| ==> f < |now| && now[f] == was[f]
  }

  class Graph {
    var nodes: seq<GraphNode>
    var dedup: map<GraphNode, nat>
    var symbols: seq<string>
    var symbolIds: map<string, nat>
    var funcs: seq<Function>
    var zero: nat
    var tables: Tables

    function A(): Arena reads this { Arena(nodes, funcs) }

    ghost predicate Valid() reads this {
      Indexed(nodes, dedup) && Indexed(symbols, symbolIds) && Arranged(A()) && zero < |nodes| && nodes[zero].Const?
    }

    /** An empty graph, which holds zero and one. */
    constructor (nought: nat, one: nat)
      requires nought != one
      ensures Valid() && nodes == [Rewriting.Const(nought), Rewriting.Const(one)] && symbols == [] && funcs == []
      ensures zero == 0 && tables == Tables([], [])
    {
      nodes := [Rewriting.Const(nought), Rewriting.Const(one)];
      dedup := map[Rewriting.Const(nought) := 0, Rewriting.Const(one) := 1];
      symbols, symbolIds, funcs, zero, tables := [], map[], [], 0, Tables([], []);
    }

    method Intern(n: GraphNode) returns (e: nat)
      requires Valid() && NodeArranged(A(), n, |nodes|)
      modifies this`nodes, this`dedup
      ensures Valid() && Grows(old(A()), A()) && e < |nodes| && nodes[e] == n && Added(old(nodes), nodes, e)
    {
      if n in dedup { return dedup[n]; }
      e := |nodes|;
      nodes := nodes + [n];
      dedup := dedup[n := e];
      forall d | 0 <= d < |nodes| ensures NodeArranged(A(), nodes[d], d) {
        NodeGrows(old(A()), A(), nodes[d], d);
      }
      forall f | 0 <= f < |funcs| ensures FuncArranged(A(), f) { assert FuncArranged(old(A()), f); }
    }

    method Sym(name: string) returns (e: nat, s: nat)
      requires Valid()
      modifies this`nodes, this`dedup, this`symbols, this`symbolIds
      ensures Valid() && Grows(old(A()), A()) && old(symbols) <= symbols
      ensures e < |nodes| && nodes[e] == Rewriting.Symbol(s) && s < |symbols| && symbols[s] == name
      ensures Added(old(nodes), nodes, e) && Added(old(symbols), symbols, s)
    {
      if name in symbolIds {
        s := symbolIds[name];
      } else {
        s := |symbols|;
        symbols := symbols + [name];
        symbolIds := symbolIds[name := s];
      }
      e := Intern(Rewriting.Symbol(s));
    }

    /** A list of operands entered in the pool. */
    method InternList(list: seq<nat>)
      requires Valid()
      modifies this`tables
      ensures Valid() && tables == old(tables).(lists := Listing(old(tables).lists, list))
    {
      tables := tables.(lists := Listing(tables.lists, list));
    }

    /** A call of output `out` through `ctx`: its list is entered even where it comes to another
        node. */
    method CallIn(f: nat, out: nat, ctx: Context, list: seq<nat>) returns (e: nat)
      requires Valid() && NodeArranged(A(), Rewriting.Call(f, out, ctx, list), |nodes|)
      modifies this`nodes, this`dedup, this`tables
      ensures Valid() && Grows(old(A()), A()) && Called(A(), zero, Rewriting.Call(f, out, ctx, list), e)
      ensures e < |nodes| && Added(old(nodes), nodes, e)
      ensures nodes[e].Call? ==>
                  && nodes[e] == Rewriting.Call(f, out, ctx, list)
                  && tables == Tables(Listing(old(tables).lists, list), Listing(old(tables).calls, (f, out, ctx)))
      ensures nodes[e].Const? && (ctx.Context? || !old(funcs)[f].outputs[out].Zero?) ==>
                  tables == old(tables).(lists := Listing(old(tables).lists, list))
    {
      hide Indexed, Arranged;
      if ctx.NoContext? && funcs[f].outputs[out].Zero? { return zero; }
      InternList(list);
      match funcs[f].outputs[out] {
        case Zero => return zero;
        case Expr(b) => if nodes[b].Const? { return b; }
        case External(_) =>
      }
      tables := tables.(calls := Listing(tables.calls, (f, out, ctx)));
      e := Intern(Rewriting.Call(f, out, ctx, list));
    }

    // --- functions ------------------------------------------------------------------------------------

    /** The outputs of a function the sweep has met since, up to the first it has not. */
    method PushOutputs(m: Module, f: nat, id: nat, map': LoadMap)
      requires Valid() && f < |m.funcs| && id < |funcs| && ExprsMapped(map'.exprs, A())
      requires FuncImage(m, map', funcs[id], f)
      modifies this`funcs
      ensures Valid() && Grows(old(A()), A()) && |funcs| == |old(funcs)|
      ensures forall g :: 0 <= g < |funcs| && g != id ==> funcs[g] == old(funcs)[g]
      ensures FuncImage(m, map', funcs[id], f) && UpToDate(m, map'.exprs, funcs[id], f)
    {
      var outs := m.funcs[f].outputs;
      while |funcs[id].outputs| < |outs| && OutputBefore(outs[|funcs[id].outputs|], |map'.exprs|)
        invariant Valid() && Grows(old(A()), A()) && |funcs| == |old(funcs)|
        invariant forall g :: 0 <= g < |funcs| && g != id ==> funcs[g] == old(funcs)[g]
        invariant FuncImage(m, map', funcs[id], f)
        decreases |outs| - |funcs[id].outputs|
      {
        var o := MapOutput(map'.exprs, outs[|funcs[id].outputs|]);
        PushOutput(id, o);
      }
    }

    method PushOutput(id: nat, o: Output)
      requires Valid() && id < |funcs| && OutputBefore(o, |nodes|)
      modifies this`funcs
      ensures Valid() && Grows(old(A()), A())
      ensures funcs == old(funcs)[id := old(funcs)[id].(outputs := old(funcs)[id].outputs + [o])]
    {
      funcs := funcs[id := funcs[id].(outputs := funcs[id].outputs + [o])];
      forall f | 0 <= f < |funcs| ensures FuncArranged(A(), f) && FuncGrows(old(A()).funcs[f], funcs[f]) {
        assert FuncArranged(old(A()), f);
      }
      Regrown(old(A()), A());
    }

    method PushFunction(fn: Function) returns (id: nat)
      requires Valid() && |fn.keeps| == |fn.params| && fn.outputs == []
      modifies this`funcs
      ensures Valid() && Grows(old(A()), A()) && id == |old(funcs)| && funcs == old(funcs) + [fn]
    {
      id := |funcs|;
      funcs := funcs + [fn];
      forall f | 0 <= f < |funcs| ensures FuncArranged(A(), f) {
        if f < id { assert FuncArranged(old(A()), f); }
      }
      Regrown(old(A()), A());
    }

    /** Function `f` of the module over the graph's symbols, without outputs. */
    method Define(m: Module, f: nat, map': LoadMap, ghost base: nat) returns (r: LoadMap)
      requires Valid() && f < |m.funcs| && FuncsMapped(m, map', A(), base, f) && SymbolsMapped(m, map', symbols)
      requires RefersFit(m, f) && ParamsMet(m, f, |map'.exprs|)
      modifies this`funcs
      ensures Valid() && Grows(old(A()), A()) && |funcs| == base + f + 1
      ensures forall g :: 0 <= g < base + f ==> funcs[g] == old(funcs)[g]
      ensures r == map'.(funcs := r.funcs) && FuncsMapped(m, r, A(), base, f + 1)
    {
      hide Met, Arranged, Indexed;
      var data := m.funcs[f];
      forall k | 0 <= k < |data.params| ensures map'.symbols[data.params[k]].Some? {
        assert Met(m, data.params[k], |map'.exprs|);
      }
      var params := seq(|data.params|, k requires 0 <= k < |data.params| => map'.symbols[data.params[k]].value);
      var keeps := seq(|data.params|, k requires 0 <= k < |data.params| => k < |data.keeps| && data.keeps[k]);
      var id := PushFunction(Function(params, keeps, data.body.Some?, [], 0));
      r := map'.(funcs := map'.funcs[f := Some(id)]);
    }

    /** `f` and every function before it defined, each with the outputs the sweep has met. */
    method Sync(m: Module, f: nat, map': LoadMap, ghost base: nat, ghost defined: nat)
      returns (r: LoadMap, ghost now: nat)
      requires Valid() && f < |m.funcs| && ExprsMapped(map'.exprs, A()) && SymbolsMapped(m, map', symbols)
      requires (forall g :: 0 <= g < |m.funcs| ==> RefersFit(m, g)) && Ready(m, f, |map'.exprs|)
      requires FuncsMapped(m, map', A(), base, defined)
      modifies this`funcs
      ensures Valid() && Grows(old(A()), A()) && Own(old(funcs), funcs, base)
      ensures r == map'.(funcs := r.funcs) && defined <= now && f < now && FuncsMapped(m, r, A(), base, now)
      ensures Synced(m, r, A(), f + 1)
    {
      hide Met, Arranged, Indexed, RefersFit, FuncImage, ParamsMet, UpToDate, Grows;
      GrowsSelf(A());
      r, now := map', defined;
      for g := 0 to f + 1
        invariant Valid() && Grows(old(A()), A())
        invariant r == map'.(funcs := r.funcs) && defined <= now && g <= now && FuncsMapped(m, r, A(), base, now)
        invariant Own(old(funcs), funcs, base)
        invariant Synced(m, r, A(), g)
      {
        ghost var first, was := r, A();
        if r.funcs[g].None? {
          r := Define(m, g, r, base);
          now := g + 1;
        } else {
          GrowsSelf(A());
        }
        ghost var defining := A();
        PushOutputs(m, g, r.funcs[g].value, r);
        GrowsOn(was, defining, A());
        GrowsOn(old(A()), was, A());
        StillSynced(m, first, was, r, A(), g);
      }
    }

    // --- the sweep --------------------------------------------------------------------------------------

    ghost predicate LoadOk(m: Module, map': LoadMap, base: nat, defined: nat) reads this {
      && Valid() && |map'.exprs| <= |m.nodes| && ExprsMapped(map'.exprs, A())
      && SymbolsMapped(m, map', symbols) && FuncsMapped(m, map', A(), base, defined)
      && NodesMapped(m, map'.exprs, base, A(), symbols, zero)
    }

    /** The node of a symbol, its name looked up or made. */
    method LoadSymbol(m: Module, s: nat, map': LoadMap) returns (e: nat, r: LoadMap)
      requires Valid() && SymbolsMapped(m, map', symbols) && s < |m.symbols|
      requires |map'.exprs| < |m.nodes| && m.nodes[|map'.exprs|] == Symbol(s)
      modifies this`nodes, this`dedup, this`symbols, this`symbolIds
      ensures Valid() && Grows(old(A()), A()) && old(symbols) <= symbols
      ensures e < |nodes| && nodes[e].Symbol? && nodes[e].s < |symbols| && symbols[nodes[e].s] == m.symbols[s]
      ensures r == map'.(exprs := map'.exprs + [e], symbols := r.symbols) && SymbolsMapped(m, r, symbols)
      ensures |r.symbols| == |map'.symbols| && Added(old(nodes), nodes, e) && Added(old(symbols), symbols, nodes[e].s)
      ensures forall t :: 0 <= t < |map'.symbols| && map'.symbols[t].Some? ==> r.symbols[t] == map'.symbols[t]
    {
      var t;
      e, t := Sym(m.symbols[s]);
      r := map'.(exprs := map'.exprs + [e], symbols := map'.symbols[s := Some(t)]);
      forall u | 0 <= u < |m.symbols| ensures Met(m, u, |r.exprs|) <==> u == s || Met(m, u, |map'.exprs|) {
        MetNext(m, u, |map'.exprs|);
      }
    }

    /** Of a call: its function brought up to the sweep, its binding made, the call interned. */
    method LoadCall(m: Module, o: nat, list: seq<nat>, ghost l: Window, map': LoadMap, ghost base: nat,
                    ghost defined: nat)
      returns (e: Option<nat>, r: LoadMap, ghost now: nat)
      requires Passes(m) && LoadOk(m, map', base, defined) && o < |m.callOutputs|
      requires |map'.exprs| < |m.nodes| && m.nodes[|map'.exprs|] == Call(o, l) && ListMapped(m, map'.exprs, l, list)
      modifies this`nodes, this`dedup, this`funcs, this`tables
      ensures e.Some? && e.value < |nodes| && nodes[e.value].Call? ==>
                  tables == Entered(old(tables), nodes[e.value], false)
      ensures Valid() && Grows(old(A()), A()) && r == map'.(funcs := r.funcs)
      ensures e.Some? <==> ContextReady(m, o, |map'.exprs|)
      ensures e.Some? ==> e.value < |nodes| && FuncsMapped(m, r, A(), base, now)
      ensures o < |m.callOutputs| == |m.contexts| && m.callOutputs[o].0 < |m.funcs|
      ensures Own(old(funcs), funcs, base) && (e.Some? ==> Added(old(nodes), nodes, e.value))
      ensures e.Some? ==> exists c :: CallImage(m, r.exprs, base, A(), zero, o, l, e.value, c, list)
    {
      hide Passes, Ready, RefersFit, NodesMapped, SymbolsMapped, Indexed, Arranged, NodeArranged, FuncImage, UpToDate,
        ContextOk, ContextImage, ListMapped, Called, AscendingStep, Grows, FuncsMapped, Synced, CallOutputFits;
      CallFacts(m, |map'.exprs|, o, l);
      var (f, k) := m.callOutputs[o];
      r, now := Sync(m, f, map', base, defined);
      FuncMapped(m, r, A(), base, now, f);
      ghost var synced := A();
      var c := Binding(m, o, r.funcs[f].value, |m.funcs[f].params|, map'.exprs);
      if c.None? { return None, r, now; }
      OperandsThere(m, map'.exprs, o, l, r.funcs[f].value, |m.funcs[f].params|, c.value, list, A());
      CallArranged(m, r, A(), f, k, r.funcs[f].value, c.value, list);
      if c.value.Context? { InternList(c.value.exprs); }
      var call := CallIn(r.funcs[f].value, k, c.value, list);
      GrowsOn(old(A()), synced, A());
      FuncsKept(m, r, r, synced, A(), base, now);
      e := Some(call);
      assert CallImage(m, r.exprs, base, A(), zero, o, l, call, c.value, list);
    }

    /** A node with no symbol and no call. */
    method LoadPlain(m: Module, n: GraphNode, map': LoadMap, ghost base: nat, ghost defined: nat)
      returns (e: nat, r: LoadMap)
      requires LoadOk(m, map', base, defined) && |map'.exprs| < |m.nodes| && !m.nodes[|map'.exprs|].Symbol?
      requires NodeArranged(A(), n, |nodes|)
      modifies this`nodes, this`dedup
      ensures Valid() && Grows(old(A()), A()) && e < |nodes| && nodes[e] == n && Added(old(nodes), nodes, e)
      ensures r == map'.(exprs := map'.exprs + [e])
      ensures SymbolsMapped(m, r, symbols) && FuncsMapped(m, r, A(), base, defined)
    {
      hide SymbolsMapped, NodesMapped, FuncsMapped, Indexed, Arranged, NodeArranged, Grows;
      e := Intern(n);
      r := map'.(exprs := map'.exprs + [e]);
      SymbolsStep(m, map', r, symbols, symbols);
      FuncsKept(m, map', r, old(A()), A(), base, defined);
    }

    method MakeList(m: Module, op: nat, ghost shape: Shape, l: Window, map': LoadMap, ghost base: nat,
                    ghost defined: nat)
      returns (e: Option<nat>, r: LoadMap)
      requires LoadOk(m, map', base, defined) && |map'.exprs| < |m.nodes|
      requires m.nodes[|map'.exprs|] == Listed(op, shape, l) && ListBefore(m, l, |map'.exprs|)
      modifies this`nodes, this`dedup, this`tables
      ensures e.Some? && e.value < |nodes| ==> tables == Entered(old(tables), nodes[e.value], true)
      ensures Valid() && Grows(old(A()), A()) && (e.Some? <==> NodeReady(m, |map'.exprs|))
      ensures e.Some? ==> e.value < |nodes| && r.exprs == map'.exprs + [e.value] && Added(old(nodes), nodes, e.value)
      ensures e.Some? ==> SymbolsMapped(m, r, symbols) && FuncsMapped(m, r, A(), base, defined)
      ensures e.Some? ==> NodeImage(m, map'.exprs, base, A(), symbols, zero, |map'.exprs|, e.value)
    {
      hide NodesMapped, SymbolsMapped, FuncsMapped, Indexed, Arranged, Grows;
      GrowsSelf(A());
      var args := ReadList(m, map'.exprs, l);
      if args.None? { return None, map'; }
      InternList(args.value);
      var made;
      made, r := LoadPlain(m, Rewriting.Op(op, args.value), map', base, defined);
      e := Some(made);
    }

    method MakeCall(m: Module, o: nat, l: Window, map': LoadMap, ghost base: nat, ghost defined: nat)
      returns (e: Option<nat>, r: LoadMap, ghost now: nat)
      requires Passes(m) && LoadOk(m, map', base, defined)
      requires |map'.exprs| < |m.nodes| && m.nodes[|map'.exprs|] == Call(o, l)
      modifies this`nodes, this`dedup, this`funcs, this`tables
      ensures e.Some? && e.value < |nodes| && nodes[e.value].Call? ==>
                  tables == Entered(old(tables), nodes[e.value], false)
      ensures Own(old(funcs), funcs, base) && o < |m.contexts| && Valid() && Grows(old(A()), A())
      ensures e.Some? <==> NodeReady(m, |map'.exprs|)
      ensures e.Some? ==> e.value < |nodes| && r.exprs == map'.exprs + [e.value] && Added(old(nodes), nodes, e.value)
      ensures e.Some? ==> SymbolsMapped(m, r, symbols) && FuncsMapped(m, r, A(), base, now)
      ensures e.Some? ==> NodeImage(m, map'.exprs, base, A(), symbols, zero, |map'.exprs|, e.value)
    {
      hide Passes, Ready, NodesMapped, SymbolsMapped, FuncsMapped, Indexed, Arranged, CallImage, Grows,
        ContextReady, Unwrapped;
      CallFacts(m, |map'.exprs|, o, l);
      GrowsSelf(A());
      r, now := map', defined;
      var list := ReadList(m, map'.exprs, l);
      if list.None? { return None, r, now; }
      var synced;
      e, synced, now := LoadCall(m, o, list.value, l, map', base, defined);
      if e.None? { return; }
      r := synced.(exprs := map'.exprs + [e.value]);
      SymbolsStep(m, map', r, symbols, symbols);
      FuncsKept(m, synced, r, A(), A(), base, now);
    }

    /** One node in its kind, or a read out of range where it is not ready. */
    method MakeNode(m: Module, map': LoadMap, ghost base: nat, ghost defined: nat)
      returns (e: Option<nat>, r: LoadMap, ghost now: nat)
      requires Passes(m) && LoadOk(m, map', base, defined) && |map'.exprs| < |m.nodes|
      modifies this`nodes, this`dedup, this`symbols, this`symbolIds, this`funcs, this`tables
      ensures Valid() && Grows(old(A()), A()) && old(symbols) <= symbols
      ensures e.Some? <==> NodeReady(m, |map'.exprs|)
      ensures e.Some? ==> e.value < |nodes| && r.exprs == map'.exprs + [e.value] && Added(old(nodes), nodes, e.value)
      ensures e.Some? ==> SymbolsMapped(m, r, symbols) && FuncsMapped(m, r, A(), base, now)
      ensures e.Some? ==> NodeImage(m, map'.exprs, base, A(), symbols, zero, |map'.exprs|, e.value)
      ensures Own(old(funcs), funcs, base)
      ensures e.Some? ==> if m.nodes[|map'.exprs|].Symbol? then
                            && nodes[e.value].Symbol? && nodes[e.value].s < |symbols|
                            && Added(old(symbols), symbols, nodes[e.value].s)
                          else symbols == old(symbols)
      ensures e.Some? && (m.nodes[|map'.exprs|].Call? ==> nodes[e.value].Call?) ==>
                  tables == Entered(old(tables), nodes[e.value], m.nodes[|map'.exprs|].Listed?)
    {
      hide Passes, CallFits, NodesMapped, SymbolsMapped, FuncsMapped, Indexed, Arranged, CallImage, Called, Grows,
        ListMapped, ListBefore, ContextReady;
      NodeFacts(m, |map'.exprs|);
      r, now := map', defined;
      match m.nodes[|map'.exprs|] {
        case Const(c) =>
          var made;
          made, r := LoadPlain(m, Rewriting.Const(m.consts[c]), map', base, defined);
          e := Some(made);
        case Symbol(s) =>
          var made;
          made, r := LoadSymbol(m, s, map');
          FuncsKept(m, map', r, old(A()), A(), base, defined);
          e := Some(made);
        case Inline(op, args) =>
          var made;
          made, r := LoadPlain(m, Rewriting.Op(op, MapAll(map'.exprs, args)), map', base, defined);
          e := Some(made);
        case Listed(op, shape, l) =>
          e, r := MakeList(m, op, shape, l, map', base, defined);
        case Call(o, l) =>
          e, r, now := MakeCall(m, o, l, map', base, defined);
      }
    }

    method LoadNode(m: Module, map': LoadMap, ghost base: nat, ghost defined: nat)
      returns (ok: bool, r: LoadMap, ghost now: nat)
      requires Passes(m) && LoadOk(m, map', base, defined) && |map'.exprs| < |m.nodes|
      modifies this`nodes, this`dedup, this`symbols, this`symbolIds, this`funcs, this`tables
      ensures Valid() && Grows(old(A()), A()) && old(symbols) <= symbols
      ensures Own(old(funcs), funcs, base)
      ensures ok <==> NodeReady(m, |map'.exprs|)
      ensures ok ==> LoadOk(m, r, base, now) && |r.exprs| == |map'.exprs| + 1
      ensures ok ==> var i, e := |map'.exprs|, r.exprs[|map'.exprs|];
                     && map'.exprs <= r.exprs && e < |nodes| && Added(old(nodes), nodes, e)
                     && if m.nodes[i].Symbol? then
                          nodes[e].Symbol? && nodes[e].s < |symbols| && Added(old(symbols), symbols, nodes[e].s)
                        else symbols == old(symbols)
      ensures ok ==> var i, e := |map'.exprs|, r.exprs[|map'.exprs|];
                     (m.nodes[i].Call? ==> nodes[e].Call?) ==>
                         tables == Entered(old(tables), nodes[e], m.nodes[i].Listed?)
    {
      hide Entered, Passes, NodeFits, SymbolsMapped, FuncsMapped, NodesMapped, Indexed, Arranged, Grows, NodeImage;
      var e;
      e, r, now := MakeNode(m, map', base, defined);
      ok := e.Some?;
      if ok {
        NodesStep(m, map'.exprs, base, old(A()), A(), old(symbols), symbols, zero, e.value);
        ExprsOf(m, r.exprs, base, A(), symbols, zero);
      }
    }

    /** Loads a module that passes, whole; panics exactly where a node is not ready. */
    method Load(m: Module, supplied: set<string>) returns (r: Outcome)
      requires Valid()
      modifies this`nodes, this`dedup, this`symbols, this`symbolIds, this`funcs, this`tables
      ensures Valid() && Grows(old(A()), A()) && old(symbols) <= symbols
      ensures r.Refused? <==> !Passes(m) || Lacking(m, supplied)
      ensures r.Refused? ==> A() == old(A()) && symbols == old(symbols) && tables == old(tables)
      ensures !r.Refused? ==> (r.Loaded? <==> LoadReady(m))
      ensures r.Loaded? ==> LoadedAs(m, r.map', |old(funcs)|, A(), symbols, zero) && Extends(old(A()), A())
      ensures r.Loaded? ==> Compact(r.map'.exprs, |old(nodes)|, |nodes|)
      ensures r.Loaded? ==>
                Compact(SymbolsOf(m, r.map'.exprs, nodes), |old(symbols)|, |symbols|)
      ensures r.Loaded? && Unfolded(m, r.map'.exprs, nodes) ==>
                  tables == TablesOf(m, r.map'.exprs, nodes, old(tables))
    {
      hide Entered, Unfolded, TablesOf, Compact, SymbolsOf, Lacking, LoadedAs, Passes, NodeFits, NodeReady,
           SymbolsMapped, FuncsMapped, NodesMapped, Indexed, Arranged, Grows;
      GrowsSelf(A());
      var bad := Check(m, supplied);
      if bad.Some? { return Refused(bad.value); }
      var map' := LoadMap([], seq(|m.symbols|, _ => None), seq(|m.funcs|, _ => None));
      ghost var base, defined := |funcs|, 0;
      Nothing(m, map', A(), symbols, zero);
      CompactNone(m, |nodes|);
      CompactNone(m, |symbols|);
      TablesNone(m, nodes, tables);
      for i := 0 to |m.nodes|
        invariant LoadOk(m, map', base, defined) && |map'.exprs| == i
        invariant Grows(old(A()), A()) && old(symbols) <= symbols
        invariant forall j :: 0 <= j < i ==> NodeReady(m, j)
        invariant Own(old(funcs), funcs, base) && Compact(map'.exprs, |old(nodes)|, |nodes|)
        invariant Compact(SymbolsOf(m, map'.exprs, nodes), |old(symbols)|, |symbols|)
        invariant Unfolded(m, map'.exprs, nodes) ==> tables == TablesOf(m, map'.exprs, nodes, old(tables))
      {
        ghost var was, names, exprs := A(), symbols, map'.exprs;
        var ok;
        ok, map', defined := LoadNode(m, map', base, defined);
        GrowsOn(old(A()), was, A());
        if !ok { return Panicked; }
        NodesKept(was, A());
        assert map'.exprs == exprs + [map'.exprs[i]];
        CompactNext(exprs, |old(nodes)|, |was.nodes|, map'.exprs, |nodes|);
        SymbolsNext(m, exprs, map'.exprs[i], was.nodes, nodes, |old(symbols)|, |names|, |symbols|);
        TablesNext(m, exprs, map'.exprs[i], was.nodes, nodes, old(tables));
      }
      ghost var was, swept := A(), map';
      GrowsSelf(A());
      if |m.funcs| > 0 {
        LastReady(m);
        map', defined := Sync(m, |m.funcs| - 1, map', base, defined);
      }
      GrowsOn(old(A()), was, A());
      Finished(m, swept, map', base, defined, was, A(), symbols, zero);
      OwnKept(old(A()), A());
      return Loaded(map');
    }
  }

  /** The check, and every body the functions expect found among the supplied ones. */
  method Check(m: Module, supplied: set<string>) returns (bad: Option<ModuleError>)
    ensures bad.None? <==> Passes(m) && !Lacking(m, supplied)
  {
    hide Passes;
    bad := Validate(m);
    if bad.Some? { return; }
    if exists f :: 0 <= f < |m.funcs| && Lacks(m, f, supplied) {
      var f :| 0 <= f < |m.funcs| && Lacks(m, f, supplied);
      return Some(MissingExtern(m.funcs[f].body.value));
    }
  }

  lemma OwnKept(A: Arena, B: Arena)
    requires Grows(A, B) && Own(A.funcs, B.funcs, |A.funcs|)
    ensures Extends(A, B)
  {
  }

  /** The operands of a window mapped, where the window lies in the pool and they are there. */
  method ReadList(m: Module, exprs: seq<nat>, l: Window) returns (r: Option<seq<nat>>)
    requires l.End() <= |m.pool|
    ensures r.Some? <==> Unwrapped(l) && ListBefore(m, l, |exprs|)
    ensures r.Some? ==> ListMapped(m, exprs, l, r.value)
  {
    if l.End() < l.start { return None; }
    var list := m.pool[l.start..l.End()];
    if exists k :: 0 <= k < |list| && list[k] >= |exprs| {
      var k :| 0 <= k < |list| && list[k] >= |exprs|;
      assert m.pool[l.start + k] >= |exprs|;
      return None;
    }
    r := Some(seq(|list|, k requires 0 <= k < |list| => exprs[list[k]]));
    forall k | l.start <= k < l.Past() ensures m.pool[k] < |exprs| { assert list[k - l.start] == m.pool[k]; }
  }

  /** The binding a call output's context makes for function `f` of the graph. */
  method Binding(m: Module, o: nat, f: nat, n: nat, exprs: seq<nat>) returns (c: Option<Context>)
    requires CallOutput(m, o) && n == |m.funcs[m.callOutputs[o].0].params|
    ensures c.Some? <==> ContextReady(m, o, |exprs|)
    ensures c.Some? ==> ContextOk(c.value, n) && Arity(c.value, n) == n - BoundCount(m.contexts[o])
    ensures c.Some? ==> ContextImage(m, exprs, o, f, n, c.value)
  {
    if m.contexts[o].None? { return Some(NoContext); }
    var (at, l) := m.contexts[o].value;
    var bound := ReadList(m, exprs, l);
    if bound.None? { return None; }
    var made := BindAt(f, n, at, bound.value);
    return Some(made);
  }

  predicate CallOutput(m: Module, o: nat) {
    o < |m.callOutputs| == |m.contexts| && CallOutputFits(m, o)
  }

  /** What a call refers to is in the graph. */
  lemma OperandsThere(m: Module, exprs: seq<nat>, o: nat, l: Window, f: nat, n: nat, c: Context, list: seq<nat>,
                      A: Arena)
    requires o < |m.contexts| && ExprsMapped(exprs, A)
    requires ListMapped(m, exprs, l, list) && ContextImage(m, exprs, o, f, n, c)
    ensures |list| == l.Length() && forall j :: 0 <= j < |list| ==> list[j] < |A.nodes|
    ensures forall j :: 0 <= j < |c.Exprs()| ==> c.Exprs()[j] < |A.nodes|
  {
  }

  /** The binding of parameters given in ascending order is over just these. */
  method BindAt(f: nat, n: nat, at: seq<nat>, exprs: seq<nat>) returns (c: Context)
    requires |at| == |exprs| && AscendingStep(at) && forall j :: 0 <= j < |at| ==> at[j] < n
    ensures ContextOk(c, n) && c == ContextOver(f, n, at, exprs)
  {
    var pairs := seq(|at|, j requires 0 <= j < |at| => (at[j], exprs[j]));
    c := Bind(f, n, pairs);
    assert KeptPairs(pairs) == pairs by { AscendingKept(pairs, at); }
    assert Firsts(pairs) == at && Seconds(pairs) == exprs;
    if c.Context? { SlotsUnique(c, n); }
  }

  lemma AscendingKept(pairs: seq<(nat, nat)>, at: seq<nat>)
    requires AscendingStep(at) && Firsts(pairs) == at
    ensures KeptPairs(pairs) == pairs
  {
    hide Sort, Dedup, AscendingStep;
    forall i, j | 0 <= i < j < |at| ensures at[i] < at[j] { Ascends(at, i, j); }
    forall q ensures q in KeptPairs(pairs) <==> q in pairs {
      forall o | o in pairs && q in pairs && o.0 == q.0 ensures o == q {
        var i, j :| 0 <= i < |pairs| && pairs[i] == o && 0 <= j < |pairs| && pairs[j] == q;
        assert Firsts(pairs)[i] == o.0 && Firsts(pairs)[j] == q.0;
      }
    }
    SamePairs(KeptPairs(pairs), pairs);
  }

  lemma NodeFacts(m: Module, i: nat)
    requires Passes(m) && i < |m.nodes|
    ensures |m.callOutputs| == |m.contexts| && (forall o :: 0 <= o < |m.callOutputs| ==> CallOutputFits(m, o))
    ensures NodeFits(m, i)
  {
  }

  lemma FuncMapped(m: Module, map': LoadMap, A: Arena, base: nat, defined: nat, f: nat)
    requires f < defined && FuncsMapped(m, map', A, base, defined) && Synced(m, map', A, f + 1)
    ensures f < |m.funcs| == |map'.funcs| && map'.funcs[f] == Some(base + f) && base + f < |A.funcs|
    ensures FuncImage(m, map', A.funcs[base + f], f) && UpToDate(m, map'.exprs, A.funcs[base + f], f)
  {
    hide FuncImage, UpToDate;
  }

  /** What the check has seen to of a call. */
  lemma CallFacts(m: Module, i: nat, o: nat, l: Window)
    requires Passes(m) && i < |m.nodes| && m.nodes[i] == Call(o, l)
    ensures CallOutput(m, o) && ListBefore(m, l, i)
    ensures forall f :: 0 <= f < |m.funcs| ==> RefersFit(m, f)
    ensures var (f, k) := m.callOutputs[o];
            && f < |m.funcs| && k < |m.funcs[f].outputs|
            && |m.funcs[f].params| == l.Length() + BoundCount(m.contexts[o]) && Ready(m, f, i)
            && forall j :: 0 <= j <= k ==> OutputBefore(m.funcs[f].outputs[j], i)
  {
    hide Ready, CallFits, RefersFit, ParamsMet, ContextFits;
    assert NodeFits(m, i);
    forall f | 0 <= f < |m.funcs| ensures RefersFit(m, f) { assert FuncFits(m, f); }
    CallParts(m, i, o, l);
  }

  lemma CallParts(m: Module, i: nat, o: nat, l: Window)
    requires |m.callOutputs| == |m.contexts| && forall o :: 0 <= o < |m.callOutputs| ==> CallOutputFits(m, o)
    requires CallFits(m, i, o, l)
    ensures CallOutput(m, o)
    ensures var (f, k) := m.callOutputs[o];
            && f < |m.funcs| && k < |m.funcs[f].outputs|
            && |m.funcs[f].params| == l.Length() + BoundCount(m.contexts[o]) && Ready(m, f, i)
            && forall j :: 0 <= j <= k ==> OutputBefore(m.funcs[f].outputs[j], i)
  {
    hide Ready;
  }

  /** A function brought up to the sweep has every output all the outputs up to which are met. */
  lemma OutputThere(m: Module, map': LoadMap, fn: Function, f: nat, k: nat, A: Arena)
    requires f < |m.funcs| && FuncImage(m, map', fn, f) && UpToDate(m, map'.exprs, fn, f) && ExprsMapped(map'.exprs, A)
    requires k < |m.funcs[f].outputs|
    requires forall j :: 0 <= j <= k ==> OutputBefore(m.funcs[f].outputs[j], |map'.exprs|)
    ensures k < |fn.outputs| && OutputBefore(fn.outputs[k], |A.nodes|)
  {
  }

  /** A call over what is mapped may come next. */
  lemma CallArranged(m: Module, map': LoadMap, A: Arena, f: nat, k: nat, id: nat, c: Context, list: seq<nat>)
    requires f < |m.funcs| && k < |m.funcs[f].outputs| && id < |A.funcs| && ExprsMapped(map'.exprs, A)
    requires FuncImage(m, map', A.funcs[id], f) && UpToDate(m, map'.exprs, A.funcs[id], f)
    requires forall j :: 0 <= j <= k ==> OutputBefore(m.funcs[f].outputs[j], |map'.exprs|)
    requires ContextOk(c, |m.funcs[f].params|) && |list| == Arity(c, |m.funcs[f].params|)
    requires forall j :: 0 <= j < |list| ==> list[j] < |A.nodes|
    requires forall j :: 0 <= j < |c.Exprs()| ==> c.Exprs()[j] < |A.nodes|
    ensures NodeArranged(A, Rewriting.Call(id, k, c, list), |A.nodes|)
  {
    hide ContextOk;
    OutputThere(m, map', A.funcs[id], f, k, A);
  }

  lemma MetNext(m: Module, s: nat, i: nat)
    requires i < |m.nodes|
    ensures Met(m, s, i + 1) <==> m.nodes[i] == Symbol(s) || Met(m, s, i)
  {
  }

  /** What is mapped stays mapped when the sweep goes on by a node. */
  lemma FuncsKept(m: Module, was: LoadMap, now: LoadMap, A: Arena, B: Arena, base: nat, defined: nat)
    requires FuncsMapped(m, was, A, base, defined) && A.funcs == B.funcs
    requires was.funcs == now.funcs && was.exprs <= now.exprs && |was.symbols| == |now.symbols|
    requires forall s :: 0 <= s < |was.symbols| && was.symbols[s].Some? ==> now.symbols[s] == was.symbols[s]
    ensures FuncsMapped(m, now, B, base, defined)
  {
    forall f | 0 <= f < |m.funcs| && now.funcs[f].Some? ensures FuncImage(m, now, B.funcs[now.funcs[f].value], f) {
      assert FuncImage(m, was, A.funcs[was.funcs[f].value], f);
    }
  }

  lemma SymbolsStep(m: Module, was: LoadMap, now: LoadMap, names: seq<string>, names': seq<string>)
    requires SymbolsMapped(m, was, names) && names <= names' && now.symbols == was.symbols
    requires |was.exprs| < |m.nodes| && |now.exprs| == |was.exprs| + 1 && !m.nodes[|was.exprs|].Symbol?
    ensures SymbolsMapped(m, now, names')
  {
    forall s | 0 <= s < |m.symbols| ensures Met(m, s, |now.exprs|) <==> Met(m, s, |was.exprs|) {
      MetNext(m, s, |was.exprs|);
    }
  }

  lemma ListStep(m: Module, was: seq<nat>, now: seq<nat>, l: Window, r: seq<nat>)
    requires ListMapped(m, was, l, r) && was <= now
    ensures ListMapped(m, now, l, r)
  {
  }

  lemma ContextStep(m: Module, was: seq<nat>, now: seq<nat>, o: nat, f: nat, n: nat, c: Context)
    requires o < |m.contexts| && ContextImage(m, was, o, f, n, c) && was <= now
    ensures ContextImage(m, now, o, f, n, c)
  {
    if m.contexts[o].Some? {
      var (at, l) := m.contexts[o].value;
      var bound :| ListMapped(m, was, l, bound) && c == ContextOver(f, n, at, bound);
      ListStep(m, was, now, l, bound);
    }
  }

  lemma CalledStep(A: Arena, B: Arena, zero: nat, call: GraphNode, e: nat)
    requires call.Call? && Called(A, zero, call, e) && Grows(A, B)
    ensures Called(B, zero, call, e)
  {
    assert FuncGrows(A.funcs[call.f], B.funcs[call.f]);
  }

  lemma ImageStep(m: Module, was: seq<nat>, now: seq<nat>, base: nat, A: Arena, B: Arena, names: seq<string>,
                  names': seq<string>, zero: nat, j: nat, e: nat)
    requires j < |m.nodes| && e < |A.nodes| && was <= now && Grows(A, B) && names <= names'
    requires NodeImage(m, was, base, A, names, zero, j, e)
    ensures e < |B.nodes| && NodeImage(m, now, base, B, names', zero, j, e)
  {
    hide ListMapped, ContextImage, Called, Grows, MapAll;
    NodesKept(A, B);
    match m.nodes[j]
    case Const(_) =>
    case Symbol(_) =>
    case Inline(_, args) =>
      assert MapAll(was, args) == MapAll(now, args);
    case Listed(_, _, l) =>
      ListStep(m, was, now, l, A.nodes[e].args);
    case Call(o, l) =>
      var (f, k) := m.callOutputs[o];
      var c, list :| CallImage(m, was, base, A, zero, o, l, e, c, list);
      ContextStep(m, was, now, o, base + f, |m.funcs[f].params|, c);
      ListStep(m, was, now, l, list);
      CalledStep(A, B, zero, Rewriting.Call(base + f, k, c, list), e);
      assert CallImage(m, now, base, B, zero, o, l, e, c, list);
  }

  lemma NodesStep(m: Module, exprs: seq<nat>, base: nat, A: Arena, B: Arena, names: seq<string>, names': seq<string>,
                  zero: nat, e: nat)
    requires NodesMapped(m, exprs, base, A, names, zero) && |exprs| < |m.nodes| && e < |B.nodes|
    requires Grows(A, B) && names <= names' && NodeImage(m, exprs, base, B, names', zero, |exprs|, e)
    ensures NodesMapped(m, exprs + [e], base, B, names', zero)
  {
    hide NodeImage, Grows;
    var now := exprs + [e];
    NodesKept(A, B);
    GrowsSelf(B);
    forall j | 0 <= j < |now| ensures now[j] < |B.nodes| && NodeImage(m, now, base, B, names', zero, j, now[j]) {
      if j < |exprs| {
        ImageStep(m, exprs, now, base, A, B, names, names', zero, j, exprs[j]);
      } else {
        ImageStep(m, exprs, now, base, B, B, names', names', zero, j, e);
      }
    }
  }

  lemma ExprsOf(m: Module, exprs: seq<nat>, base: nat, A: Arena, names: seq<string>, zero: nat)
    requires NodesMapped(m, exprs, base, A, names, zero)
    ensures |exprs| <= |m.nodes| && ExprsMapped(exprs, A)
  {
  }

  lemma GrowsSelf(A: Arena)
    ensures Grows(A, A)
  {
  }

  lemma NodesKept(A: Arena, B: Arena)
    requires Grows(A, B)
    ensures A.nodes <= B.nodes
  {
  }

  lemma GrowsOn(A: Arena, B: Arena, C: Arena)
    requires Grows(A, B) && Grows(B, C)
    ensures Grows(A, C)
  {
    forall f | 0 <= f < |A.funcs| ensures FuncGrows(A.funcs[f], C.funcs[f]) {
      assert FuncGrows(A.funcs[f], B.funcs[f]) && FuncGrows(B.funcs[f], C.funcs[f]);
    }
  }

  lemma Nothing(m: Module, map': LoadMap, A: Arena, names: seq<string>, zero: nat)
    requires map'.exprs == [] && |map'.symbols| == |m.symbols| && |map'.funcs| == |m.funcs|
    requires (forall s :: 0 <= s < |m.symbols| ==> map'.symbols[s].None?)
             && forall f :: 0 <= f < |m.funcs| ==> map'.funcs[f].None?
    ensures ExprsMapped(map'.exprs, A) && SymbolsMapped(m, map', names) && FuncsMapped(m, map', A, |A.funcs|, 0)
    ensures NodesMapped(m, map'.exprs, |A.funcs|, A, names, zero)
  {
  }

  lemma CompactNone(m: Module, start: nat)
    ensures Compact([], start, start)
    ensures forall nodes :: SymbolsOf(m, [], nodes) == []
  {
  }

  lemma CompactNext(was: seq<nat>, start: nat, size: nat, now: seq<nat>, size': nat)
    requires Compact(was, start, size) && |now| == |was| + 1 && was <= now
    requires (size' == size && now[|was|] < size) || (size' == size + 1 && now[|was|] == size)
    ensures Compact(now, start, size')
  {
    var e := now[|was|];
    forall j | 0 <= j < |now| ensures now[j] <= start || Follows(now, j) {
      if j < |was| {
        assert was[j] <= start || Follows(was, j);
      } else if start < e {
        var i :| 0 <= i < |was| && was[i] == size - 1;
        assert now[j] <= now[i] + 1;
      }
    }
    if size' == size && start < size {
      var i :| 0 <= i < |was| && was[i] == size - 1;
      assert now[i] == size - 1;
    }
  }

  lemma SymbolsNext(m: Module, exprs: seq<nat>, e: nat, nodes: seq<GraphNode>, nodes': seq<GraphNode>, start: nat,
                    size: nat, size': nat)
    requires |exprs| < |m.nodes| && nodes <= nodes' && e < |nodes'|
    requires forall j :: 0 <= j < |exprs| ==> exprs[j] < |nodes|
    requires Compact(SymbolsOf(m, exprs, nodes), start, size)
    requires var n := nodes'[e];
             if m.nodes[|exprs|].Symbol? then
               n.Symbol? && ((size' == size && n.s < size) || (size' == size + 1 && n.s == size))
             else size' == size
    ensures Compact(SymbolsOf(m, exprs + [e], nodes'), start, size')
  {
    hide Compact;
    SymbolsKept(m, exprs, nodes, nodes');
    assert (exprs + [e])[..|exprs|] == exprs;
    CompactMaybe(SymbolsOf(m, exprs, nodes), start, size, SymbolsOf(m, exprs + [e], nodes'), size',
                 SymbolAt(m, nodes', |exprs|, e));
  }

  lemma TablesNone(m: Module, nodes: seq<GraphNode>, t: Tables)
    ensures TablesOf(m, [], nodes, t) == t
  {
  }

  lemma TablesNext(m: Module, exprs: seq<nat>, e: nat, nodes: seq<GraphNode>, nodes': seq<GraphNode>, t: Tables)
    requires |exprs| < |m.nodes| && nodes <= nodes' && e < |nodes'|
    requires forall j :: 0 <= j < |exprs| ==> exprs[j] < |nodes|
    ensures Unfolded(m, exprs + [e], nodes') ==>
              Unfolded(m, exprs, nodes) && (m.nodes[|exprs|].Call? ==> nodes'[e].Call?)
    ensures TablesOf(m, exprs + [e], nodes', t)
         == Entered(TablesOf(m, exprs, nodes, t), nodes'[e], m.nodes[|exprs|].Listed?)
  {
    hide Entered;
    TablesKept(m, exprs, nodes, nodes', t);
    assert (exprs + [e])[..|exprs|] == exprs;
    if Unfolded(m, exprs + [e], nodes') {
      forall j | 0 <= j < |exprs| && j < |m.nodes| && m.nodes[j].Call? ensures nodes[exprs[j]].Call? {
        assert (exprs + [e])[j] == exprs[j];
      }
    }
  }

  lemma {:induction false} TablesKept(m: Module, exprs: seq<nat>, nodes: seq<GraphNode>, nodes': seq<GraphNode>,
                                      t: Tables)
    requires nodes <= nodes' && forall j :: 0 <= j < |exprs| ==> exprs[j] < |nodes|
    ensures TablesOf(m, exprs, nodes', t) == TablesOf(m, exprs, nodes, t)
  {
    if exprs != [] { TablesKept(m, exprs[..|exprs| - 1], nodes, nodes', t); }
  }

  lemma CompactMaybe(ids: seq<nat>, start: nat, size: nat, all: seq<nat>, size': nat, next: seq<nat>)
    requires Compact(ids, start, size) && all == ids + next && |next| <= 1
    requires if next == [] then size' == size
             else (size' == size && next[0] < size) || (size' == size + 1 && next[0] == size)
    ensures Compact(all, start, size')
  {
    hide Compact;
    if next == [] { assert all == ids; } else { CompactNext(ids, start, size, all, size'); }
  }

  lemma {:induction false} SymbolsKept(m: Module, exprs: seq<nat>, nodes: seq<GraphNode>, nodes': seq<GraphNode>)
    requires nodes <= nodes' && forall j :: 0 <= j < |exprs| ==> exprs[j] < |nodes|
    ensures SymbolsOf(m, exprs, nodes') == SymbolsOf(m, exprs, nodes)
  {
    if exprs != [] { SymbolsKept(m, exprs[..|exprs| - 1], nodes, nodes'); }
  }

  /** At the end every function can be defined. */
  lemma LastReady(m: Module)
    requires Passes(m) && |m.funcs| > 0
    ensures (forall f :: 0 <= f < |m.funcs| ==> RefersFit(m, f)) && Ready(m, |m.funcs| - 1, |m.nodes|)
  {
    hide RefersFit, ParamsMet;
    forall f | 0 <= f < |m.funcs| ensures RefersFit(m, f) && ParamsMet(m, f, |m.nodes|) { assert FuncFits(m, f); }
  }

  /** After the last synchronization everything is in place. */
  lemma Finished(m: Module, was: LoadMap, now: LoadMap, base: nat, defined: nat, A: Arena, B: Arena, names: seq<string>,
                 zero: nat)
    requires Passes(m) && |was.exprs| == |m.nodes| && now == was.(funcs := now.funcs)
    requires A.nodes == B.nodes && Grows(A, B)
    requires NodesMapped(m, was.exprs, base, A, names, zero) && SymbolsMapped(m, was, names)
    requires |m.funcs| <= defined && FuncsMapped(m, now, B, base, defined)
    requires |m.funcs| > 0 ==> Synced(m, now, B, |m.funcs|)
    ensures defined == |m.funcs| && LoadedAs(m, now, base, B, names, zero)
  {
    hide NodeImage, Grows, Met;
    forall j | 0 <= j < |was.exprs| ensures NodeImage(m, was.exprs, base, B, names, zero, j, was.exprs[j]) {
      ImageStep(m, was.exprs, was.exprs, base, A, B, names, names, zero, j, was.exprs[j]);
    }
    forall f | 0 <= f < |m.funcs| ensures AllOutputs(m, B, base, f) {
      assert FuncFits(m, f) && now.funcs[f] == Some(base + f);
      assert FuncImage(m, now, B.funcs[base + f], f) && UpToDate(m, now.exprs, B.funcs[base + f], f);
    }
  }

  lemma StillSynced(m: Module, was: LoadMap, A: Arena, now: LoadMap, B: Arena, n: nat)
    requires n <= |m.funcs| == |was.funcs| == |now.funcs| && Synced(m, was, A, n) && was.exprs == now.exprs
    requires forall g :: 0 <= g < n ==> now.funcs[g] == was.funcs[g]
    requires forall g :: 0 <= g < n && was.funcs[g].Some? && was.funcs[g].value < |A.funcs| ==>
               was.funcs[g].value < |B.funcs| && B.funcs[was.funcs[g].value] == A.funcs[was.funcs[g].value]
    ensures Synced(m, now, B, n)
  {
    hide UpToDate;
  }

  /** Functions that only grew keep a graph arranged. */
  lemma Regrown(A: Arena, B: Arena)
    requires Arranged(A) && Grows(A, B) && A.nodes == B.nodes && forall f :: 0 <= f < |B.funcs| ==> FuncArranged(B, f)
    ensures Arranged(B)
  {
    forall e | 0 <= e < |B.nodes| ensures NodeArranged(B, B.nodes[e], e) { NodeGrows(A, B, B.nodes[e], e); }
  }

  // --- what passes and does not load -----------------------------------------------------------------------

  /** `f(p) = p` called with `p` bound to `q`, whose node comes after the call. */
  function LateContext(): Module {
    Module(VERSION, [Symbol(0), Call(0, Window(0, 0)), Symbol(1)], [], [2], ["p", "q"],
           [FunctionData([0], [], [Output.Expr(0)], [], None)], [(0, 0)], [Some(([0], Window(0, 1)))])
  }

  /** The same call, its binding's window at the end of what 32 bits count. */
  function WrappedContext(): Module {
    Module(VERSION, [Symbol(0), Call(0, Window(0, 0))], [], [], ["p"],
           [FunctionData([0], [], [Output.Expr(0)], [], None)], [(0, 0)], [Some(([0], Window(0xFFFF_FFFF, 1)))])
  }

  /** Each passes the check, and a load of it reads out of range. */
  lemma PassesYetPanics()
    ensures Passes(LateContext()) && !LoadReady(LateContext())
    ensures Passes(WrappedContext()) && !LoadReady(WrappedContext())
  {
    hide Passes, LoadReady;
    LatePasses();
    LatePanics();
    WrappedPasses();
    WrappedPanics();
  }

  lemma LatePanics()
    ensures !LoadReady(LateContext())
  {
    var m := LateContext();
    assert m.pool[0] == 2 && m.contexts[0] == Some(([0], Window(0, 1)));
    assert !ListBefore(m, Window(0, 1), 1);
    assert m.nodes[1] == Call(0, Window(0, 0)) && !NodeReady(m, 1);
  }

  lemma WrappedPanics()
    ensures !LoadReady(WrappedContext())
  {
    var m := WrappedContext();
    assert m.contexts[0] == Some(([0], Window(0xFFFF_FFFF, 1))) && !Unwrapped(Window(0xFFFF_FFFF, 1));
    assert m.nodes[1] == Call(0, Window(0, 0)) && !NodeReady(m, 1);
  }

  lemma LatePasses()
    ensures Passes(LateContext())
  {
    var m := LateContext();
    assert CallOutputFits(m, 0);
    assert m.nodes[0] == Symbol(0) && Met(m, 0, 1) && Met(m, 0, 3);
    assert FuncFits(m, 0) && Ready(m, 0, 1);
    assert NodeFits(m, 0) && NodeFits(m, 1) && NodeFits(m, 2);
  }

  lemma WrappedPasses()
    ensures Passes(WrappedContext())
  {
    var m := WrappedContext();
    assert CallOutputFits(m, 0);
    assert m.nodes[0] == Symbol(0) && Met(m, 0, 1) && Met(m, 0, 2);
    assert FuncFits(m, 0) && Ready(m, 0, 1);
    assert NodeFits(m, 0) && NodeFits(m, 1);
  }
}
