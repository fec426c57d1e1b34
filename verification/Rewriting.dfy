/** One loop behind every transform: an explicit stack, with memos for nodes, call lists and
    contexts. Whatever the rule, it computes the recursive walk, and visits in one schedule. */
module Rewriting {
  import opened Bindings

  /** An expression of the graph: a constant, a symbol, an operation, or a call of output
      `out` of function `f` over the arguments its context leaves. */
  datatype Node = Const(c: nat) | Symbol(s: nat) | Op(op: nat, args: seq<nat>) | Call(f: nat, out: nat, ctx: Context,
      list: seq<nat>) {
    function Operands(): seq<nat> { if Op? then args else if Call? then list + ctx.Exprs() else [] }
  }

  /** Operands come before their nodes. */
  ghost predicate Ordered(dag: seq<Node>) {
    forall e, o :: 0 <= e < |dag| && o in dag[e].Operands() ==> o < e
  }

  /** What the transform has made so far, and the new node of each node rewritten. */
  datatype State<S, R> = State(made: S, memo: map<nat, R>)

  /** The new node of `e` from its operands' new nodes (for a call the list's, then the bound
      expressions'), with the transform's own state. */
  type Rule<!S, !R> = (S, nat, seq<R>) -> (S, R)

  function Rewritten<R>(memo: map<nat, R>, es: seq<nat>): (r: seq<R>)
    requires forall e :: e in es ==> e in memo
    ensures |r| == |es| && forall i :: 0 <= i < |es| ==> r[i] == memo[es[i]]
  {
    seq(|es|, i requires 0 <= i < |es| => memo[es[i]])
  }

  function Apply<S, R>(dag: seq<Node>, rule: Rule<S, R>, e: nat, st: State<S, R>): (r: State<S, R>)
    requires e < |dag| && forall o :: o in dag[e].Operands() ==> o in st.memo
    ensures e in r.memo && forall d :: d in st.memo ==> d in r.memo && r.memo[d] == st.memo[d]
  {
    if e in st.memo then st
    else
      var (made, node) := rule(st.made, e, Rewritten(st.memo, dag[e].Operands()));
      State(made, st.memo[e := node])
  }

  // --- the recursive walk --------------------------------------------------------------------------

  function Visit<S, R>(dag: seq<Node>, rule: Rule<S, R>, e: nat, st: State<S, R>): (r: State<S, R>)
    requires Ordered(dag) && e < |dag|
    ensures e in r.memo && forall d :: d in st.memo ==> d in r.memo && r.memo[d] == st.memo[d]
    decreases e, 1, 0
  {
    if e in st.memo then st
    else
      assert forall i :: 0 <= i < |dag[e].Operands()| ==> dag[e].Operands()[i] in dag[e].Operands();
      Apply(dag, rule, e, VisitFirst(dag, rule, dag[e].Operands(), e, |dag[e].Operands()|, st))
  }

  /** The first `n` of `es` walked in order, all of them below `bound`. */
  function VisitFirst<S, R>(dag: seq<Node>, rule: Rule<S, R>, es: seq<nat>, bound: nat, n: nat,
                            st: State<S, R>): (r: State<S, R>)
    requires Ordered(dag) && bound <= |dag| && n <= |es| && forall i :: 0 <= i < n ==> es[i] < bound
    ensures forall i :: 0 <= i < n ==> es[i] in r.memo
    ensures forall d :: d in st.memo ==> d in r.memo && r.memo[d] == st.memo[d]
    decreases bound, 0, n
  {
    if n == 0 then st else Visit(dag, rule, es[n - 1], VisitFirst(dag, rule, es, bound, n - 1, st))
  }

  function VisitAll<S, R>(dag: seq<Node>, rule: Rule<S, R>, es: seq<nat>, st: State<S, R>): (r: State<S, R>)
    requires Ordered(dag) && forall e :: e in es ==> e < |dag|
    ensures forall e :: e in es ==> e in r.memo
    ensures forall d :: d in st.memo ==> d in r.memo && r.memo[d] == st.memo[d]
  {
    assert forall i :: 0 <= i < |es| ==> es[i] in es;
    VisitFirst(dag, rule, es, |dag|, |es|, st)
  }

  // --- the explicit stack ----------------------------------------------------------------------------

  datatype Item = Item(e: nat, expanded: bool)

  /** What a stack, its top last, still comes to. */
  ghost function Finish<S, R>(dag: seq<Node>, rule: Rule<S, R>, stack: seq<Item>, st: State<S, R>): State<S, R>
    requires Ordered(dag) && forall i :: 0 <= i < |stack| ==> stack[i].e < |dag|
    decreases |stack|
  {
    if stack == [] then st
    else
      var top, rest := stack[|stack| - 1], stack[..|stack| - 1];
      if !top.expanded then Finish(dag, rule, rest, Visit(dag, rule, top.e, st))
      else if forall o :: o in dag[top.e].Operands() ==> o in st.memo then Finish(dag, rule, rest,
          Apply(dag, rule, top.e, st))
      else st
  }

  /** The operands not rewritten yet, last first: what is pushed above an expanded node. */
  function Pending<R>(es: seq<nat>, memo: map<nat, R>, n: nat): (r: seq<Item>)
    requires n <= |es|
    ensures forall i :: 0 <= i < |r| ==> r[i].e in es[..n] && !r[i].expanded
    decreases n
  {
    if n == 0 then []
    else (if es[n - 1] in memo then [] else [Item(es[n - 1], false)]) + Pending(es, memo, n - 1)
  }

  /** Popping the pending operands is walking all of them in order. */
  lemma {:induction false} PendingWalks<S, R>(dag: seq<Node>, rule: Rule<S, R>, es: seq<nat>, bound: nat, n: nat,
                                              stack: seq<Item>, st: State<S, R>)
    requires Ordered(dag) && n <= |es| && bound <= |dag| && forall i :: 0 <= i < |es| ==> es[i] < bound
    requires forall i :: 0 <= i < |stack| ==> stack[i].e < |dag|
    ensures forall i :: 0 <= i < |stack + Pending(es, st.memo, n)| ==> (stack + Pending(es, st.memo, n))[i].e < |dag|
    ensures Finish(dag, rule, stack + Pending(es, st.memo, n), st) ==
            Finish(dag, rule, stack, VisitFirst(dag, rule, es, bound, n, st))
    decreases n
  {
    hide Ordered;
    if n == 0 {
      assert stack + [] == stack;
    } else {
      var e := es[n - 1];
      var below := if e in st.memo then [] else [Item(e, false)];
      assert stack + Pending(es, st.memo, n) == (stack + below) + Pending(es, st.memo, n - 1);
      PendingWalks(dag, rule, es, bound, n - 1, stack + below, st);
      var mid := VisitFirst(dag, rule, es, bound, n - 1, st);
      if e !in st.memo {
        assert (stack + below)[..|stack + below| - 1] == stack;
      } else {
        assert stack + below == stack;
      }
    }
  }

  /** The tree below a node, shared nodes counted each time. */
  ghost function Size(dag: seq<Node>, e: nat): (n: nat)
    requires Ordered(dag) && e < |dag|
    ensures n >= 2
    decreases e, 1, 0
  {
    assert forall i :: 0 <= i < |dag[e].Operands()| ==> dag[e].Operands()[i] in dag[e].Operands();
    2 + Sizes(dag, dag[e].Operands(), e, |dag[e].Operands()|)
  }

  ghost function Sizes(dag: seq<Node>, es: seq<nat>, bound: nat, n: nat): nat
    requires Ordered(dag) && bound <= |dag| && n <= |es| && forall i :: 0 <= i < n ==> es[i] < bound
    decreases bound, 0, n
  {
    if n == 0 then 0 else Size(dag, es[n - 1]) + Sizes(dag, es, bound, n - 1)
  }

  ghost function Work(dag: seq<Node>, stack: seq<Item>): nat
    requires Ordered(dag) && forall i :: 0 <= i < |stack| ==> stack[i].e < |dag|
    decreases |stack|
  {
    if stack == [] then 0
    else
      var top := stack[|stack| - 1];
      (if top.expanded then 1 else Size(dag, top.e)) + Work(dag, stack[..|stack| - 1])
  }

  lemma {:induction false} PendingWork<R>(dag: seq<Node>, es: seq<nat>, memo: map<nat, R>, bound: nat, n: nat,
                                          stack: seq<Item>)
    requires Ordered(dag) && n <= |es| && bound <= |dag| && forall i :: 0 <= i < |es| ==> es[i] < bound
    requires forall i :: 0 <= i < |stack| ==> stack[i].e < |dag|
    ensures forall i :: 0 <= i < |stack + Pending(es, memo, n)| ==> (stack + Pending(es, memo, n))[i].e < |dag|
    ensures Work(dag, stack + Pending(es, memo, n)) <= Work(dag, stack) + Sizes(dag, es, bound, n)
    decreases n
  {
    hide Ordered;
    if n == 0 {
      assert stack + [] == stack;
    } else {
      var e := es[n - 1];
      var below := if e in memo then [] else [Item(e, false)];
      assert stack + Pending(es, memo, n) == (stack + below) + Pending(es, memo, n - 1);
      PendingWork(dag, es, memo, bound, n - 1, stack + below);
      if e !in memo {
        assert (stack + below)[..|stack + below| - 1] == stack;
      } else {
        assert stack + below == stack;
      }
    }
  }

  /** A list rewritten before leaves only the bound expressions pending, a context rewritten
      before nothing. */
  lemma {:induction false} PendingShared<R>(a: seq<nat>, b: seq<nat>, memo: map<nat, R>, n: nat)
    requires n <= |b| && forall e :: e in a ==> e in memo
    ensures Pending(a + b, memo, |a| + n) == Pending(b, memo, n)
    decreases n
  {
    if n == 0 {
      AllDone(a, b, memo, |a|);
    } else {
      assert (a + b)[|a| + n - 1] == b[n - 1];
      PendingShared(a, b, memo, n - 1);
    }
  }

  lemma {:induction false} AllDone<R>(a: seq<nat>, b: seq<nat>, memo: map<nat, R>, n: nat)
    requires n <= |a| && forall e :: e in a ==> e in memo
    ensures Pending(a + b, memo, n) == []
    decreases n
  {
    if n > 0 {
      assert (a + b)[n - 1] == a[n - 1];
      AllDone(a, b, memo, n - 1);
    }
  }

  /** What one pop of an unexpanded node leaves to do. */
  lemma ExpandStep<S, R>(dag: seq<Node>, rule: Rule<S, R>, rest: seq<Item>, e: nat, st: State<S, R>)
    requires Ordered(dag) && e < |dag| && e !in st.memo && forall i :: 0 <= i < |rest| ==> rest[i].e < |dag|
    ensures var ops := dag[e].Operands(); var next := rest + [Item(e, true)] + Pending(ops, st.memo, |ops|);
            && (forall i :: 0 <= i < |next| ==> next[i].e < |dag|)
            && Finish(dag, rule, next, st) == Finish(dag, rule, rest + [Item(e, false)], st)
            && Work(dag, next) < Work(dag, rest + [Item(e, false)])
  {
    var ops, grown := dag[e].Operands(), rest + [Item(e, true)];
    assert forall i :: 0 <= i < |ops| ==> ops[i] in ops;
    PendingWalks(dag, rule, ops, e, |ops|, grown, st);
    PendingWork(dag, ops, st.memo, e, |ops|, grown);
    assert grown[..|grown| - 1] == rest;
    var was := rest + [Item(e, false)];
    assert was[..|was| - 1] == rest;
    var mid := VisitFirst(dag, rule, ops, e, |ops|, st);
    assert forall o :: o in ops ==> o in mid.memo;
    assert Visit(dag, rule, e, st) == Apply(dag, rule, e, mid);
  }

  /** The lists and contexts kept are the memo's over them. */
  ghost predicate Shared<R>(dag: seq<Node>, memo: map<nat, R>, lists: map<seq<nat>, seq<R>>,
                            contexts: map<Context, seq<R>>) {
    && (forall l :: l in lists ==> (forall e :: e in l ==> e in memo) && lists[l] == Rewritten(memo, l))
    && (forall e :: 0 <= e < |dag| && dag[e].Call? && dag[e].ctx.Context? && dag[e].ctx in contexts ==>
          (forall o :: o in dag[e].ctx.Exprs() ==> o in memo)
              && contexts[dag[e].ctx] == Rewritten(memo, dag[e].ctx.Exprs()))
  }

  lemma SharedGrows<S, R>(dag: seq<Node>, rule: Rule<S, R>, st: State<S, R>, e: nat, lists: map<seq<nat>, seq<R>>,
                          contexts: map<Context, seq<R>>)
    requires Shared(dag, st.memo, lists, contexts) && e < |dag| && forall o :: o in dag[e].Operands() ==> o in st.memo
    ensures Shared(dag, Apply(dag, rule, e, st).memo, lists, contexts)
  {
    var memo := Apply(dag, rule, e, st).memo;
    forall l | l in lists ensures (forall d :: d in l ==> d in memo) && lists[l] == Rewritten(memo, l) {
      assert Rewritten(memo, l) == Rewritten(st.memo, l);
    }
    forall d | 0 <= d < |dag| && dag[d].Call? && dag[d].ctx.Context? && dag[d].ctx in contexts
      ensures (forall o :: o in dag[d].ctx.Exprs() ==> o in memo)
              && contexts[dag[d].ctx] == Rewritten(memo, dag[d].ctx.Exprs()) {
      assert Rewritten(memo, dag[d].ctx.Exprs()) == Rewritten(st.memo, dag[d].ctx.Exprs());
    }
  }

  /** The operands pushed for an unexpanded node: of a call over a list rewritten before only
      the bound expressions, and none of a context rewritten before. */
  method Push<R>(dag: seq<Node>, e: nat, memo: map<nat, R>, ghost lists: map<seq<nat>, seq<R>>,
                 ghost contexts: map<Context, seq<R>>,
                 listKnown: bool, contextKnown: bool) returns (pending: seq<Item>)
    requires e < |dag| && Ordered(dag) && Shared(dag, memo, lists, contexts)
    requires listKnown <==> dag[e].Call? && dag[e].list in lists
    requires contextKnown <==> dag[e].Call? && dag[e].ctx.Context? && dag[e].ctx in contexts
    ensures pending == Pending(dag[e].Operands(), memo, |dag[e].Operands()|)
  {
    var ops := dag[e].Operands();
    if listKnown {
      PendingShared(dag[e].list, dag[e].ctx.Exprs(), memo, |dag[e].ctx.Exprs()|);
      if dag[e].ctx.Context? && !contextKnown {
        pending := Pending(dag[e].ctx.Exprs(), memo, |dag[e].ctx.Exprs()|);
      } else {
        assert dag[e].ctx.Exprs() + [] == dag[e].ctx.Exprs();
        AllDone(dag[e].ctx.Exprs(), [], memo, |dag[e].ctx.Exprs()|);
        pending := [];
      }
    } else {
      pending := Pending(ops, memo, |ops|);
    }
  }

  /** Every node on the stack exists, and what an expanded one waits for is rewritten or above
      it. */
  ghost predicate Stacked<R>(dag: seq<Node>, stack: seq<Item>, memo: map<nat, R>) {
    && (forall i :: 0 <= i < |stack| ==> stack[i].e < |dag|)
    && (forall i, o :: 0 <= i < |stack| && stack[i].expanded && o in dag[stack[i].e].Operands() ==>
          o in memo || exists j :: i < j < |stack| && stack[j].e == o)
  }

  lemma StackedPop<R>(dag: seq<Node>, stack: seq<Item>, memo: map<nat, R>, after: map<nat, R>)
    requires Stacked(dag, stack, memo) && stack != [] && memo.Keys <= after.Keys && stack[|stack| - 1].e in after
    ensures Stacked(dag, stack[..|stack| - 1], after)
  {
    var rest := stack[..|stack| - 1];
    forall i, o | 0 <= i < |rest| && rest[i].expanded && o in dag[rest[i].e].Operands()
      ensures o in after || exists j :: i < j < |rest| && rest[j].e == o {
      if o !in memo {
        var j :| i < j < |stack| && stack[j].e == o;
        if j < |rest| { assert rest[j].e == o; }
      }
    }
  }

  lemma StackedPush<R>(dag: seq<Node>, stack: seq<Item>, memo: map<nat, R>)
    requires Ordered(dag) && Stacked(dag, stack, memo) && stack != [] && !stack[|stack| - 1].expanded
    ensures var e := stack[|stack| - 1].e; var ops := dag[e].Operands();
            Stacked(dag, stack[..|stack| - 1] + [Item(e, true)] + Pending(ops, memo, |ops|), memo)
  {
    hide Pending, Node.Operands;
    var n := |stack| - 1;
    var e := stack[n].e;
    var ops := dag[e].Operands();
    var pending := Pending(ops, memo, |ops|);
    var next := stack[..n] + [Item(e, true)] + pending;
    forall i | 0 <= i < |next| ensures next[i].e < |dag| && (i > n ==> !next[i].expanded) {
      if i > n {
        assert next[i] == pending[i - n - 1];
        assert ops[..|ops|] == ops && pending[i - n - 1].e in ops;
      } else if i < n {
        assert next[i] == stack[i];
      }
    }
    forall i, o | 0 <= i < |next| && next[i].expanded && o in dag[next[i].e].Operands()
      ensures o in memo || exists j :: i < j < |next| && next[j].e == o {
      if i < n && o !in memo {
        assert next[i] == stack[i];
        var j :| i < j < |stack| && stack[j].e == o;
        assert next[j].e == o;
      } else if i == n && o !in memo {
        PendingHas(ops, memo, |ops|, o);
        var j :| 0 <= j < |pending| && pending[j].e == o;
        assert next[n + 1 + j].e == o;
      }
    }
  }

  lemma {:induction false} PendingHas<R>(es: seq<nat>, memo: map<nat, R>, n: nat, o: nat)
    requires n <= |es| && o in es[..n] && o !in memo
    ensures exists j :: 0 <= j < |Pending(es, memo, n)| && Pending(es, memo, n)[j].e == o
    decreases n
  {
    if es[n - 1] == o {
      assert Pending(es, memo, n)[0].e == o;
    } else {
      PendingHas(es, memo, n - 1, o);
      var j :| 0 <= j < |Pending(es, memo, n - 1)| && Pending(es, memo, n - 1)[j].e == o;
      var at := if es[n - 1] in memo then j else j + 1;
      assert Pending(es, memo, n)[at].e == o;
    }
  }

  lemma SharedAdds<R>(dag: seq<Node>, memo: map<nat, R>, lists: map<seq<nat>, seq<R>>, contexts: map<Context, seq<R>>,
                      l: seq<nat>, c: Context)
    requires Shared(dag, memo, lists, contexts) && (forall o :: o in l ==> o in memo)
             && (forall o :: o in c.Exprs() ==> o in memo)
    ensures Shared(dag, memo, lists[l := Rewritten(memo, l)], contexts)
    ensures Shared(dag, memo, lists, contexts[c := Rewritten(memo, c.Exprs())])
  {
    hide Rewritten, Context.Exprs;
  }

  /** A node rewritten, its operands being: a call over its list and context as first
      rewritten. */
  method Make<S, R>(dag: seq<Node>, rule: Rule<S, R>, e: nat, st: State<S, R>, lists: map<seq<nat>, seq<R>>,
                    contexts: map<Context, seq<R>>)
    returns (after: State<S, R>, lists': map<seq<nat>, seq<R>>, contexts': map<Context, seq<R>>)
    requires Ordered(dag) && e < |dag| && e !in st.memo && (forall o :: o in dag[e].Operands() ==> o in st.memo)
    requires Shared(dag, st.memo, lists, contexts)
    ensures after == Apply(dag, rule, e, st) && Shared(dag, after.memo, lists', contexts')
  {
    hide Rewritten, Shared, Ordered, Context.Exprs;
    lists', contexts' := lists, contexts;
    var operands: seq<R>;
    if dag[e].Call? {
      var l, c := dag[e].list, dag[e].ctx;
      OperandsOf(dag[e]);
      if l !in lists {
        SharedAdds(dag, st.memo, lists, contexts, l, c);
        lists' := lists[l := Rewritten(st.memo, l)];
      }
      var bound := [];
      if c.Context? {
        if c !in contexts {
          SharedAdds(dag, st.memo, lists', contexts, l, c);
          contexts' := contexts[c := Rewritten(st.memo, c.Exprs())];
        }
        bound := contexts'[c];
      }
      SharedHas(dag, st.memo, lists', contexts', e);
      operands := lists'[l] + bound;
    } else {
      operands := Rewritten(st.memo, dag[e].Operands());
    }
    var (made, node) := rule(st.made, e, operands);
    after := State(made, st.memo[e := node]);
    SharedGrows(dag, rule, st, e, lists', contexts');
  }

  lemma OperandsOf(n: Node)
    requires n.Call?
    ensures (forall o :: o in n.list ==> o in n.Operands()) && forall o :: o in n.ctx.Exprs() ==> o in n.Operands()
  {
  }

  /** The parts kept are the operands rewritten. */
  lemma SharedHas<R>(dag: seq<Node>, memo: map<nat, R>, lists: map<seq<nat>, seq<R>>, contexts: map<Context, seq<R>>,
                     e: nat)
    requires e < |dag| && Shared(dag, memo, lists, contexts) && dag[e].Call? && dag[e].list in lists
    requires dag[e].ctx.Context? ==> dag[e].ctx in contexts
    requires forall o :: o in dag[e].Operands() ==> o in memo
    ensures lists[dag[e].list] + (if dag[e].ctx.Context? then contexts[dag[e].ctx] else []) ==
            Rewritten(memo, dag[e].Operands())
  {
    assert forall o :: o in dag[e].ctx.Exprs() ==> o in dag[e].Operands();
  }

  /** One iteration of the walk. */
  method Iterate<S, R>(dag: seq<Node>, rule: Rule<S, R>, stack: seq<Item>, st: State<S, R>,
                       lists: map<seq<nat>, seq<R>>, contexts: map<Context, seq<R>>)
    returns (next: seq<Item>, after: State<S, R>, lists': map<seq<nat>, seq<R>>, contexts': map<Context, seq<R>>)
    requires Ordered(dag) && stack != [] && Stacked(dag, stack, st.memo) && Shared(dag, st.memo, lists, contexts)
    ensures Stacked(dag, next, after.memo) && Shared(dag, after.memo, lists', contexts')
    ensures Finish(dag, rule, next, after) == Finish(dag, rule, stack, st)
    ensures Work(dag, next) < Work(dag, stack)
  {
    var top, rest := stack[|stack| - 1], stack[..|stack| - 1];
    var e := top.e;
    next, after, lists', contexts' := rest, st, lists, contexts;
    if e in st.memo {
      StackedPop(dag, stack, st.memo, st.memo);
    } else if !top.expanded {
      var known := dag[e].Call? && dag[e].list in lists;
      var bound := dag[e].Call? && dag[e].ctx.Context? && dag[e].ctx in contexts;
      var pending := Push(dag, e, st.memo, lists, contexts, known, bound);
      assert rest + [Item(e, false)] == stack;
      ExpandStep(dag, rule, rest, e, st);
      StackedPush(dag, stack, st.memo);
      next := rest + [Item(e, true)] + pending;
    } else {
      assert forall o :: o in dag[e].Operands() ==> o in st.memo;
      after, lists', contexts' := Make(dag, rule, e, st, lists, contexts);
      StackedPop(dag, stack, st.memo, after.memo);
    }
  }

  /** The rewrite of `roots` under any rule, from whatever was rewritten before: the
      recursive walk's result. */
  method Rewrite<S, R>(dag: seq<Node>, rule: Rule<S, R>, roots: seq<nat>, start: State<S, R>)
    returns (st: State<S, R>, out: seq<R>)
    requires Ordered(dag) && forall e :: e in roots ==> e < |dag|
    ensures st == VisitAll(dag, rule, roots, start)
    ensures out == Rewritten(st.memo, roots)
  {
    st := start;
    var lists: map<seq<nat>, seq<R>> := map[];
    var contexts: map<Context, seq<R>> := map[];
    assert forall i :: 0 <= i < |roots| ==> roots[i] in roots;
    for k := 0 to |roots|
      invariant st == VisitFirst(dag, rule, roots, |dag|, k, start) && Shared(dag, st.memo, lists, contexts)
    {
      var stack := [Item(roots[k], false)];
      ghost var target := Visit(dag, rule, roots[k], st);
      assert stack[..0] == [];
      while stack != []
        invariant Stacked(dag, stack, st.memo) && Shared(dag, st.memo, lists, contexts)
        invariant Finish(dag, rule, stack, st) == target
        decreases Work(dag, stack)
      {
        stack, st, lists, contexts := Iterate(dag, rule, stack, st, lists, contexts);
      }
    }
    out := Rewritten(st.memo, roots);
  }

  // --- the order nodes are rewritten in -----------------------------------------------------------------

  /** The rule that only notes what it is asked for. */
  function Noting(): Rule<seq<nat>, ()> { (made: seq<nat>, e: nat, ops: seq<()>) => (made + [e], ()) }

  function Fresh(done: set<nat>): State<seq<nat>, ()> { State([], map e | e in done :: ()) }

  /** The nodes the rewrite of `roots` applies its rule to, in order, those of `done` being
      rewritten before. */
  function Order(dag: seq<Node>, roots: seq<nat>, done: set<nat>): seq<nat>
    requires Ordered(dag) && forall e :: e in roots ==> e < |dag|
  {
    VisitAll(dag, Noting(), roots, Fresh(done)).made
  }

  /** The nodes noted are new, each once and after its operands. */
  ghost predicate Noted(dag: seq<Node>, done: set<nat>, st: State<seq<nat>, ()>) {
    && (forall e :: e in st.memo <==> e in done || e in st.made)
    && (forall i :: 0 <= i < |st.made| ==> st.made[i] < |dag| && st.made[i] !in done)
    && (forall i, j :: 0 <= i < j < |st.made| ==> st.made[i] != st.made[j])
    && (forall i, o :: 0 <= i < |st.made| && o in dag[st.made[i]].Operands() ==> o in done || o in st.made[..i])
  }

  ghost predicate Downward(dag: seq<Node>, p: iset<nat>) {
    forall e, o :: 0 <= e < |dag| && e in p && o in dag[e].Operands() ==> o in p
  }

  lemma NotedNext(dag: seq<Node>, done: set<nat>, st: State<seq<nat>, ()>, e: nat)
    requires e < |dag| && Noted(dag, done, st) && e !in st.memo && forall o :: o in dag[e].Operands() ==> o in st.memo
    ensures Apply(dag, Noting(), e, st).made == st.made + [e] && Noted(dag, done, Apply(dag, Noting(), e, st))
  {
    var next := st.made + [e];
    assert Apply(dag, Noting(), e, st).made == next;
    forall i, o | 0 <= i < |next| && o in dag[next[i]].Operands() ensures o in done || o in next[..i] {
      if i < |st.made| {
        assert next[..i] == st.made[..i];
      } else {
        assert next[..i] == st.made;
      }
    }
  }

  lemma {:induction false} VisitNotes(dag: seq<Node>, done: set<nat>, e: nat, st: State<seq<nat>, ()>, p: iset<nat>)
    requires Ordered(dag) && e < |dag| && Noted(dag, done, st) && Downward(dag, p) && e in p
    ensures var r := Visit(dag, Noting(), e, st);
            Noted(dag, done, r) && st.made <= r.made && forall i :: |st.made| <= i < |r.made| ==> r.made[i] in p
    decreases e, 1, 0
  {
    hide Noted;
    var ops := dag[e].Operands();
    if e !in st.memo {
      assert forall i :: 0 <= i < |ops| ==> ops[i] in ops;
      VisitFirstNotes(dag, done, ops, e, |ops|, st, p);
      var mid := VisitFirst(dag, Noting(), ops, e, |ops|, st);
      if e !in mid.memo { NotedNext(dag, done, mid, e); }
    }
  }

  lemma {:induction false} VisitFirstNotes(dag: seq<Node>, done: set<nat>, es: seq<nat>, bound: nat, n: nat,
                                           st: State<seq<nat>, ()>, p: iset<nat>)
    requires Ordered(dag) && bound <= |dag| && n <= |es| && (forall i :: 0 <= i < n ==> es[i] < bound && es[i] in p)
    requires Noted(dag, done, st) && Downward(dag, p)
    ensures var r := VisitFirst(dag, Noting(), es, bound, n, st);
            Noted(dag, done, r) && st.made <= r.made && forall i :: |st.made| <= i < |r.made| ==> r.made[i] in p
    decreases bound, 0, n
  {
    hide Noted;
    if n > 0 {
      VisitFirstNotes(dag, done, es, bound, n - 1, st, p);
      VisitNotes(dag, done, es[n - 1], VisitFirst(dag, Noting(), es, bound, n - 1, st), p);
    }
  }

  /** Every node once and after its operands, every root reached, nothing outside what the
      roots reach. */
  ghost predicate Schedule(dag: seq<Node>, roots: seq<nat>, done: set<nat>, order: seq<nat>) {
    && (forall i :: 0 <= i < |order| ==> order[i] < |dag| && order[i] !in done)
    && (forall i, j :: 0 <= i < j < |order| ==> order[i] != order[j])
    && (forall i, o :: 0 <= i < |order| && o in dag[order[i]].Operands() ==> o in done || o in order[..i])
    && (forall e :: e in roots ==> e in done || e in order)
    && (forall p: iset<nat> :: Downward(dag, p) && (forall e :: e in roots ==> e in p) ==>
        forall e :: e in order ==> e in p)
  }

  lemma ScheduleAt(dag: seq<Node>, roots: seq<nat>, done: set<nat>, order: seq<nat>, p: iset<nat>, i: nat)
    requires Schedule(dag, roots, done, order) && i < |order| && Downward(dag, p) && forall e :: e in roots ==> e in p
    ensures order[i] < |dag| && order[i] !in done && order[i] !in order[..i] && order[i] in p
    ensures forall o :: o in dag[order[i]].Operands() ==> o in done || o in order[..i]
  {
    assert order[i] in order;
  }

  lemma ScheduleRoots(dag: seq<Node>, roots: seq<nat>, done: set<nat>, order: seq<nat>)
    requires Schedule(dag, roots, done, order)
    ensures forall e :: e in roots ==> e in done || e in order[..|order|]
  {
    assert order[..|order|] == order;
  }

  predicate InDag(dag: seq<Node>, e: nat) { e < |dag| }

  lemma OrderIs(dag: seq<Node>, roots: seq<nat>, done: set<nat>)
    requires Ordered(dag) && forall e :: e in roots ==> e < |dag|
    ensures Schedule(dag, roots, done, Order(dag, roots, done))
  {
    var st := VisitAll(dag, Noting(), roots, Fresh(done));
    assert forall i :: 0 <= i < |roots| ==> roots[i] in roots;
    VisitFirstNotes(dag, done, roots, |dag|, |roots|, Fresh(done), iset e: nat | InDag(dag, e));
    forall p: iset<nat> | Downward(dag, p) && (forall e :: e in roots ==> e in p)
      ensures forall e :: e in st.made ==> e in p {
      VisitFirstNotes(dag, done, roots, |dag|, |roots|, Fresh(done), p);
    }
  }

  /** A rule applied along an order. */
  function Replay<S, R>(dag: seq<Node>, rule: Rule<S, R>, order: seq<nat>, n: nat, st: State<S, R>): (r: State<S, R>)
    requires n <= |order|
    requires forall i :: 0 <= i < |order| ==> order[i] < |dag|
    decreases n
  {
    if n == 0 then st
    else
      var before := Replay(dag, rule, order, n - 1, st);
      if forall o :: o in dag[order[n - 1]].Operands() ==>
          o in before.memo then Apply(dag, rule, order[n - 1], before) else before
  }

  lemma {:induction false} ReplayJoins<S, R>(dag: seq<Node>, rule: Rule<S, R>, order: seq<nat>, more: seq<nat>,
                                             n: nat, st: State<S, R>)
    requires n <= |order| && order <= more && forall i :: 0 <= i < |more| ==> more[i] < |dag|
    ensures Replay(dag, rule, order, n, st) == Replay(dag, rule, more, n, st)
    decreases n
  {
    if n > 0 { ReplayJoins(dag, rule, order, more, n - 1, st); }
  }

  /** The walk under a rule and the noting walk stay in step. */
  ghost predicate InStep<S, R>(dag: seq<Node>, rule: Rule<S, R>, start: State<S, R>, st: State<S, R>,
                               note: State<seq<nat>, ()>) {
    && st.memo.Keys == note.memo.Keys
    && (forall i :: 0 <= i < |note.made| ==> note.made[i] < |dag|)
    && st == Replay(dag, rule, note.made, |note.made|, start)
  }

  lemma {:induction false} VisitReplays<S, R>(dag: seq<Node>, rule: Rule<S, R>, e: nat, start: State<S, R>,
                                              st: State<S, R>, note: State<seq<nat>, ()>)
    requires Ordered(dag) && e < |dag| && InStep(dag, rule, start, st, note)
    ensures InStep(dag, rule, start, Visit(dag, rule, e, st), Visit(dag, Noting(), e, note))
    decreases e, 1, 0
  {
    hide InStep;
    var ops := dag[e].Operands();
    SameKeys(dag, rule, start, st, note);
    if e !in st.memo {
      assert forall i :: 0 <= i < |ops| ==> ops[i] in ops;
      VisitFirstReplays(dag, rule, ops, e, |ops|, start, st, note);
      ApplyReplays(dag, rule, e, start, VisitFirst(dag, rule, ops, e, |ops|, st),
                   VisitFirst(dag, Noting(), ops, e, |ops|, note));
    }
  }

  lemma SameKeys<S, R>(dag: seq<Node>, rule: Rule<S, R>, start: State<S, R>, st: State<S, R>, note: State<seq<nat>, ()>)
    requires InStep(dag, rule, start, st, note)
    ensures forall e :: e in st.memo <==> e in note.memo
  {
    forall e ensures e in st.memo <==> e in note.memo { assert e in st.memo.Keys <==> e in note.memo.Keys; }
  }

  lemma ApplyReplays<S, R>(dag: seq<Node>, rule: Rule<S, R>, e: nat, start: State<S, R>, st: State<S, R>,
                           note: State<seq<nat>, ()>)
    requires e < |dag| && InStep(dag, rule, start, st, note)
             && forall o :: o in dag[e].Operands() ==> o in st.memo && o in note.memo
    ensures InStep(dag, rule, start, Apply(dag, rule, e, st), Apply(dag, Noting(), e, note))
  {
    SameKeys(dag, rule, start, st, note);
    if e !in st.memo {
      var more := note.made + [e];
      assert Apply(dag, Noting(), e, note).made == more;
      ReplayJoins(dag, rule, note.made, more, |note.made|, start);
      assert Replay(dag, rule, more, |more|, start) == Apply(dag, rule, e, st);
    }
  }

  lemma {:induction false} VisitFirstReplays<S, R>(dag: seq<Node>, rule: Rule<S, R>, es: seq<nat>, bound: nat, n: nat,
                                                   start: State<S, R>, st: State<S, R>, note: State<seq<nat>, ()>)
    requires Ordered(dag) && bound <= |dag| && n <= |es| && (forall i :: 0 <= i < n ==> es[i] < bound)
             && InStep(dag, rule, start, st, note)
    ensures InStep(dag, rule, start, VisitFirst(dag, rule, es, bound, n, st),
                   VisitFirst(dag, Noting(), es, bound, n, note))
    decreases bound, 0, n
  {
    hide InStep;
    if n > 0 {
      VisitFirstReplays(dag, rule, es, bound, n - 1, start, st, note);
      VisitReplays(dag, rule, es[n - 1], start, VisitFirst(dag, rule, es, bound, n - 1, st),
                   VisitFirst(dag, Noting(), es, bound, n - 1, note));
    }
  }

  /** A rewrite is its rule applied along the order, whatever the rule: each node once, after
      its operands. */
  lemma RewriteReplays<S, R>(dag: seq<Node>, rule: Rule<S, R>, roots: seq<nat>, start: State<S, R>)
    requires Ordered(dag) && forall e :: e in roots ==> e < |dag|
    ensures var order := Order(dag, roots, start.memo.Keys);
            && Schedule(dag, roots, start.memo.Keys, order)
            && VisitAll(dag, rule, roots, start) == Replay(dag, rule, order, |order|, start)
  {
    OrderIs(dag, roots, start.memo.Keys);
    assert forall i :: 0 <= i < |roots| ==> roots[i] in roots;
    assert Fresh(start.memo.Keys).memo.Keys == start.memo.Keys;
    VisitFirstReplays(dag, rule, roots, |dag|, |roots|, start, start, Fresh(start.memo.Keys));
  }

  /** The order, by the walk itself. */
  method Schedules(dag: seq<Node>, roots: seq<nat>, done: set<nat>) returns (order: seq<nat>)
    requires Ordered(dag) && forall e :: e in roots ==> e < |dag|
    ensures order == Order(dag, roots, done) && Schedule(dag, roots, done, order)
  {
    OrderIs(dag, roots, done);
    var st, _ := Rewrite(dag, Noting(), roots, Fresh(done));
    order := st.made;
  }
}
