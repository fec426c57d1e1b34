/** Partial application: some parameters of a function bound to expressions, the others
    passed by each call, and the operands of a call back in parameter order. */
module Bindings {

  /** Where a parameter's operand comes from: a call argument, or a bound expression. */
  datatype Slot = Passed(i: nat) | Bound(j: nat)

  /** The bound parameters of `f`, ascending, their expressions, and every parameter's slot. */
  datatype Context = NoContext | Context(f: nat, at: seq<nat>, exprs: seq<nat>, slot: seq<Slot>) {
    function Exprs(): seq<nat> { if NoContext? then [] else exprs }
  }

  // --- the pairs sorted, one per parameter --------------------------------------------------------

  predicate Less(a: (nat, nat), b: (nat, nat)) { a.0 < b.0 || (a.0 == b.0 && a.1 <= b.1) }

  function Insert(p: (nat, nat), s: seq<(nat, nat)>): seq<(nat, nat)> {
    if s == [] then [p] else if Less(p, s[0]) then [p] + s else [s[0]] + Insert(p, s[1..])
  }

  function Sort(s: seq<(nat, nat)>): seq<(nat, nat)> {
    if s == [] then [] else Insert(s[0], Sort(s[1..]))
  }

  /** Of the pairs of one parameter the first. */
  function Dedup(s: seq<(nat, nat)>): seq<(nat, nat)>
    decreases |s|
  {
    if |s| <= 1 then s
    else if s[0].0 == s[1].0 then Dedup([s[0]] + s[2..])
    else [s[0]] + Dedup(s[1..])
  }

  ghost predicate SortedPairs(s: seq<(nat, nat)>) { forall i, j :: 0 <= i < j < |s| ==> Less(s[i], s[j]) }

  ghost predicate Ascending(at: seq<nat>) { forall i, j :: 0 <= i < j < |at| ==> at[i] < at[j] }

  lemma {:induction false} InsertSorted(p: (nat, nat), s: seq<(nat, nat)>)
    requires SortedPairs(s)
    ensures SortedPairs(Insert(p, s)) && forall q :: q in Insert(p, s) <==> q == p || q in s
  {
    if s != [] && !Less(p, s[0]) {
      InsertSorted(p, s[1..]);
      var r := Insert(p, s[1..]);
      forall i, j | 0 <= i < j < |[s[0]] + r| ensures Less(([s[0]] + r)[i], ([s[0]] + r)[j]) {
        assert ([s[0]] + r)[j] == r[j - 1] && r[j - 1] in r;
      }
    }
  }

  lemma {:induction false} SortSorted(s: seq<(nat, nat)>)
    ensures SortedPairs(Sort(s)) && forall q :: q in Sort(s) <==> q in s
  {
    if s != [] {
      SortSorted(s[1..]);
      InsertSorted(s[0], Sort(s[1..]));
    }
  }

  /** The firsts of `r` ascend and it holds, of the pairs of each parameter of `s`, the least. */
  ghost predicate LeastOf(s: seq<(nat, nat)>, r: seq<(nat, nat)>) {
    (forall i, j :: 0 <= i < j < |r| ==> r[i].0 < r[j].0) && forall q :: q in r <==> IsLeast(s, q)
  }

  ghost predicate IsLeast(s: seq<(nat, nat)>, q: (nat, nat)) { q in s && forall o ::
                                                              o in s && o.0 == q.0 ==> q.1 <= o.1 }

  lemma SortedPart(s: seq<(nat, nat)>)
    requires SortedPairs(s) && |s| > 1
    ensures SortedPairs(s[1..]) && SortedPairs([s[0]] + s[2..])
    ensures forall o :: o in s[1..] ==> Less(s[0], o)
  {
    var t := [s[0]] + s[2..];
    forall i, j | 0 <= i < j < |t| ensures Less(t[i], t[j]) { assert Less(s[if i == 0 then 0 else i + 1], s[j + 1]); }
    forall i, j | 0 <= i < j < |s| - 1 ensures Less(s[1..][i], s[1..][j]) { assert Less(s[i + 1], s[j + 1]); }
  }

  /** Of two pairs of one parameter the second is not the least. */
  lemma LeastSame(s: seq<(nat, nat)>, q: (nat, nat))
    requires SortedPairs(s) && |s| > 1 && s[0].0 == s[1].0
    ensures IsLeast(s, q) <==> IsLeast([s[0]] + s[2..], q)
  {
    hide SortedPairs;
    var t := [s[0]] + s[2..];
    SortedPart(s);
    forall o ensures o in s <==> o in t || o == s[1] {
      if o in s[2..] { assert o in s; }
    }
    assert s[1] in s[1..] && s[0].1 <= s[1].1;
    if IsLeast(s, q) { assert s[0] in s; }
  }

  lemma LeastOther(s: seq<(nat, nat)>, q: (nat, nat))
    requires SortedPairs(s) && |s| > 1 && s[0].0 != s[1].0
    ensures IsLeast(s, q) <==> q == s[0] || IsLeast(s[1..], q)
    ensures forall o :: o in s[1..] ==> s[0].0 < o.0
  {
    SortedPart(s);
    forall o | o in s[1..] ensures s[0].0 < o.0 {
      var i :| 0 <= i < |s| - 1 && s[1..][i] == o;
      assert Less(s[1], s[i + 1]) || i == 0;
    }
    assert forall o :: o in s <==> o == s[0] || o in s[1..];
  }

  /** Sorted pairs lose all but the least expression of each parameter. */
  lemma {:induction false} DedupLeast(s: seq<(nat, nat)>)
    requires SortedPairs(s)
    ensures LeastOf(s, Dedup(s))
    decreases |s|
  {
    hide SortedPairs, Less, IsLeast;
    if |s| <= 1 {
      DedupSmall(s);
    } else {
      SortedPart(s);
      if s[0].0 == s[1].0 {
        DedupLeast([s[0]] + s[2..]);
        forall q ensures IsLeast(s, q) <==> IsLeast([s[0]] + s[2..], q) { LeastSame(s, q); }
      } else {
        DedupLeast(s[1..]);
        DedupOther(s);
      }
    }
  }

  lemma DedupSmall(s: seq<(nat, nat)>)
    requires |s| <= 1
    ensures LeastOf(s, s)
  {
  }

  lemma {:induction false} DedupOther(s: seq<(nat, nat)>)
    requires SortedPairs(s) && |s| > 1 && s[0].0 != s[1].0 && LeastOf(s[1..], Dedup(s[1..]))
    ensures LeastOf(s, Dedup(s))
  {
    hide SortedPairs, Less;
    var r := Dedup(s[1..]);
    LeastOther(s, s[0]);
    forall i | 0 <= i < |r| ensures s[0].0 < r[i].0 { assert r[i] in r && IsLeast(s[1..], r[i]); }
    forall q ensures q in [s[0]] + r <==> IsLeast(s, q) { LeastOther(s, q); }
  }

  ghost predicate Below(at: seq<nat>, n: nat) { forall j :: 0 <= j < |at| ==> at[j] < n }

  // --- binding ------------------------------------------------------------------------------------

  /** The parameters before `p` that are not bound. */
  function Free(at: seq<nat>, p: nat): (n: nat)
    ensures n <= p
  {
    if p == 0 then 0 else Free(at, p - 1) + if p - 1 in at then 0 else 1
  }

  /** A context over `n` parameters as `Bind` makes it. */
  ghost predicate ContextOk(c: Context, n: nat) {
    c.Context? ==>
      && |c.slot| == n && |c.exprs| == |c.at| && Ascending(c.at) && Below(c.at, n)
      && (forall j :: 0 <= j < |c.at| ==> c.slot[c.at[j]] == Bound(j))
      && (forall p :: 0 <= p < n && p !in c.at ==> c.slot[p] == Passed(Free(c.at, p)))
  }

  function Arity(c: Context, n: nat): int { if c.NoContext? then n else n - |c.at| }

  lemma {:induction false} FreeOne(at: seq<nat>, p: nat, x: nat)
    requires x !in at
    ensures Free(at + [x], p) == Free(at, p) - if x < p then 1 else 0
    decreases p
  {
    if p > 0 {
      FreeOne(at, p - 1, x);
      assert forall q :: q in at + [x] <==> q in at || q == x;
    }
  }

  lemma {:induction false} FreeNone(p: nat)
    ensures Free([], p) == p
  {
    if p > 0 { FreeNone(p - 1); }
  }

  lemma {:induction false} FreeCount(at: seq<nat>, n: nat)
    requires Ascending(at) && Below(at, n)
    ensures Free(at, n) == n - |at|
    decreases |at|
  {
    if at == [] {
      FreeNone(n);
    } else {
      var rest, last := at[..|at| - 1], at[|at| - 1];
      assert at == rest + [last];
      FreeCount(rest, n);
      FreeOne(rest, n, last);
    }
  }

  lemma {:induction false} FreeLess(at: seq<nat>, p: nat, n: nat)
    requires p < n && p !in at
    ensures Free(at, p) < Free(at, n)
    decreases n
  {
    if p < n - 1 { FreeLess(at, p, n - 1); }
  }

  function Firsts(s: seq<(nat, nat)>): (r: seq<nat>)
    ensures |r| == |s| && forall i :: 0 <= i < |s| ==> r[i] == s[i].0
  { seq(|s|, i requires 0 <= i < |s| => s[i].0) }

  function Seconds(s: seq<(nat, nat)>): (r: seq<nat>)
    ensures |r| == |s| && forall i :: 0 <= i < |s| ==> r[i] == s[i].1
  { seq(|s|, i requires 0 <= i < |s| => s[i].1) }

  /** The pairs a binding keeps. */
  function KeptPairs(bound: seq<(nat, nat)>): (r: seq<(nat, nat)>)
    ensures Ascending(Firsts(r)) && (bound == [] <==> r == [])
    ensures forall q :: q in r <==> q in bound && forall o :: o in bound && o.0 == q.0 ==> q.1 <= o.1
  {
    SortSorted(bound);
    DedupLeast(Sort(bound));
    assert bound != [] ==> Dedup(Sort(bound)) != [] by {
      if bound != [] {
        assert bound[0] in Sort(bound);
        Shrinks(Sort(bound));
      }
    }
    Dedup(Sort(bound))
  }

  lemma {:induction false} Shrinks(s: seq<(nat, nat)>)
    requires s != []
    ensures Dedup(s) != []
    decreases |s|
  {
    if |s| > 1 && s[0].0 == s[1].0 { Shrinks([s[0]] + s[2..]); }
  }

  /** The slots of `n` parameters, those of `at` bound. */
  method Slots(at: seq<nat>, n: nat) returns (slot: seq<Slot>)
    requires Ascending(at) && Below(at, n)
    ensures |slot| == n
    ensures forall j :: 0 <= j < |at| ==> slot[at[j]] == Bound(j)
    ensures forall p :: 0 <= p < n && p !in at ==> slot[p] == Passed(Free(at, p))
  {
    hide Free, Ascending;
    var slots := new Slot[n](_ => Passed(0));
    var next, j: nat := 0, 0;
    assert Free(at, 0) == 0 by { FreeZero(at); }
    for p := 0 to n
      invariant j <= |at| && (j < |at| ==> at[j] >= p) && (forall i :: 0 <= i < j ==> at[i] < p)
      invariant next == Free(at, p)
      invariant forall i :: 0 <= i < j ==> slots[at[i]] == Bound(i)
      invariant forall q :: 0 <= q < p && q !in at ==> slots[q] == Passed(Free(at, q))
    {
      Member(at, j, p);
      if j < |at| && at[j] == p {
        slots[p] := Bound(j);
        j := j + 1;
      } else {
        slots[p] := Passed(next);
        next := next + 1;
      }
    }
    slot := slots[..];
  }

  lemma FreeZero(at: seq<nat>)
    ensures Free(at, 0) == 0
  {
  }

  /** Where an ascending list has been passed up to `p`, its next element tells whether `p` is
      in it. */
  lemma Member(at: seq<nat>, j: nat, p: nat)
    requires Ascending(at) && j <= |at| && (j < |at| ==> at[j] >= p) && (forall i :: 0 <= i < j ==> at[i] < p)
    ensures p in at <==> j < |at| && at[j] == p
    ensures j + 1 < |at| && at[j] == p ==> at[j + 1] >= p + 1
    ensures Free(at, p + 1) == Free(at, p) + if j < |at| && at[j] == p then 0 else 1
  {
    if p in at {
      var i :| 0 <= i < |at| && at[i] == p;
    }
  }

  /** `f`, of `n` parameters, with some bound: the pairs in any order, the least expression
      kept where a parameter is bound twice. */
  method Bind(f: nat, n: nat, bound: seq<(nat, nat)>) returns (c: Context)
    requires forall q :: q in bound ==> q.0 < n
    ensures ContextOk(c, n) && (c.NoContext? <==> bound == [])
    ensures c.Context? ==> c.f == f && c.at == Firsts(KeptPairs(bound)) && c.exprs == Seconds(KeptPairs(bound))
  {
    var pairs := KeptPairs(bound);
    if pairs == [] { return NoContext; }
    var at := Firsts(pairs);
    forall i | 0 <= i < |at| ensures at[i] < n { assert pairs[i] in pairs; }
    var slot := Slots(at, n);
    c := Context(f, at, Seconds(pairs), slot);
  }

  // --- the operands of a call ----------------------------------------------------------------------

  lemma {:induction false} SlotsFit(c: Context, n: nat, args: seq<nat>, p: nat)
    requires ContextOk(c, n) && c.Context? && |args| == Arity(c, n) && p < n
    ensures match c.slot[p] case Passed(i) => i < |args| case Bound(j) => j < |c.exprs|
  {
    if p in c.at {
      var j :| 0 <= j < |c.at| && c.at[j] == p;
    } else {
      FreeLess(c.at, p, n);
      FreeCount(c.at, n);
    }
  }

  /** Bound expressions and passed arguments merged: entry `i` belongs to parameter `i`. */
  function FullArgs(c: Context, n: nat, args: seq<nat>): (r: seq<nat>)
    requires ContextOk(c, n) && |args| == Arity(c, n)
    ensures |r| == n
  {
    if c.NoContext? then args
    else
      seq(n, p requires 0 <= p < n =>
            SlotsFit(c, n, args, p);
            match c.slot[p] case Passed(i) => args[i] case Bound(j) => c.exprs[j])
  }

  /** Every operand is one of the call's. */
  lemma {:induction false} FullAmong(c: Context, n: nat, args: seq<nat>, p: nat)
    requires ContextOk(c, n) && |args| == Arity(c, n) && p < n
    ensures FullArgs(c, n, args)[p] in args + c.Exprs()
  {
    if c.Context? { SlotsFit(c, n, args, p); }
  }

  /** Operands mapped one by one stay in place: parameter `p`'s is operand `i` of both calls. */
  lemma {:induction false} FullMapped(c: Context, d: Context, n: nat, args: seq<nat>, news: seq<nat>, p: nat)
    returns (i: nat)
    requires ContextOk(c, n) && ContextOk(d, n) && |args| == Arity(c, n) && |news| == Arity(d, n) && p < n
    requires (c.NoContext? <==> d.NoContext?) && (c.Context? ==> c.at == d.at)
    ensures i < |args + c.Exprs()| == |news + d.Exprs()|
    ensures FullArgs(c, n, args)[p] == (args + c.Exprs())[i] && FullArgs(d, n, news)[p] == (news + d.Exprs())[i]
  {
    if c.NoContext? {
      i := p;
    } else {
      SlotsFit(c, n, args, p);
      SlotsFit(d, n, news, p);
      if p in c.at { var j :| 0 <= j < |c.at| && c.at[j] == p; }
      assert c.slot[p] == d.slot[p];
      i := match c.slot[p] case Passed(k) => k case Bound(j) => |args| + j;
    }
  }

  // --- round trips ------------------------------------------------------------------------------------

  /** The operands of the first `p` parameters outside `b`, and inside it. */
  function PassedOf(full: seq<nat>, b: set<nat>, p: nat): seq<nat>
    requires p <= |full|
  { if p == 0 then [] else PassedOf(full, b, p - 1) + if p - 1 in b then [] else [full[p - 1]] }

  function BoundOf(full: seq<nat>, b: set<nat>, p: nat): seq<(nat, nat)>
    requires p <= |full|
  { if p == 0 then [] else BoundOf(full, b, p - 1) + if p - 1 in b then [(p - 1, full[p - 1])] else [] }

  lemma {:induction false} BoundOfIs(full: seq<nat>, b: set<nat>, p: nat)
    requires p <= |full|
    ensures Ascending(Firsts(BoundOf(full, b, p)))
    ensures forall q :: q in BoundOf(full, b, p) <==> q.0 < p && q.0 in b && q.1 == full[q.0]
    decreases p
  {
    if p > 0 {
      BoundOfIs(full, b, p - 1);
      var r := BoundOf(full, b, p - 1);
      forall i | 0 <= i < |r| ensures r[i].0 < p - 1 { assert r[i] in r; }
    }
  }

  lemma {:induction false} PassedOfAt(full: seq<nat>, b: set<nat>, at: seq<nat>, p: nat, k: nat)
    requires p <= |full| && (forall q :: q < |full| ==> (q in at <==> q in b))
    ensures |PassedOf(full, b, p)| == Free(at, p)
    ensures k < p && k !in b ==> Free(at, k) < |PassedOf(full, b, p)| && PassedOf(full, b, p)[Free(at, k)] == full[k]
    decreases p
  {
    if p > 0 {
      PassedOfAt(full, b, at, p - 1, k);
      if k < p - 1 && k !in b { FreeLess(at, k, p - 1); }
    }
  }

  /** Ascending pairs of the same elements are the same pairs. */
  lemma {:induction false} SamePairs(a: seq<(nat, nat)>, b: seq<(nat, nat)>)
    requires Ascending(Firsts(a)) && Ascending(Firsts(b)) && forall q :: q in a <==> q in b
    ensures a == b
    decreases |a|
  {
    if a != [] {
      assert a[0] in a && a[0] in b;
      assert b[0] in b && b[0] in a;
      assert a[0] == b[0] by {
        var i :| 0 <= i < |b| && b[i] == a[0];
        var j :| 0 <= j < |a| && a[j] == b[0];
        assert Firsts(b)[0] <= Firsts(b)[i] && Firsts(a)[0] <= Firsts(a)[j];
      }
      forall q ensures q in a[1..] <==> q in b[1..] { TailHas(a, q); TailHas(b, q); }
      forall i, j | 0 <= i < j < |a| - 1 ensures Firsts(a[1..])[i] < Firsts(a[1..])[j] {
        assert Firsts(a)[i + 1] < Firsts(a)[j + 1];
      }
      forall i, j | 0 <= i < j < |b| - 1 ensures Firsts(b[1..])[i] < Firsts(b[1..])[j] {
        assert Firsts(b)[i + 1] < Firsts(b)[j + 1];
      }
      SamePairs(a[1..], b[1..]);
    }
  }

  lemma TailHas(a: seq<(nat, nat)>, q: (nat, nat))
    requires a != [] && Ascending(Firsts(a))
    ensures q in a[1..] <==> q in a && q != a[0]
  {
    if q in a && q != a[0] {
      var i :| 0 <= i < |a| && a[i] == q;
      assert a[1..][i - 1] == q;
    }
    if q in a[1..] {
      var i :| 0 <= i < |a| - 1 && a[1..][i] == q;
      assert Firsts(a)[0] < Firsts(a)[i + 1];
    }
  }

  lemma PairsKept(full: seq<nat>, b: set<nat>)
    ensures var pairs := BoundOf(full, b, |full|);
            && KeptPairs(pairs) == pairs && Below(Firsts(pairs), |full|)
            && forall q: nat :: q < |full| ==> (q in Firsts(pairs) <==> q in b)
  {
    hide KeptPairs;
    var n := |full|;
    var pairs := BoundOf(full, b, n);
    BoundOfIs(full, b, n);
    forall q ensures q in pairs <==> q in KeptPairs(pairs) {}
    SamePairs(pairs, KeptPairs(pairs));
    var at := Firsts(pairs);
    forall i | 0 <= i < |at| ensures at[i] < n { assert pairs[i] in pairs; }
    forall q: nat | q < n ensures q in at <==> q in b {
      if q in b {
        assert (q, full[q]) in pairs;
        var i :| 0 <= i < |pairs| && pairs[i] == (q, full[q]);
        assert at[i] == q;
      }
      if q in at {
        var i :| 0 <= i < |at| && at[i] == q;
        assert pairs[i] in pairs;
      }
    }
  }

  /** Bound apart and passed apart, the operands come back in parameter order: for every list
      of operands and every choice of the bound parameters. */
  lemma RoundTrip(full: seq<nat>, b: set<nat>, c: Context)
    requires ContextOk(c, |full|) && (c.NoContext? <==> BoundOf(full, b, |full|) == [])
    requires c.Context? ==>
               c.at == Firsts(KeptPairs(BoundOf(full, b, |full|)))
                   && c.exprs == Seconds(KeptPairs(BoundOf(full, b, |full|)))
    ensures |PassedOf(full, b, |full|)| == Arity(c, |full|) && FullArgs(c, |full|, PassedOf(full, b, |full|)) == full
  {
    hide KeptPairs, BoundOf, PassedOf, Free;
    var n := |full|;
    var pairs, args := BoundOf(full, b, n), PassedOf(full, b, n);
    var at := Firsts(pairs);
    PairsKept(full, b);
    BoundOfIs(full, b, n);
    PassedOfAt(full, b, at, n, 0);
    FreeCount(at, n);
    if c.NoContext? {
      NothingBound(full, b, n);
    } else {
      forall p | 0 <= p < n ensures FullArgs(c, n, args)[p] == full[p] { OperandBack(full, b, c, p); }
    }
  }

  lemma OperandBack(full: seq<nat>, b: set<nat>, c: Context, p: nat)
    requires ContextOk(c, |full|) && p < |full| && c.Context?
    requires c.at == Firsts(BoundOf(full, b, |full|)) && c.exprs == Seconds(BoundOf(full, b, |full|))
    requires |PassedOf(full, b, |full|)| == Arity(c, |full|)
    requires forall q: nat :: q < |full| ==> (q in c.at <==> q in b)
    ensures FullArgs(c, |full|, PassedOf(full, b, |full|))[p] == full[p]
  {
    hide BoundOf, PassedOf, Free;
    var n, pairs := |full|, BoundOf(full, b, |full|);
    BoundOfIs(full, b, n);
    SlotsFit(c, n, PassedOf(full, b, n), p);
    if p in c.at {
      var j :| 0 <= j < |c.at| && c.at[j] == p;
      assert pairs[j] in pairs;
    } else {
      PassedOfAt(full, b, c.at, n, p);
    }
  }

  lemma {:induction false} NothingBound(full: seq<nat>, b: set<nat>, p: nat)
    requires p <= |full| && BoundOf(full, b, p) == []
    ensures PassedOf(full, b, p) == full[..p]
    decreases p
  {
    if p > 0 { NothingBound(full, b, p - 1); }
  }

  datatype Arg = BindTo(e: nat) | Pass(e: nat)

  function ArgExprs(args: seq<Arg>): (r: seq<nat>)
    ensures |r| == |args| && forall i :: 0 <= i < |args| ==> r[i] == args[i].e
  { seq(|args|, i requires 0 <= i < |args| => args[i].e) }

  /** `f` partially applied, every parameter bound or passed: the call through the binding
      over the passed ones has exactly the operands given, in order. */
  method Partial(f: nat, params: seq<Arg>) returns (c: Context, args: seq<nat>)
    ensures ContextOk(c, |params|) && |args| == Arity(c, |params|) && FullArgs(c, |params|, args) == ArgExprs(params)
  {
    ghost var full, b := ArgExprs(params), set k | 0 <= k < |params| && params[k].BindTo?;
    var bound: seq<(nat, nat)> := [];
    args := [];
    for k := 0 to |params|
      invariant bound == BoundOf(full, b, k) && args == PassedOf(full, b, k)
    {
      match params[k]
      case BindTo(e) => bound := bound + [(k, e)];
      case Pass(e) => args := args + [e];
    }
    BoundOfIs(full, b, |params|);
    c := Bind(f, |params|, bound);
    RoundTrip(full, b, c);
  }
}
