/** Function bodies specialized per binding: a batch runs each instance on the variant its
    binding decides, the instances of a variant together, on a shortened main phase where
    there is one and again on the variant's own where a guard fails. */
module BodyVariants {
  import opened Basics

  /** A body by what it computes, `P` a binding, `A` an instance's arguments, `S` a variant's
      state: `pattern` the conditions a binding decides, `build` whether deciding a pattern
      shortens the body, `short` a main phase shortened against some choices, with the count of
      guards that fail. */
  datatype Body<!P, !A, !S, !O> = Body(
    pure: A -> P, out: A -> O, pattern: P -> seq<bool>, build: seq<bool> -> bool,
    state: (Option<seq<bool>>, P) -> S, main: (Option<seq<bool>>, S, A) -> O,
    short: (Option<seq<bool>>, nat, S, A) -> (O, nat))

  /** What is taken of a decided body and of a shortened main phase: the full body's outputs
      where the pattern is the binding's, the variant's own where no guard fails. */
  ghost predicate Sound<P(!new), A(!new), S(!new), O>(B: Body<P, A, S, O>) {
    && (forall d: Option<seq<bool>>, a: A :: DecidedSound(B, d, a))
    && (forall d: Option<seq<bool>>, ver: nat, s: S, a: A :: ShortSound(B, d, ver, s, a))
  }

  ghost predicate DecidedSound<P, A, S, O>(B: Body<P, A, S, O>, d: Option<seq<bool>>, a: A) {
    (d.None? || d.value == B.pattern(B.pure(a))) ==> B.main(d, B.state(d, B.pure(a)), a) == B.out(a)
  }

  ghost predicate ShortSound<P, A, S, O>(B: Body<P, A, S, O>, d: Option<seq<bool>>, ver: nat, s: S, a: A) {
    B.short(d, ver, s, a).1 == 0 ==> B.short(d, ver, s, a).0 == B.main(d, s, a)
  }

  /** A batch's listing: which instances, and where each one's block is. */
  datatype Rows = Own(base: nat) | At(rows: seq<nat>)

  datatype Instances = Instances(list: seq<nat>, rows: Rows) {
    predicate Ok(n: nat, height: nat) {
      && (forall k :: 0 <= k < |list| ==> list[k] < n)
      && (forall k :: 0 <= k < |list| ==> (rows.At? ==> list[k] < |rows.rows|) && Row(list[k]) < height)
    }
    function Row(g: nat): nat { if rows.Own? then rows.base + g else if g < |rows.rows| then rows.rows[g] else 0 }
    function Listed(l: seq<nat>): Instances { Instances(l, rows) }
  }

  // --- the instances of each variant ------------------------------------------------------------------

  /** The items of variant `v` among the first `n`, in order. */
  function Of(items: seq<nat>, vs: seq<nat>, v: nat, n: nat): seq<nat>
    requires |vs| == |items| && n <= |items|
  { if n == 0 then [] else Of(items, vs, v, n - 1) + if vs[n - 1] == v then [items[n - 1]] else [] }

  datatype Group = Group(v: nat, list: seq<nat>)

  /** The variants below `nv` that have items, ascending, with their items. */
  function GroupsOf(items: seq<nat>, vs: seq<nat>, nv: nat): (r: seq<Group>)
    requires |vs| == |items|
  {
    if nv == 0 then []
    else
      var l := Of(items, vs, nv - 1, |items|);
      GroupsOf(items, vs, nv - 1) + if l == [] then [] else [Group(nv - 1, l)]
  }

  lemma {:induction false} OfAll(items: seq<nat>, vs: seq<nat>, v: nat, n: nat)
    requires |vs| == |items| && n <= |items| && forall k :: 0 <= k < n ==> vs[k] == v
    ensures Of(items, vs, v, n) == items[..n]
    decreases n
  {
    if n > 0 { OfAll(items, vs, v, n - 1); }
  }

  lemma {:induction false} OfNone(items: seq<nat>, vs: seq<nat>, v: nat, n: nat)
    requires |vs| == |items| && n <= |items| && forall k :: 0 <= k < n ==> vs[k] != v
    ensures Of(items, vs, v, n) == []
    decreases n
  {
    if n > 0 { OfNone(items, vs, v, n - 1); }
  }

  lemma {:induction false} OneGroup(items: seq<nat>, vs: seq<nat>, v: nat, nv: nat)
    requires |vs| == |items| && items != [] && forall k :: 0 <= k < |vs| ==> vs[k] == v
    ensures GroupsOf(items, vs, nv) == if v < nv then [Group(v, items)] else []
    decreases nv
  {
    hide Of;
    if nv > 0 {
      OneGroup(items, vs, v, nv - 1);
      assert items[..|items|] == items;
      if nv - 1 == v { OfAll(items, vs, v, |items|); } else { OfNone(items, vs, nv - 1, |items|); }
    }
  }

  /** How many items come before those of variant `v` in the order of variants. */
  function Start(items: seq<nat>, vs: seq<nat>, v: nat): nat
    requires |vs| == |items|
  { if v == 0 then 0 else Start(items, vs, v - 1) + |Of(items, vs, v - 1, |items|)| }

  lemma {:induction false} StartMono(items: seq<nat>, vs: seq<nat>, u: nat, v: nat)
    requires |vs| == |items| && u < v
    ensures Start(items, vs, u) + |Of(items, vs, u, |items|)| <= Start(items, vs, v)
    decreases v
  {
    if u < v - 1 { StartMono(items, vs, u, v - 1); }
  }

  lemma {:induction false} OfMono(items: seq<nat>, vs: seq<nat>, v: nat, k: nat, n: nat)
    requires |vs| == |items| && k <= n <= |items|
    ensures Of(items, vs, v, k) <= Of(items, vs, v, n)
    decreases n
  {
    if k < n { OfMono(items, vs, v, k, n - 1); }
  }

  function Low(items: seq<nat>, vs: seq<nat>, v: nat, n: nat): nat
    requires |vs| == |items| && n <= |items|
  { if n == 0 then 0 else Low(items, vs, v, n - 1) + if vs[n - 1] < v then 1 else 0 }

  lemma {:induction false} LowNext(items: seq<nat>, vs: seq<nat>, v: nat, n: nat)
    requires |vs| == |items| && n <= |items|
    ensures Low(items, vs, v + 1, n) == Low(items, vs, v, n) + |Of(items, vs, v, n)| && Low(items, vs, v, n) <= n
    decreases n
  {
    if n > 0 { LowNext(items, vs, v, n - 1); }
  }

  lemma {:induction false} StartIsLow(items: seq<nat>, vs: seq<nat>, v: nat)
    requires |vs| == |items|
    ensures Start(items, vs, v) == Low(items, vs, v, |items|) <= |items|
    decreases v
  {
    if v == 0 {
      LowZero(items, vs, |items|);
    } else {
      StartIsLow(items, vs, v - 1);
      LowNext(items, vs, v - 1, |items|);
      LowNext(items, vs, v, |items|);
    }
  }

  lemma {:induction false} LowZero(items: seq<nat>, vs: seq<nat>, n: nat)
    requires |vs| == |items| && n <= |items|
    ensures Low(items, vs, 0, n) == 0
    decreases n
  {
    if n > 0 { LowZero(items, vs, n - 1); }
  }

  lemma OfNext(items: seq<nat>, vs: seq<nat>, v: nat, k: nat)
    requires |vs| == |items| && k < |items|
    ensures Of(items, vs, v, k + 1) == Of(items, vs, v, k) + if vs[k] == v then [items[k]] else []
  {
  }

  lemma StartNext(items: seq<nat>, vs: seq<nat>, v: nat)
    requires |vs| == |items|
    ensures Start(items, vs, v + 1) == Start(items, vs, v) + |Of(items, vs, v, |items|)| && Start(items, vs, 0) == 0
  {
  }

  /** Where the items of every variant start: counted one place on, then summed up in place. */
  method Starts(items: seq<nat>, vs: seq<nat>, nv: nat) returns (start: seq<nat>)
    requires |vs| == |items| && forall k :: 0 <= k < |vs| ==> vs[k] < nv
    ensures |start| == nv + 1 && forall v :: 0 <= v <= nv ==> start[v] == Start(items, vs, v)
  {
    hide Of, Start;
    var a := new nat[nv + 1](_ => 0);
    forall u: nat | u < nv ensures Of(items, vs, u, 0) == [] { OfZero(items, vs, u); }
    for k := 0 to |vs|
      invariant a[0] == 0 && forall u :: 1 <= u <= nv ==> a[u] == |Of(items, vs, u - 1, k)|
    {
      forall u: nat | u < nv { OfNext(items, vs, u, k); }
      a[vs[k] + 1] := a[vs[k] + 1] + 1;
    }
    StartNext(items, vs, 0);
    for v := 0 to nv
      invariant forall u :: 0 <= u <= v ==> a[u] == Start(items, vs, u)
      invariant forall u :: v < u <= nv ==> a[u] == |Of(items, vs, u - 1, |items|)|
    {
      StartNext(items, vs, v);
      a[v + 1] := a[v + 1] + a[v];
    }
    start := a[..];
  }

  lemma OfZero(items: seq<nat>, vs: seq<nat>, v: nat)
    requires |vs| == |items|
    ensures Of(items, vs, v, 0) == []
  {
  }

  /** The order holds, for every variant, its items among the first `k`. */
  ghost predicate Placed(items: seq<nat>, vs: seq<nat>, nv: nat, order: seq<nat>, k: nat) {
    && |vs| == |items| == |order| && k <= |items|
    && forall v :: 0 <= v < nv ==> PlacedAt(items, vs, order, v, k)
  }

  ghost predicate PlacedAt(items: seq<nat>, vs: seq<nat>, order: seq<nat>, v: nat, k: nat)
    requires |vs| == |items| && k <= |items|
  {
    var s, l := Start(items, vs, v), Of(items, vs, v, k);
    s + |l| <= |order| && order[s..s + |l|] == l
  }

  lemma PlaceFits(items: seq<nat>, vs: seq<nat>, k: nat)
    requires |vs| == |items| && k < |items|
    ensures Start(items, vs, vs[k]) + |Of(items, vs, vs[k], k)| < |items|
    ensures Start(items, vs, vs[k]) + |Of(items, vs, vs[k], k)| < Start(items, vs, vs[k])
            + |Of(items, vs, vs[k], |items|)|
  {
    hide Of, Low;
    OfNext(items, vs, vs[k], k);
    OfMono(items, vs, vs[k], k + 1, |items|);
    StartIsLow(items, vs, vs[k] + 1);
  }

  lemma PlaceOne(items: seq<nat>, vs: seq<nat>, order: seq<nat>, k: nat, v: nat)
    requires |vs| == |items| == |order| && k < |items| && PlacedAt(items, vs, order, v, k)
    ensures var at := Start(items, vs, vs[k]) + |Of(items, vs, vs[k], k)|;
            at < |order| && PlacedAt(items, vs, order[at := items[k]], v, k + 1)
  {
    hide Of, Low, Start;
    var w := vs[k];
    PlaceFits(items, vs, k);
    OfNext(items, vs, v, k);
    OfMono(items, vs, v, k, |items|);
    var at := Start(items, vs, w) + |Of(items, vs, w, k)|;
    var next, s, l := order[at := items[k]], Start(items, vs, v), Of(items, vs, v, k);
    if v == w {
      assert next[s..s + |l| + 1] == l + [items[k]];
    } else {
      if v < w { StartMono(items, vs, v, w); } else { StartMono(items, vs, w, v); }
      assert next[s..s + |l|] == order[s..s + |l|];
    }
  }

  /** One more item placed next in its variant's place. */
  lemma PlaceNext(items: seq<nat>, vs: seq<nat>, nv: nat, order: seq<nat>, k: nat)
    requires Placed(items, vs, nv, order, k) && k < |items| && vs[k] < nv
    ensures var at := Start(items, vs, vs[k]) + |Of(items, vs, vs[k], k)|;
            at < |order| && Placed(items, vs, nv, order[at := items[k]], k + 1)
  {
    hide Of, Low, Start, PlacedAt;
    var at, next := Start(items, vs, vs[k]) + |Of(items, vs, vs[k], k)|, k + 1;
    PlaceFits(items, vs, k);
    var placed := order[at := items[k]];
    forall v | 0 <= v < nv ensures PlacedAt(items, vs, placed, v, next) { PlaceOne(items, vs, order, k, v); }
  }

  /** The items of every variant, ordered, given where they start. */
  method Ordered(items: seq<nat>, vs: seq<nat>, nv: nat, start: seq<nat>) returns (order: seq<nat>)
    requires |vs| == |items| && forall k :: 0 <= k < |vs| ==> vs[k] < nv
    requires |start| == nv + 1 && forall v :: 0 <= v <= nv ==> start[v] == Start(items, vs, v)
    ensures Placed(items, vs, nv, order, |items|)
  {
    hide Of, Low, Start, PlacedAt;
    var next := start;
    order := seq(|items|, _ => 0);
    forall v | 0 <= v < nv ensures PlacedAt(items, vs, order, v, 0) && Of(items, vs, v, 0) == [] {
      NonePlaced(items, vs, order, v);
    }
    for k := 0 to |vs|
      invariant |next| == nv + 1 && Placed(items, vs, nv, order, k)
      invariant forall v :: 0 <= v < nv ==> next[v] == start[v] + |Of(items, vs, v, k)|
    {
      PlaceNext(items, vs, nv, order, k);
      forall v | 0 <= v < nv { OfNext(items, vs, v, k); }
      order := order[next[vs[k]] := items[k]];
      next := next[vs[k] := next[vs[k]] + 1];
    }
  }

  lemma NonePlaced(items: seq<nat>, vs: seq<nat>, order: seq<nat>, v: nat)
    requires |vs| == |items| == |order|
    ensures PlacedAt(items, vs, order, v, 0) && Of(items, vs, v, 0) == []
  {
    StartIsLow(items, vs, v);
  }

  lemma GroupNext(items: seq<nat>, vs: seq<nat>, order: seq<nat>, v: nat)
    requires |vs| == |items| == |order| && PlacedAt(items, vs, order, v, |items|)
    ensures var s, e := Start(items, vs, v), Start(items, vs, v + 1);
            && s <= e <= |order|
            && GroupsOf(items, vs, v + 1) == GroupsOf(items, vs, v) + if s < e then [Group(v, order[s..e])] else []
  {
    hide Of;
  }

  /** A batch by variant: all as they are where they are of one variant, otherwise a counting
      sort. The variants ascend, each with its instances in their order. */
  method ByVariant(items: seq<nat>, vs: seq<nat>, nv: nat) returns (groups: seq<Group>)
    requires |vs| == |items| && items != [] && forall k :: 0 <= k < |vs| ==> vs[k] < nv
    ensures groups == GroupsOf(items, vs, nv)
  {
    if forall k :: 0 <= k < |vs| ==> vs[k] == vs[0] {
      OneGroup(items, vs, vs[0], nv);
      return [Group(vs[0], items)];
    }
    var start := Starts(items, vs, nv);
    var order := Ordered(items, vs, nv, start);
    groups := [];
    for v := 0 to nv
      invariant groups == GroupsOf(items, vs, v)
    {
      hide Of, Start, PlacedAt, GroupsOf;
      GroupNext(items, vs, order, v);
      if start[v] < start[v + 1] { groups := groups + [Group(v, order[start[v]..start[v + 1]])]; }
    }
  }

  lemma {:induction false} OfHas(items: seq<nat>, vs: seq<nat>, v: nat, n: nat, k: nat)
    requires |vs| == |items| && n <= |items| && k < n
    ensures vs[k] == v ==> items[k] in Of(items, vs, v, n)
    decreases n
  {
    if k < n - 1 { OfHas(items, vs, v, n - 1, k); }
  }

  lemma {:induction false} OfFrom(items: seq<nat>, vs: seq<nat>, v: nat, n: nat, x: nat) returns (k: nat)
    requires |vs| == |items| && n <= |items| && x in Of(items, vs, v, n)
    ensures k < n && items[k] == x && vs[k] == v
    decreases n
  {
    if vs[n - 1] == v && items[n - 1] == x { k := n - 1; } else { k := OfFrom(items, vs, v, n - 1, x); }
  }

  ghost predicate GroupOk(items: seq<nat>, vs: seq<nat>, g: Group, nv: nat)
    requires |vs| == |items|
  { g.v < nv && g.list != [] && g.list == Of(items, vs, g.v, |items|) }

  /** The groups are of ascending variants, each its own items, none empty. */
  lemma {:induction false} GroupsAscend(items: seq<nat>, vs: seq<nat>, nv: nat)
    requires |vs| == |items|
    ensures forall j :: 0 <= j < |GroupsOf(items, vs, nv)| ==> GroupOk(items, vs, GroupsOf(items, vs, nv)[j], nv)
    ensures forall i, j :: 0 <= i < j < |GroupsOf(items, vs, nv)| ==>
            GroupsOf(items, vs, nv)[i].v < GroupsOf(items, vs, nv)[j].v
    decreases nv
  {
    hide Of;
    if nv > 0 {
      GroupsAscend(items, vs, nv - 1);
      var gs, prior, l := GroupsOf(items, vs, nv), GroupsOf(items, vs, nv - 1), Of(items, vs, nv - 1, |items|);
      assert gs == prior + if l == [] then [] else [Group(nv - 1, l)];
      forall j | 0 <= j < |gs| ensures GroupOk(items, vs, gs[j], nv) {
        if j < |prior| {
          assert gs[j] == prior[j];
          assert GroupOk(items, vs, prior[j], nv - 1);
        }
      }
      forall i, j | 0 <= i < j < |gs| ensures gs[i].v < gs[j].v {
        assert gs[i] == prior[i] && GroupOk(items, vs, prior[i], nv - 1);
        if j < |prior| { assert gs[j] == prior[j]; }
      }
    }
  }

  /** Every instance is in its variant's group. */
  lemma {:induction false} GroupOf(items: seq<nat>, vs: seq<nat>, nv: nat, k: nat) returns (j: nat)
    requires |vs| == |items| && k < |items| && vs[k] < nv
    ensures j < |GroupsOf(items, vs, nv)| && GroupsOf(items, vs, nv)[j].v == vs[k]
            && items[k] in GroupsOf(items, vs, nv)[j].list
    decreases nv
  {
    hide Of;
    OfHas(items, vs, nv - 1, |items|, k);
    if vs[k] == nv - 1 { j := |GroupsOf(items, vs, nv - 1)|; } else { j := GroupOf(items, vs, nv - 1, k); }
  }

  // --- which variant a binding runs on ---------------------------------------------------------------------

  datatype Slot = Building | Ready(v: nat)

  /** An instance's block: a state as its variant lays it out, what the variant leaves of it
      zero, and the variant's index. */
  datatype Block<S> = Block(state: S, tag: nat)

  /** What every form of a body shares: the patterns its variants decide (the full body decides
      none), and where each pattern's variant stands. */
  class Shared<P(!new), A(!new), S(!new), O> {
    const B: Body<P, A, S, O>
    const most: nat
    var decided: seq<Option<seq<bool>>>
    var index: map<seq<bool>, Slot>
    var building: seq<seq<bool>>

    ghost predicate Valid()
      reads this
    {
      && Sound(B) && |decided| > 0 && decided[0].None?
      && forall p :: p in index && index[p].Ready? ==> IndexOk(decided, p, index[p].v)
    }

    constructor (b: Body<P, A, S, O>, max: nat)
      requires Sound(b)
      ensures Valid() && B == b && decided == [None]
    {
      B, most := b, max;
      decided, index, building := [None], map[], [];
    }

    /** Whether variant `v` computes what the body does at binding `p`. */
    ghost predicate Decides(v: nat, p: P)
      reads this
    { v < |decided| && (decided[v].None? || decided[v].value == B.pattern(p)) }

    /** A variant that decides `pattern`, or the full body: only ever appended. */
    method BuildVariant(pattern: seq<bool>) returns (v: nat)
      requires Valid()
      modifies this`decided
      ensures Valid() && old(decided) <= decided && IndexOk(decided, pattern, v)
    {
      if |decided| >= most || !B.build(pattern) { return 0; }
      v := |decided|;
      decided := decided + [Some(pattern)];
    }

    /** A background build lands. */
    method Land(j: nat)
      requires Valid()
      modifies this
      ensures Valid() && old(decided) <= decided
    {
      if j >= |building| { return; }
      var pattern := building[j];
      building := building[..j] + building[j + 1..];
      var v := BuildVariant(pattern);
      index := index[pattern := Ready(v)];
    }

    /** A variant this form has that computes what the body does at binding `p`. What the form
        knows by now (`looking`, `background`, `made`) only chooses among such. */
    method Variant(p: P, forms: nat, looking: bool, background: bool, made: nat -> bool) returns (v: nat)
      requires Valid() && forms > 0
      modifies this
      ensures Valid() && old(decided) <= decided && v < forms && Decides(v, p)
    {
      if !looking { return 0; }
      var pattern := B.pattern(p);
      if pattern in index {
        if index[pattern].Building? { return 0; }
        v := index[pattern].v;
      } else if background {
        index := index[pattern := Building];
        building := building + [pattern];
        return 0;
      } else {
        v := BuildVariant(pattern);
        index := index[pattern := Ready(v)];
      }
      if v >= forms || !made(v) { v := 0; }
    }
  }

  ghost predicate IndexOk(decided: seq<Option<seq<bool>>>, p: seq<bool>, v: nat) {
    v < |decided| && (v == 0 || decided[v] == Some(p))
  }

  // --- the prolog of a batch --------------------------------------------------------------------------------

  /** Variant `v` computes what the body does at `p`. */
  ghost predicate Fits<P, A, S, O>(B: Body<P, A, S, O>, decided: seq<Option<seq<bool>>>, v: nat, p: P) {
    v < |decided| && (decided[v].None? || decided[v].value == B.pattern(p))
  }

  /** The block is one a variant deciding `p` left at `p`. */
  ghost predicate BlockOk<P, A, S, O>(B: Body<P, A, S, O>, decided: seq<Option<seq<bool>>>, b: Block<S>, p: P,
                                      forms: nat) {
    b.tag < forms && Fits(B, decided, b.tag, p) && b.state == B.state(decided[b.tag], p)
  }

  /** Instances that share a row are of one binding. */
  ghost predicate RowsShared<P>(at: Instances, pure: seq<P>) {
    forall g, h :: g in at.list && h in at.list && at.Row(g) == at.Row(h) && g < |pure| && h < |pure| ==>
        pure[g] == pure[h]
  }

  ghost predicate Among(list: seq<nat>, all: seq<nat>) { forall g :: g in list ==> g in all }

  lemma ListOk(at: Instances, n: nat, height: nat)
    requires at.Ok(n, height)
    ensures forall g :: g in at.list ==> g < n && at.Row(g) < height
  {
    forall g | g in at.list ensures g < n && at.Row(g) < height {
      var k :| 0 <= k < |at.list| && at.list[k] == g;
    }
  }

  /** The prologs of the instances of variant `v`. */
  method PrologGroup<P, A, S, O>(B: Body<P, A, S, O>, decided: seq<Option<seq<bool>>>, v: nat, pure: seq<P>,
                                 rows: array<Block<S>>, at: Instances, list: seq<nat>, ghost forms: nat)
    requires at.Ok(|pure|, rows.Length) && RowsShared(at, pure) && Among(list, at.list) && v < |decided| && v < forms
    requires forall g :: g in list ==> g < |pure| && Fits(B, decided, v, pure[g])
    modifies rows
    ensures forall g :: g in at.list ==> g < |pure| && at.Row(g) < rows.Length
    ensures forall g :: g in list ==> BlockOk(B, decided, rows[at.Row(g)], pure[g], forms)
    ensures forall g :: g in at.list ==>
              rows[at.Row(g)] == old(rows[at.Row(g)]) || BlockOk(B, decided, rows[at.Row(g)], pure[g], forms)
    ensures forall r :: 0 <= r < rows.Length && (forall g :: g in at.list ==> at.Row(g) != r) ==>
            rows[r] == old(rows[r])
  {
    hide Instances.Ok;
    ListOk(at, |pure|, rows.Length);
    for k := 0 to |list|
      invariant forall g :: g in list[..k] ==> BlockOk(B, decided, rows[at.Row(g)], pure[g], forms)
      invariant forall g :: g in at.list ==>
                  rows[at.Row(g)] == old(rows[at.Row(g)]) || BlockOk(B, decided, rows[at.Row(g)], pure[g], forms)
      invariant forall r :: 0 <= r < rows.Length && (forall g :: g in at.list ==> at.Row(g) != r) ==>
                rows[r] == old(rows[r])
    {
      var g := list[k];
      assert g in list && g in at.list;
      rows[at.Row(g)] := Block(B.state(decided[v], pure[g]), v);
    }
  }

  /** What a prolog batch is told at each instance: the builds that land before it, and whether
      the selects are found, builds go elsewhere and a variant's form is made by then. */
  datatype Moment = Moment(lands: seq<nat>, looking: bool, background: bool, made: nat -> bool)

  /** The variant of each instance, builds landing in between. */
  method Choose<P(!new), A(!new), S(!new), O>(shared: Shared<P, A, S, O>, pure: seq<P>, list: seq<nat>, forms: nat,
                                              moments: nat -> Moment) returns (vs: seq<nat>)
    requires shared.Valid() && forms > 0 && forall g :: g in list ==> g < |pure|
    modifies shared
    ensures shared.Valid() && old(shared.decided) <= shared.decided && |vs| == |list|
    ensures forall k :: 0 <= k < |list| ==>
              vs[k] < forms && list[k] < |pure| && Fits(shared.B, shared.decided, vs[k], pure[list[k]])
  {
    vs := [];
    for k := 0 to |list|
      invariant shared.Valid() && old(shared.decided) <= shared.decided && |vs| == k
      invariant forall i :: 0 <= i < k ==>
                  vs[i] < forms && list[i] < |pure| && Fits(shared.B, shared.decided, vs[i], pure[list[i]])
    {
      assert list[k] in list;
      var m := moments(k);
      for j := 0 to |m.lands|
        invariant shared.Valid() && old(shared.decided) <= shared.decided
        invariant forall i :: 0 <= i < k ==>
                    vs[i] < forms && list[i] < |pure| && Fits(shared.B, shared.decided, vs[i], pure[list[i]])
      {
        shared.Land(m.lands[j]);
      }
      var v := shared.Variant(pure[list[k]], forms, m.looking, m.background, m.made);
      vs := vs + [v];
    }
  }

  lemma GroupFits<P, A, S, O>(B: Body<P, A, S, O>, decided: seq<Option<seq<bool>>>, pure: seq<P>, list: seq<nat>,
                              vs: seq<nat>, g: Group, nv: nat)
    requires |vs| == |list| && GroupOk(list, vs, g, nv)
    requires forall k :: 0 <= k < |list| ==> list[k] < |pure| && Fits(B, decided, vs[k], pure[list[k]])
    ensures Among(g.list, list) && g.v < |decided|
            && forall x :: x in g.list ==> x < |pure| && Fits(B, decided, g.v, pure[x])
  {
    forall x | x in g.list ensures x in list && x < |pure| && Fits(B, decided, g.v, pure[x]) {
      var k := OfFrom(list, vs, g.v, |list|, x);
    }
    assert g.list[0] in g.list;
  }

  /** The prologs of a batch, each instance on the variant its binding decides when it is asked:
      its block is that variant's at its binding. */
  method PrologBatch<P(!new), A(!new), S(!new), O>(shared: Shared<P, A, S, O>, pure: seq<P>, rows: array<Block<S>>,
                                                   at: Instances, forms: nat,
                                                   moments: nat -> Moment)
    requires shared.Valid() && forms > 0 && at.Ok(|pure|, rows.Length) && RowsShared(at, pure)
    modifies shared, rows
    ensures shared.Valid() && old(shared.decided) <= shared.decided
    ensures forall g :: g in at.list ==>
              g < |pure| && at.Row(g) < rows.Length
                  && BlockOk(shared.B, shared.decided, rows[at.Row(g)], pure[g], forms)
    ensures forall r :: 0 <= r < rows.Length && (forall g :: g in at.list ==> at.Row(g) != r) ==>
            rows[r] == old(rows[r])
  {
    hide Instances.Ok, RowsShared, BlockOk, Fits, GroupsOf;
    ListOk(at, |pure|, rows.Length);
    if at.list == [] { return; }
    var vs := Choose(shared, pure, at.list, forms, moments);
    var groups := ByVariant(at.list, vs, forms);
    PrologGroups(shared.B, shared.decided, pure, rows, at, forms, vs, groups);
  }

  /** The prologs, variant by variant. */
  method PrologGroups<P, A, S, O>(B: Body<P, A, S, O>, d: seq<Option<seq<bool>>>, pure: seq<P>, rows: array<Block<S>>,
                                  at: Instances, ghost forms: nat,
                                  ghost vs: seq<nat>, groups: seq<Group>)
    requires at.Ok(|pure|, rows.Length) && RowsShared(at, pure) && |vs| == |at.list|
             && groups == GroupsOf(at.list, vs, forms)
    requires forall k :: 0 <= k < |vs| ==> vs[k] < forms && at.list[k] < |pure| && Fits(B, d, vs[k], pure[at.list[k]])
    modifies rows
    ensures forall g :: g in at.list ==>
              g < |pure| && at.Row(g) < rows.Length && BlockOk(B, d, rows[at.Row(g)], pure[g], forms)
    ensures forall r :: 0 <= r < rows.Length && (forall g :: g in at.list ==> at.Row(g) != r) ==>
            rows[r] == old(rows[r])
  {
    hide Instances.Ok, RowsShared, BlockOk, Fits, GroupsOf, Of;
    ListOk(at, |pure|, rows.Length);
    GroupsAscend(at.list, vs, forms);
    for j := 0 to |groups|
      invariant forall i, g :: 0 <= i < j && g in groups[i].list ==>
                g in at.list && BlockOk(B, d, rows[at.Row(g)], pure[g], forms)
      invariant forall r :: 0 <= r < rows.Length && (forall g :: g in at.list ==> at.Row(g) != r) ==>
                rows[r] == old(rows[r])
    {
      assert GroupOk(at.list, vs, groups[j], forms);
      GroupFits(B, d, pure, at.list, vs, groups[j], forms);
      PrologGroup(B, d, groups[j].v, pure, rows, at, groups[j].list, forms);
    }
    forall g | g in at.list ensures BlockOk(B, d, rows[at.Row(g)], pure[g], forms) {
      var k :| 0 <= k < |at.list| && at.list[k] == g;
      var j := GroupOf(at.list, vs, forms, k);
    }
  }

  // --- the main phase of a batch ------------------------------------------------------------------------------

  /** One run of an instance: the variant's main phase, or the shortened one. */
  datatype Ran = Ran(g: nat, v: nat, short: bool)

  /** The guards of the shortened main phase that fail for instance `g`. */
  function Failing<P, A, S, O>(B: Body<P, A, S, O>, d: Option<seq<bool>>, ver: nat, rows: seq<Block<S>>, args: seq<A>,
                               at: Instances, g: nat): nat
    requires g < |args| && at.Row(g) < |rows|
  { B.short(d, ver, rows[at.Row(g)].state, args[g]).1 }

  /** The instances among the first `n` whose guards fail. */
  function Failed<P, A, S, O>(B: Body<P, A, S, O>, d: Option<seq<bool>>, ver: nat, rows: seq<Block<S>>, args: seq<A>,
                              at: Instances, list: seq<nat>, n: nat): (r: seq<nat>)
    requires n <= |list| && forall g :: g in list ==> g < |args| && at.Row(g) < |rows|
    ensures forall g :: g in r <==> g in list && g in list[..n] && Failing(B, d, ver, rows, args, at, g) != 0
    ensures Distinct(list) ==> Distinct(r)
  {
    if n == 0 then []
    else
      var rest := Failed(B, d, ver, rows, args, at, list, n - 1);
      assert list[..n] == list[..n - 1] + [list[n - 1]] && list[n - 1] in list;
      if Failing(B, d, ver, rows, args, at, list[n - 1]) != 0 then rest + [list[n - 1]] else rest
  }

  function RunsOf(list: seq<nat>, v: nat, short: bool): (r: seq<Ran>)
    ensures |r| == |list| && forall i :: 0 <= i < |list| ==> r[i] == Ran(list[i], v, short)
  { seq(|list|, i requires 0 <= i < |list| => Ran(list[i], v, short)) }

  /** What an instance comes to on its variant. */
  function MainOf<P, A, S, O>(B: Body<P, A, S, O>, decided: seq<Option<seq<bool>>>, b: Block<S>, a: A): O
    requires b.tag < |decided|
  { B.main(decided[b.tag], b.state, a) }

  /** The variant's own main phase for the instances listed. */
  method MainWhole<P, A, S, O>(B: Body<P, A, S, O>, d: Option<seq<bool>>, v: nat, args: seq<A>, rows: seq<Block<S>>,
                               out: array<O>, at: Instances, list: seq<nat>)
    returns (ghost log: seq<Ran>)
    requires forall g :: g in list ==> g < |args| && g < out.Length && at.Row(g) < |rows|
    modifies out
    ensures log == RunsOf(list, v, false)
    ensures forall g :: 0 <= g < out.Length ==>
              out[g] == if g in list then B.main(d, rows[at.Row(g)].state, args[g]) else old(out[g])
  {
    log := [];
    for k := 0 to |list|
      invariant log == RunsOf(list[..k], v, false)
      invariant forall g :: 0 <= g < out.Length ==>
                  out[g] == if g in list[..k] then B.main(d, rows[at.Row(g)].state, args[g]) else old(out[g])
    {
      var g := list[k];
      assert g in list;
      assert list[..k + 1] == list[..k] + [g];
      out[g] := B.main(d, rows[at.Row(g)].state, args[g]);
      log := log + [Ran(g, v, false)];
    }
    assert list[..|list|] == list;
  }

  lemma FailedNext<P, A, S, O>(B: Body<P, A, S, O>, d: Option<seq<bool>>, ver: nat, rows: seq<Block<S>>, args: seq<A>,
                               at: Instances, list: seq<nat>, n: nat)
    requires n < |list| && forall g :: g in list ==> g < |args| && at.Row(g) < |rows|
    ensures list[n] in list
    ensures Failed(B, d, ver, rows, args, at, list, n + 1) ==
            Failed(B, d, ver, rows, args, at, list, n) + if Failing(B, d, ver, rows, args, at, list[n]) != 0
                then [list[n]] else []
  {
  }

  /** The shortened main phase for the instances listed: those no guard of which fails come to
      what the variant does, the others are left as they were. */
  method MainShort<P(!new), A(!new), S(!new), O>(B: Body<P, A, S, O>, d: Option<seq<bool>>, args: seq<A>,
                                                 rows: seq<Block<S>>, out: array<O>, at: Instances,
                                                 list: seq<nat>, ver: nat)
    returns (failed: seq<nat>)
    requires Sound(B) && forall g :: g in list ==> g < |args| && g < out.Length && at.Row(g) < |rows|
    modifies out
    ensures failed == Failed(B, d, ver, rows, args, at, list, |list|)
    ensures forall g :: 0 <= g < out.Length ==>
              out[g] == if g in list && Failing(B, d, ver, rows, args, at, g) == 0
                  then B.main(d, rows[at.Row(g)].state, args[g]) else old(out[g])
  {
    hide Failed;
    failed := [];
    FailedNone(B, d, ver, rows, args, at, list);
    for k := 0 to |list|
      invariant failed == Failed(B, d, ver, rows, args, at, list, k)
      invariant forall g :: 0 <= g < out.Length ==>
                  out[g] == if g in list && g in list[..k] && Failing(B, d, ver, rows, args, at, g) == 0
                            then B.main(d, rows[at.Row(g)].state, args[g]) else old(out[g])
    {
      var g := list[k];
      FailedNext(B, d, ver, rows, args, at, list, k);
      assert list[..k + 1] == list[..k] + [g];
      var r := B.short(d, ver, rows[at.Row(g)].state, args[g]);
      assert ShortSound(B, d, ver, rows[at.Row(g)].state, args[g]);
      if r.1 == 0 { out[g] := r.0; } else { failed := failed + [g]; }
    }
    assert list[..|list|] == list;
  }

  lemma FailedNone<P, A, S, O>(B: Body<P, A, S, O>, d: Option<seq<bool>>, ver: nat, rows: seq<Block<S>>, args: seq<A>,
                               at: Instances, list: seq<nat>)
    requires forall g :: g in list ==> g < |args| && at.Row(g) < |rows|
    ensures Failed(B, d, ver, rows, args, at, list, 0) == []
  {
  }

  /** Every instance listed comes to `MainOf` its block, by the shortened phase where its guards
      hold and by the variant's own where they fail. */
  method MainVariant<P(!new), A(!new), S(!new), O>(B: Body<P, A, S, O>, d: Option<seq<bool>>, v: nat, args: seq<A>,
                                                   rows: seq<Block<S>>, out: array<O>, at: Instances,
                                                   list: seq<nat>, form: Option<nat>)
    returns (ghost log: seq<Ran>)
    requires Sound(B) && forall g :: g in list ==> g < |args| && g < out.Length && at.Row(g) < |rows|
    modifies out
    ensures forall g :: 0 <= g < out.Length ==>
              out[g] == if g in list then B.main(d, rows[at.Row(g)].state, args[g]) else old(out[g])
    ensures log == if form.None? then RunsOf(list, v, false)
                   else RunsOf(list, v, true) + RunsOf(Failed(B, d, form.value, rows, args, at, list, |list|), v, false)
  {
    hide Sound, RunsOf;
    if form.None? {
      log := MainWhole(B, d, v, args, rows, out, at, list);
      return;
    }
    var failed := MainShort(B, d, args, rows, out, at, list, form.value);
    assert list[..|list|] == list;
    log := RunsOf(list, v, true);
    if failed != [] {
      ghost var again := MainWhole(B, d, v, args, rows, out, at, failed);
      log := log + again;
    } else {
      assert RunsOf(failed, v, false) == [] && forall g :: g in list ==> g !in failed;
    }
  }

  /** The runs of the first `n` groups, one variant after another. */
  function LogOf<P, A, S, O>(B: Body<P, A, S, O>, decided: seq<Option<seq<bool>>>, args: seq<A>, rows: seq<Block<S>>,
                             at: Instances,
                             groups: seq<Group>, form: nat -> Option<nat>, n: nat): seq<Ran>
    requires n <= |groups|
    requires forall j :: 0 <= j < |groups| ==> groups[j].v < |decided| && Reads(args, rows, at, groups[j].list)
  {
    if n == 0 then []
    else
      var g := groups[n - 1];
      LogOf(B, decided, args, rows, at, groups, form, n - 1) + GroupLog(B, decided[g.v], args, rows, at, g, form(g.v))
  }

  ghost predicate Reads<A, S>(args: seq<A>, rows: seq<Block<S>>, at: Instances, list: seq<nat>) {
    forall g :: g in list ==> g < |args| && at.Row(g) < |rows|
  }

  function GroupLog<P, A, S, O>(B: Body<P, A, S, O>, d: Option<seq<bool>>, args: seq<A>, rows: seq<Block<S>>,
                                at: Instances, g: Group, form: Option<nat>): seq<Ran>
    requires Reads(args, rows, at, g.list)
  {
    if form.None? then RunsOf(g.list, g.v, false)
    else RunsOf(g.list, g.v, true) + RunsOf(Failed(B, d, form.value, rows, args, at, g.list, |g.list|), g.v, false)
  }

  /** The tags of a batch's blocks. */
  function Tags<S>(rows: seq<Block<S>>, at: Instances): (vs: seq<nat>)
    requires forall g :: g in at.list ==> at.Row(g) < |rows|
    ensures |vs| == |at.list| && forall k :: 0 <= k < |vs| ==>
            at.list[k] in at.list && vs[k] == rows[at.Row(at.list[k])].tag
  {
    seq(|at.list|, k requires 0 <= k < |at.list| => assert at.list[k] in at.list; rows[at.Row(at.list[k])].tag)
  }

  /** The main phases of a batch, each instance on the variant its block names: what that
      variant does, every instance, and the body's outputs where the block is of the binding
      of its arguments. The log says what ran. */
  method MainBatch<P(!new), A(!new), S(!new), O>(B: Body<P, A, S, O>, decided: seq<Option<seq<bool>>>, args: seq<A>,
                                                 rows: seq<Block<S>>, out: array<O>,
                                                 at: Instances, forms: nat, form: nat -> Option<nat>)
    returns (ghost log: seq<Ran>)
    requires Sound(B) && at.Ok(|args|, |rows|)
             && (forall g :: g in at.list ==> g < |args| && g < out.Length && at.Row(g) < |rows|)
    requires forall g :: g in at.list ==> rows[at.Row(g)].tag < forms && rows[at.Row(g)].tag < |decided|
    modifies out
    ensures forall g :: 0 <= g < out.Length ==>
              out[g] == if g in at.list then MainOf(B, decided, rows[at.Row(g)], args[g]) else old(out[g])
    ensures forall g :: g in at.list && BlockOk(B, decided, rows[at.Row(g)], B.pure(args[g]), forms) ==>
            out[g] == B.out(args[g])
    ensures var groups := GroupsOf(at.list, Tags(rows, at), forms);
            && (forall j :: 0 <= j < |groups| ==> groups[j].v < |decided| && Reads(args, rows, at, groups[j].list))
            && log == LogOf(B, decided, args, rows, at, groups, form, |groups|)
  {
    hide Instances.Ok, GroupsOf, Of, GroupLog, MainOf, Sound, Fits;
    var vs := Tags(rows, at);
    var groups: seq<Group> := [];
    if at.list != [] { groups := ByVariant(at.list, vs, forms); } else { NoGroups(vs, forms); }
    GroupsAscend(at.list, vs, forms);
    forall j | 0 <= j < |groups| ensures GroupRuns(decided, args, rows, at, groups[j], forms) {
      assert GroupOk(at.list, vs, groups[j], forms);
      GroupTags(decided, args, rows, at, vs, groups[j], forms);
    }
    log := MainGroups(B, decided, args, rows, out, at, forms, form, groups);
    forall g | g in at.list ensures out[g] == MainOf(B, decided, rows[at.Row(g)], args[g]) {
      var k :| 0 <= k < |at.list| && at.list[k] == g;
      var j := GroupOf(at.list, vs, forms, k);
      assert CameTo(B, decided, args, rows, at, out[..], groups[j].list);
    }
    forall g | g in at.list && BlockOk(B, decided, rows[at.Row(g)], B.pure(args[g]), forms)
      ensures out[g] == B.out(args[g]) {
      BlockComesTo(B, decided, rows[at.Row(g)], args[g], forms);
    }
  }

  lemma BlockComesTo<P(!new), A(!new), S(!new), O>(B: Body<P, A, S, O>, decided: seq<Option<seq<bool>>>, b: Block<S>,
                                                   a: A, forms: nat)
    requires Sound(B) && BlockOk(B, decided, b, B.pure(a), forms)
    ensures b.tag < |decided| && MainOf(B, decided, b, a) == B.out(a)
  {
    assert DecidedSound(B, decided[b.tag], a);
  }

  /** The instances listed came to what their variants do. */
  ghost predicate CameTo<P, A, S, O>(B: Body<P, A, S, O>, decided: seq<Option<seq<bool>>>, args: seq<A>,
                                     rows: seq<Block<S>>, at: Instances,
                                     out: seq<O>, list: seq<nat>)
  {
    forall g :: g in list ==>
      && g in at.list && g < |args| && g < |out| && at.Row(g) < |rows| && rows[at.Row(g)].tag < |decided|
      && out[g] == MainOf(B, decided, rows[at.Row(g)], args[g])
  }

  /** The instances of one variant run, they came to what it does and the others stay. */
  lemma CameNext<P, A, S, O>(B: Body<P, A, S, O>, decided: seq<Option<seq<bool>>>, args: seq<A>, rows: seq<Block<S>>,
                             at: Instances,
                             was: seq<O>, out: seq<O>, x: Group, forms: nat)
    requires GroupRuns(decided, args, rows, at, x, forms) && |out| == |was| && forall g :: g in at.list ==> g < |out|
    requires forall g :: 0 <= g < |out| ==>
             out[g] == if g in x.list then B.main(decided[x.v], rows[at.Row(g)].state, args[g]) else was[g]
    ensures CameTo(B, decided, args, rows, at, out, x.list)
    ensures forall list :: CameTo(B, decided, args, rows, at, was, list) ==>
            CameTo(B, decided, args, rows, at, out, list)
  {
  }

  /** The main phases, variant by variant. */
  method MainGroups<P(!new), A(!new), S(!new), O>(B: Body<P, A, S, O>, decided: seq<Option<seq<bool>>>, args: seq<A>,
                                                  rows: seq<Block<S>>, out: array<O>,
                                                  at: Instances, ghost forms: nat, form: nat -> Option<nat>,
                                                      groups: seq<Group>)
    returns (ghost log: seq<Ran>)
    requires Sound(B) && forall g :: g in at.list ==>
               g < |args| && g < out.Length && at.Row(g) < |rows| && rows[at.Row(g)].tag < |decided|
    requires forall j :: 0 <= j < |groups| ==> GroupRuns(decided, args, rows, at, groups[j], forms)
    modifies out
    ensures forall j :: 0 <= j < |groups| ==> CameTo(B, decided, args, rows, at, out[..], groups[j].list)
    ensures forall g :: 0 <= g < out.Length && g !in at.list ==> out[g] == old(out[g])
    ensures (forall j :: 0 <= j < |groups| ==> groups[j].v < |decided| && Reads(args, rows, at, groups[j].list))
    ensures log == LogOf(B, decided, args, rows, at, groups, form, |groups|)
  {
    hide GroupLog, Sound, CameTo, MainOf, GroupRuns, Reads, LogOf;
    forall j | 0 <= j < |groups| ensures groups[j].v < |decided| && Reads(args, rows, at, groups[j].list) {
      RunsReads(decided, args, rows, at, groups[j], forms);
    }
    log := [];
    LogNone(B, decided, args, rows, at, groups, form);
    for j := 0 to |groups|
      invariant log == LogOf(B, decided, args, rows, at, groups, form, j)
      invariant forall i :: 0 <= i < j ==> CameTo(B, decided, args, rows, at, out[..], groups[i].list)
      invariant forall g :: 0 <= g < out.Length && g !in at.list ==> out[g] == old(out[g])
    {
      ghost var more := MainGroup(B, decided, args, rows, out, at, forms, form, groups[j]);
      LogNext(B, decided, args, rows, at, groups, form, j);
      log := log + more;
    }
  }

  /** The main phases of one variant's instances. */
  method MainGroup<P(!new), A(!new), S(!new), O>(B: Body<P, A, S, O>, decided: seq<Option<seq<bool>>>, args: seq<A>,
                                                 rows: seq<Block<S>>, out: array<O>,
                                                 at: Instances, ghost forms: nat, form: nat -> Option<nat>, x: Group)
    returns (ghost log: seq<Ran>)
    requires Sound(B) && forall g :: g in at.list ==>
               g < |args| && g < out.Length && at.Row(g) < |rows| && rows[at.Row(g)].tag < |decided|
    requires GroupRuns(decided, args, rows, at, x, forms)
    modifies out
    ensures CameTo(B, decided, args, rows, at, out[..], x.list)
    ensures forall list :: old(CameTo(B, decided, args, rows, at, out[..], list)) ==>
            CameTo(B, decided, args, rows, at, out[..], list)
    ensures forall g :: 0 <= g < out.Length && g !in at.list ==> out[g] == old(out[g])
    ensures x.v < |decided| && Reads(args, rows, at, x.list)
            && log == GroupLog(B, decided[x.v], args, rows, at, x, form(x.v))
  {
    hide GroupLog, Sound, CameTo, RunsOf, Failed;
    ghost var was := out[..];
    log := MainVariant(B, decided[x.v], x.v, args, rows, out, at, x.list, form(x.v));
    CameNext(B, decided, args, rows, at, was, out[..], x, forms);
    GroupLogIs(B, decided[x.v], args, rows, at, x, form(x.v));
  }

  lemma RunsReads<A, S>(decided: seq<Option<seq<bool>>>, args: seq<A>, rows: seq<Block<S>>, at: Instances, g: Group,
                        forms: nat)
    requires GroupRuns(decided, args, rows, at, g, forms)
    ensures g.v < |decided| && Reads(args, rows, at, g.list)
  {
  }

  lemma LogNone<P, A, S, O>(B: Body<P, A, S, O>, decided: seq<Option<seq<bool>>>, args: seq<A>, rows: seq<Block<S>>,
                            at: Instances,
                            groups: seq<Group>, form: nat -> Option<nat>)
    requires forall j :: 0 <= j < |groups| ==> groups[j].v < |decided| && Reads(args, rows, at, groups[j].list)
    ensures LogOf(B, decided, args, rows, at, groups, form, 0) == []
  {
  }

  lemma LogNext<P, A, S, O>(B: Body<P, A, S, O>, decided: seq<Option<seq<bool>>>, args: seq<A>, rows: seq<Block<S>>,
                            at: Instances,
                            groups: seq<Group>, form: nat -> Option<nat>, n: nat)
    requires n < |groups| && forall j :: 0 <= j < |groups| ==>
             groups[j].v < |decided| && Reads(args, rows, at, groups[j].list)
    ensures LogOf(B, decided, args, rows, at, groups, form, n + 1) ==
            LogOf(B, decided, args, rows, at, groups, form, n) +
            GroupLog(B, decided[groups[n].v], args, rows, at, groups[n], form(groups[n].v))
  {
  }

  lemma GroupLogIs<P, A, S, O>(B: Body<P, A, S, O>, d: Option<seq<bool>>, args: seq<A>, rows: seq<Block<S>>,
                               at: Instances, g: Group, form: Option<nat>)
    requires Reads(args, rows, at, g.list)
    ensures GroupLog(B, d, args, rows, at, g, form) ==
            if form.None? then RunsOf(g.list, g.v, false)
            else RunsOf(g.list, g.v, true) + RunsOf(Failed(B, d, form.value, rows, args, at, g.list, |g.list|), g.v,
                                                    false)
  {
  }

  lemma {:induction false} NoGroups(vs: seq<nat>, nv: nat)
    requires vs == []
    ensures GroupsOf([], vs, nv) == []
    decreases nv
  {
    if nv > 0 { NoGroups(vs, nv - 1); }
  }

  /** A group's instances are the batch's, and their blocks name its variant. */
  ghost predicate GroupRuns<A, S>(decided: seq<Option<seq<bool>>>, args: seq<A>, rows: seq<Block<S>>, at: Instances,
                                  g: Group, forms: nat) {
    && g.v < |decided| && g.v < forms && Reads(args, rows, at, g.list)
    && forall x :: x in g.list ==> x in at.list && at.Row(x) < |rows| && rows[at.Row(x)].tag == g.v
  }

  lemma GroupTags<A, S>(decided: seq<Option<seq<bool>>>, args: seq<A>, rows: seq<Block<S>>, at: Instances,
                        vs: seq<nat>, g: Group, forms: nat)
    requires (forall g :: g in at.list ==> g < |args| && at.Row(g) < |rows| && rows[at.Row(g)].tag < |decided|)
             && vs == Tags(rows, at)
    requires GroupOk(at.list, vs, g, forms)
    ensures GroupRuns(decided, args, rows, at, g, forms)
  {
    forall x | x in g.list ensures x in at.list && at.Row(x) < |rows| && rows[at.Row(x)].tag == g.v {
      var k := OfFrom(at.list, vs, g.v, |at.list|, x);
    }
    assert g.list[0] in g.list;
  }

  // --- what ran ------------------------------------------------------------------------------------------------

  /** Instance `g` of variant `v` ran this way: once on the shortened main phase where there is
      one, on the variant's own where there is none or a guard failed. */
  ghost predicate Runs<P, A, S, O>(B: Body<P, A, S, O>, decided: seq<Option<seq<bool>>>, args: seq<A>,
                                   rows: seq<Block<S>>, at: Instances,
                                   form: nat -> Option<nat>, r: Ran)
  {
    && r.g in at.list && r.g < |args| && at.Row(r.g) < |rows| && r.v == rows[at.Row(r.g)].tag && r.v < |decided|
    && if r.short then form(r.v).Some?
       else form(r.v).None? || Failing(B, decided[r.v], form(r.v).value, rows, args, at, r.g) != 0
  }

  lemma {:induction false} OfDistinct(items: seq<nat>, vs: seq<nat>, v: nat, n: nat)
    requires |vs| == |items| && n <= |items| && Distinct(items)
    ensures Distinct(Of(items, vs, v, n))
    decreases n
  {
    if n > 0 {
      OfDistinct(items, vs, v, n - 1);
      var l := Of(items, vs, v, n - 1);
      if vs[n - 1] == v {
        forall i | 0 <= i < |l| ensures l[i] != items[n - 1] {
          assert l[i] in l;
          var k := OfFrom(items, vs, v, n - 1, l[i]);
        }
      }
    }
  }

  lemma GroupRan<P, A, S, O>(B: Body<P, A, S, O>, decided: seq<Option<seq<bool>>>, args: seq<A>, rows: seq<Block<S>>,
                             at: Instances, g: Group,
                             form: nat -> Option<nat>, forms: nat)
    requires GroupRuns(decided, args, rows, at, g, forms) && Distinct(g.list)
    ensures var log := GroupLog(B, decided[g.v], args, rows, at, g, form(g.v));
            Distinct(log) && forall r :: r in log <==>
              r.v == g.v && r.g in g.list && Runs(B, decided, args, rows, at, form, r)
  {
    var log, f := GroupLog(B, decided[g.v], args, rows, at, g, form(g.v)), form(g.v);
    if f.Some? {
      var a, again := RunsOf(g.list, g.v, true), Failed(B, decided[g.v], f.value, rows, args, at, g.list, |g.list|);
      assert g.list[..|g.list|] == g.list;
      assert log == a + RunsOf(again, g.v, false);
      forall r ensures r in log <==> r.v == g.v && r.g in g.list && Runs(B, decided, args, rows, at, form, r) {
        RunsHas(g.list, g.v, true, r);
        RunsHas(again, g.v, false, r);
      }
    } else {
      assert log == RunsOf(g.list, g.v, false);
      forall r ensures r in log <==> r.v == g.v && r.g in g.list && Runs(B, decided, args, rows, at, form, r) {
        RunsHas(g.list, g.v, false, r);
      }
    }
  }

  lemma RunsHas(list: seq<nat>, v: nat, short: bool, r: Ran)
    ensures r in RunsOf(list, v, short) <==> r.v == v && r.short == short && r.g in list
  {
    if r.v == v && r.short == short && r.g in list {
      var i :| 0 <= i < |list| && list[i] == r.g;
      assert RunsOf(list, v, short)[i] == r;
    }
  }

  /** The log of the first groups: no run twice, and exactly the runs of their variants'
      instances. */
  lemma {:induction false} LogRan<P, A, S, O>(B: Body<P, A, S, O>, decided: seq<Option<seq<bool>>>, args: seq<A>,
                                              rows: seq<Block<S>>, at: Instances,
                                              groups: seq<Group>, form: nat -> Option<nat>, forms: nat, n: nat)
    requires n <= |groups|
             && (forall j :: 0 <= j < |groups| ==>
               GroupRuns(decided, args, rows, at, groups[j], forms) && Distinct(groups[j].list))
    requires forall i, j :: 0 <= i < j < |groups| ==> groups[i].v < groups[j].v
    ensures forall j :: 0 <= j < |groups| ==> groups[j].v < |decided| && Reads(args, rows, at, groups[j].list)
    ensures var log := LogOf(B, decided, args, rows, at, groups, form, n);
            Distinct(log) && forall r :: r in log <==>
              Runs(B, decided, args, rows, at, form, r) && InGroups(groups, n, r)
    decreases n
  {
    hide GroupLog, Runs;
    if n > 0 {
      LogRan(B, decided, args, rows, at, groups, form, forms, n - 1);
      var g := groups[n - 1];
      assert GroupRuns(decided, args, rows, at, g, forms);
      GroupRan(B, decided, args, rows, at, g, form, forms);
      var before, more := LogOf(B, decided, args, rows, at, groups, form, n - 1),
          GroupLog(B, decided[g.v], args, rows, at, g, form(g.v));
      forall i, j | 0 <= i < |before| && 0 <= j < |more| ensures before[i] != more[j] {
        assert before[i] in before && more[j] in more;
        var x :| 0 <= x < n - 1 && groups[x].v == before[i].v && before[i].g in groups[x].list;
      }
      JoinDistinct(before, more);
      forall r ensures r in before + more <==> Runs(B, decided, args, rows, at, form, r) && InGroups(groups, n, r) {}
    }
  }

  ghost predicate InGroups(groups: seq<Group>, n: nat, r: Ran)
    requires n <= |groups|
  { exists j :: 0 <= j < n && groups[j].v == r.v && r.g in groups[j].list }

  lemma JoinDistinct<T>(a: seq<T>, b: seq<T>)
    requires Distinct(a) && Distinct(b) && forall i, j :: 0 <= i < |a| && 0 <= j < |b| ==> a[i] != b[j]
    ensures Distinct(a + b)
  {
  }

  /** In a batch of distinct instances every run happens once, and exactly these: each instance
      on the variant its block names, shortened where there is a shortened form, whole where
      there is none or where its count of failing guards is not zero. */
  lemma BatchRan<P, A, S, O>(B: Body<P, A, S, O>, decided: seq<Option<seq<bool>>>, args: seq<A>, rows: seq<Block<S>>,
                             at: Instances,
                             form: nat -> Option<nat>, forms: nat)
    requires Distinct(at.list)
    requires forall g :: g in at.list ==>
               g < |args| && at.Row(g) < |rows| && rows[at.Row(g)].tag < forms && rows[at.Row(g)].tag < |decided|
    ensures var groups := GroupsOf(at.list, Tags(rows, at), forms);
            && (forall j :: 0 <= j < |groups| ==> groups[j].v < |decided| && Reads(args, rows, at, groups[j].list))
            && var log := LogOf(B, decided, args, rows, at, groups, form, |groups|);
               Distinct(log) && forall r :: r in log <==> Runs(B, decided, args, rows, at, form, r)
  {
    hide Of, GroupsOf, LogOf;
    var vs := Tags(rows, at);
    var groups := GroupsOf(at.list, vs, forms);
    GroupsAscend(at.list, vs, forms);
    forall j | 0 <= j < |groups| ensures GroupRuns(decided, args, rows, at, groups[j], forms)
        && Distinct(groups[j].list) {
      assert GroupOk(at.list, vs, groups[j], forms);
      GroupTags(decided, args, rows, at, vs, groups[j], forms);
      OfDistinct(at.list, vs, groups[j].v, |at.list|);
    }
    LogRan(B, decided, args, rows, at, groups, form, forms, |groups|);
    forall r | Runs(B, decided, args, rows, at, form, r) ensures InGroups(groups, |groups|, r) {
      var k :| 0 <= k < |at.list| && at.list[k] == r.g;
      var j := GroupOf(at.list, vs, forms, k);
    }
  }

  /** What goes on between the phases: a background build lands, or another caller asks for the
      variant of a binding of its own. */
  datatype Act<P> = Lands(job: nat) | Asks(p: P, forms: nat, m: Moment)

  method Meanwhile<P(!new), A(!new), S(!new), O>(shared: Shared<P, A, S, O>, acts: seq<Act<P>>)
    requires shared.Valid()
    modifies shared
    ensures shared.Valid() && old(shared.decided) <= shared.decided
  {
    for k := 0 to |acts|
      invariant shared.Valid() && old(shared.decided) <= shared.decided
    {
      match acts[k] {
        case Lands(j) => shared.Land(j);
        case Asks(p, forms, m) => if forms > 0 { var _ := shared.Variant(p, forms, m.looking, m.background, m.made); }
      }
    }
  }

  /** Variants are only ever added, and a block stays its own variant's. */
  lemma BlockStays<P, A, S, O>(B: Body<P, A, S, O>, was: seq<Option<seq<bool>>>, now: seq<Option<seq<bool>>>,
                               b: Block<S>, p: P, n: nat, forms: nat)
    requires BlockOk(B, was, b, p, n) && was <= now && n <= forms
    ensures BlockOk(B, now, b, p, forms)
  {
  }

  /** A prolog batch, then a main batch at arguments of the bindings: every instance comes to the
      full body's outputs, whatever builds land and whoever asks for variants in either phase and
      in between, and whichever forms there are then. */
  method BothPhases<P(!new), A(!new), S(!new), O>(shared: Shared<P, A, S, O>, pure: seq<P>, args: seq<A>,
                                                  rows: array<Block<S>>, out: array<O>, at: Instances,
                                                  forms: nat, moments: nat -> Moment, acts: seq<Act<P>>, later: nat,
                                                      form: nat -> Option<nat>)
    requires shared.Valid() && forms > 0 && at.Ok(|pure|, rows.Length) && RowsShared(at, pure)
             && |args| == |pure| == out.Length && (rows as object) != out
    requires forms <= later && forall g :: g in at.list && g < |pure| ==> shared.B.pure(args[g]) == pure[g]
    modifies shared, rows, out
    ensures forall g :: g in at.list ==> g < out.Length && out[g] == shared.B.out(args[g])
    ensures forall g :: 0 <= g < out.Length && g !in at.list ==> out[g] == old(out[g])
  {
    hide Instances.Ok, RowsShared, Sound, BlockOk;
    ghost var was := out[..];
    PrologBatch(shared, pure, rows, at, forms, moments);
    ghost var prologs := shared.decided;
    Meanwhile(shared, acts);
    assert out[..] == was;
    BlocksStay(shared.B, prologs, shared.decided, rows[..], pure, at, forms, later);
    ghost var _ := MainBatch(shared.B, shared.decided, args, rows[..], out, at, later, form);
  }

  lemma BlocksStay<P, A, S, O>(B: Body<P, A, S, O>, was: seq<Option<seq<bool>>>, now: seq<Option<seq<bool>>>,
                               rows: seq<Block<S>>, pure: seq<P>,
                               at: Instances, n: nat, forms: nat)
    requires was <= now && n <= forms
    requires forall g :: g in at.list ==>
               g < |pure| && at.Row(g) < |rows| && BlockOk(B, was, rows[at.Row(g)], pure[g], n)
    ensures forall g :: g in at.list ==>
              BlockOk(B, now, rows[at.Row(g)], pure[g], forms) && rows[at.Row(g)].tag < forms
                  && rows[at.Row(g)].tag < |now|
  {
    forall g | g in at.list
      ensures BlockOk(B, now, rows[at.Row(g)], pure[g], forms) && rows[at.Row(g)].tag < forms
              && rows[at.Row(g)].tag < |now|
    { BlockStays(B, was, now, rows[at.Row(g)], pure[g], n, forms); }
  }
}
