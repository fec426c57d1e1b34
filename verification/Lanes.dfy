/** How a batch of a body's instances is divided between its lane codes, which run a
    block of instances at a time, and its scalar code. */
module LanePlans {

  const MAX_LANES: nat := 4

  /** A lane code: its width, and what a block of it costs in the phase. */
  datatype LaneCode = LaneCode(lanes: nat, block: nat)

  /** A block costs less than its instances would one by one. */
  predicate Pays(lc: LaneCode, one: nat) { lc.block < lc.lanes * one }

  predicate CodesOk(codes: seq<LaneCode>) {
    forall i :: 0 <= i < |codes| ==> 0 < codes[i].lanes <= MAX_LANES
  }

  /** The instances `lo .. hi` by lane code `code`. */
  datatype Blocks = Blocks(code: nat, lo: nat, hi: nat)

  // --- plans ------------------------------------------------------------------------------

  /** One step of a way to take some instances: one by the scalar code, or a block. */
  datatype Choice = Scalar | Block(code: nat)

  predicate PlanOk(codes: seq<LaneCode>, one: nat, plan: seq<Choice>) {
    forall i :: 0 <= i < |plan| && plan[i].Block? ==> plan[i].code < |codes| && Pays(codes[plan[i].code], one)
  }

  function Takes(codes: seq<LaneCode>, c: Choice): nat
    requires c.Block? ==> c.code < |codes|
  {
    match c case Scalar => 1 case Block(i) => codes[i].lanes
  }

  function CostOf(codes: seq<LaneCode>, one: nat, c: Choice): nat
    requires c.Block? ==> c.code < |codes|
  {
    match c case Scalar => one case Block(i) => codes[i].block
  }

  function Room(codes: seq<LaneCode>, one: nat, plan: seq<Choice>): nat
    requires PlanOk(codes, one, plan)
  {
    if plan == [] then 0 else Takes(codes, plan[0]) + Room(codes, one, plan[1..])
  }

  function Cost(codes: seq<LaneCode>, one: nat, plan: seq<Choice>): nat
    requires PlanOk(codes, one, plan)
  {
    if plan == [] then 0 else CostOf(codes, one, plan[0]) + Cost(codes, one, plan[1..])
  }

  /** What is left of `m` instances once a step took its own. */
  function Less(m: nat, n: nat): nat { if m < n then 0 else m - n }

  /** A row of the table: what its cost is made of, and no single step does better. */
  ghost predicate Cheapest(codes: seq<LaneCode>, one: nat, best: seq<(nat, Choice)>, m: nat)
    requires CodesOk(codes) && m < |best|
  {
    if m == 0 then best[0].0 == 0
    else
      var c := best[m].1;
      && (c.Block? ==> c.code < |codes| && Pays(codes[c.code], one))
      && best[m].0 == CostOf(codes, one, c) + best[Less(m, Takes(codes, c))].0
      && best[m].0 <= one + best[m - 1].0
      && (forall i :: 0 <= i < |codes| && Pays(codes[i], one) ==>
          best[m].0 <= codes[i].block + best[Less(m, codes[i].lanes)].0)
  }

  /** No mix of blocks and scalar runs that has room for `m` instances is cheaper. */
  lemma {:induction false} Optimal(codes: seq<LaneCode>, one: nat, best: seq<(nat, Choice)>, m: nat, plan: seq<Choice>)
    requires CodesOk(codes) && m < |best| && forall k :: 0 <= k <= m ==> Cheapest(codes, one, best, k)
    requires PlanOk(codes, one, plan) && Room(codes, one, plan) >= m
    ensures best[m].0 <= Cost(codes, one, plan)
    decreases |plan|
  {
    if m > 0 {
      assert Cheapest(codes, one, best, m);
      Optimal(codes, one, best, Less(m, Takes(codes, plan[0])), plan[1..]);
    } else {
      assert Cheapest(codes, one, best, 0);
    }
  }

  /** The cheapest way to take each number of instances up to `rest`. */
  method BestPlans(codes: seq<LaneCode>, one: nat, rest: nat) returns (best: seq<(nat, Choice)>)
    requires CodesOk(codes) && rest < MAX_LANES
    ensures |best| == MAX_LANES && forall m :: 0 <= m <= rest ==> Cheapest(codes, one, best, m)
  {
    var table := new (nat, Choice)[MAX_LANES](_ => (0, Scalar));
    for m := 1 to rest + 1
      invariant forall k :: 0 <= k < m ==> Cheapest(codes, one, table[..], k)
    {
      ghost var done := table[..];
      var b: (nat, Choice) := (table[m - 1].0 + one, Scalar);
      for i := 0 to |codes|
        invariant table[..] == done
        invariant b.1.Block? ==> b.1.code < |codes| && Pays(codes[b.1.code], one)
        invariant b.0 == CostOf(codes, one, b.1) + done[Less(m, Takes(codes, b.1))].0
        invariant b.0 <= one + done[m - 1].0
        invariant forall j :: 0 <= j < i && Pays(codes[j], one) ==>
                  b.0 <= codes[j].block + done[Less(m, codes[j].lanes)].0
      {
        if Pays(codes[i], one) {
          var c := table[Less(m, codes[i].lanes)].0 + codes[i].block;
          if c < b.0 { b := (c, Block(i)); }
        }
      }
      table[m] := b;
      assert table[..] == done[m := b];
      forall k | 0 <= k <= m ensures Cheapest(codes, one, table[..], k) {
        if k < m { assert Cheapest(codes, one, done, k); }
      }
    }
    best := table[..];
  }

  // --- the division -----------------------------------------------------------------------

  /** The runs cover `lo .. g` in order without a gap. */
  predicate Covers(runs: seq<Blocks>, lo: nat, g: nat) {
    if runs == [] then g == lo
    else
      var last := runs[|runs| - 1];
      last.hi == g && last.lo < g && Covers(runs[..|runs| - 1], lo, last.lo)
  }

  function RunsCost(codes: seq<LaneCode>, runs: seq<Blocks>): nat
    requires forall i :: 0 <= i < |runs| ==> runs[i].code < |codes|
  {
    if runs == [] then 0 else RunsCost(codes, runs[..|runs| - 1]) + codes[runs[|runs| - 1].code].block
  }

  /** Runs of one block each, of codes that pay. */
  predicate BlockRuns(codes: seq<LaneCode>, one: nat, runs: seq<Blocks>) {
    forall i :: 0 <= i < |runs| ==>
      runs[i].code < |codes| && Pays(codes[runs[i].code], one)
          && runs[i].lo <= runs[i].hi <= runs[i].lo + codes[runs[i].code].lanes
  }

  lemma RunsMore(codes: seq<LaneCode>, one: nat, runs: seq<Blocks>, lo: nat, g: nat, r: Blocks)
    requires Covers(runs, lo, g) && r.lo == g && g < r.hi && BlockRuns(codes, one, runs) && BlockRuns(codes, one, [r])
    ensures Covers(runs + [r], lo, r.hi) && BlockRuns(codes, one, runs + [r])
    ensures RunsCost(codes, runs + [r]) == RunsCost(codes, runs) + codes[r.code].block
  {
    assert (runs + [r])[..|runs|] == runs;
    assert [r][0] == r;
    forall i | 0 <= i < |runs + [r]|
      ensures var x := (runs + [r])[i];
              x.code < |codes| && Pays(codes[x.code], one) && x.lo <= x.hi <= x.lo + codes[x.code].lanes
    {
      if i < |runs| { assert (runs + [r])[i] == runs[i]; }
    }
  }

  lemma {:induction false} CoversJoin(a: seq<Blocks>, b: seq<Blocks>, lo: nat, mid: nat, g: nat)
    requires Covers(a, lo, mid) && Covers(b, mid, g)
    ensures Covers(a + b, lo, g)
    decreases |b|
  {
    if b == [] {
      assert a + b == a;
    } else {
      var last := |b| - 1;
      assert (a + b)[..|a + b| - 1] == a + b[..last];
      CoversJoin(a, b[..last], lo, mid, b[last].lo);
    }
  }

  /** The plan of the table followed: a block where one starts the cheapest way to take what
      is left, else one more instance for the scalar code. */
  method Follow(codes: seq<LaneCode>, one: nat, best: seq<(nat, Choice)>, full: nat, n: nat)
    returns (rest: seq<Blocks>, g: nat)
    requires CodesOk(codes) && full <= n && n - full < |best|
    requires forall k :: 0 <= k <= n - full ==> Cheapest(codes, one, best, k)
    ensures full <= g <= n && Covers(rest, full, g) && BlockRuns(codes, one, rest)
    ensures RunsCost(codes, rest) + one * (n - g) == best[n - full].0
  {
    hide Cheapest, Covers, RunsCost, Pays, CodesOk;
    rest, g := [], full;
    NoRuns(codes, one, full);
    var m: nat := n - full;
    ghost var paid: nat := 0;
    ghost var scalar: nat := 0;
    while m > 0
      invariant m + scalar + g == n && g >= full && Covers(rest, full, g) && BlockRuns(codes, one, rest)
      invariant paid == one * scalar && RunsCost(codes, rest) + paid + best[m].0 == best[n - full].0
    {
      StepOf(codes, one, best, m);
      match best[m].1
      case Block(i) =>
        var w := if codes[i].lanes < m then codes[i].lanes else m;
        RunsMore(codes, one, rest, full, g, Blocks(i, g, g + w));
        rest, g, m := rest + [Blocks(i, g, g + w)], g + w, m - w;
      case Scalar =>
        assert one * (scalar + 1) == one * scalar + one;
        scalar, paid, m := scalar + 1, paid + one, m - 1;
    }
    NothingLeft(codes, one, best);
  }

  lemma NoRuns(codes: seq<LaneCode>, one: nat, lo: nat)
    ensures Covers([], lo, lo) && BlockRuns(codes, one, []) && RunsCost(codes, []) == 0
    ensures CodesOk(codes) ==> WholeCost(codes, []) == 0
  {
  }

  lemma NothingLeft(codes: seq<LaneCode>, one: nat, best: seq<(nat, Choice)>)
    requires CodesOk(codes) && 0 < |best| && Cheapest(codes, one, best, 0)
    ensures best[0].0 == 0
  {
  }

  /** What a row of the table says of its own step. */
  lemma StepOf(codes: seq<LaneCode>, one: nat, best: seq<(nat, Choice)>, m: nat)
    requires CodesOk(codes) && 0 < m < |best| && Cheapest(codes, one, best, m)
    ensures match best[m].1
            case Scalar => best[m].0 == one + best[m - 1].0
            case Block(i) =>
              && i < |codes| && Pays(codes[i], one) && codes[i].lanes > 0
              && best[m].0 == codes[i].block + best[Less(m, codes[i].lanes)].0
  {
  }

  /** The first code whose block costs less than its instances one by one is `i`. */
  predicate FirstPays(codes: seq<LaneCode>, one: nat, i: nat) {
    && i < |codes| && codes[i].block < codes[i].lanes * one
    && forall j :: 0 <= j < i ==> codes[j].block >= codes[j].lanes * one
  }

  /** What is handed over as whole blocks. */
  function WholeCost(codes: seq<LaneCode>, whole: seq<Blocks>): nat
    requires CodesOk(codes) && forall i :: 0 <= i < |whole| ==> whole[i].code < |codes|
  {
    if whole == [] then 0 else whole[0].hi / codes[whole[0].code].lanes * codes[whole[0].code].block
  }

  /** A step by the scalar code is always there to take. */
  lemma {:induction false} AtMostScalar(codes: seq<LaneCode>, one: nat, best: seq<(nat, Choice)>, m: nat)
    requires CodesOk(codes) && m < |best| && forall k :: 0 <= k <= m ==> Cheapest(codes, one, best, k)
    ensures best[m].0 <= one * m
    decreases m
  {
    assert Cheapest(codes, one, best, m);
    if m > 0 {
      AtMostScalar(codes, one, best, m - 1);
      assert one * m == one * (m - 1) + one;
    }
  }

  /** Whole blocks of a code that pays cost no more than their instances. */
  lemma WholePays(codes: seq<LaneCode>, one: nat, i: nat, n: nat)
    requires CodesOk(codes) && i < |codes| && codes[i].block <= codes[i].lanes * one
    ensures Full(codes, i, n) / codes[i].lanes == n / codes[i].lanes
    ensures n / codes[i].lanes * codes[i].block <= one * Full(codes, i, n)
  {
    var lanes, q := codes[i].lanes, n / codes[i].lanes;
    Quotient(q, lanes);
    Larger(q, codes[i].block, lanes * one);
    assert q * (lanes * one) == one * (q * lanes);
  }

  /** Whole blocks where there are any, and the rest at most as dear as scalar code. */
  lemma NoDearer(codes: seq<LaneCode>, one: nat, i: nat, n: nat, whole: seq<Blocks>, paid: nat)
    requires CodesOk(codes) && i < |codes| && codes[i].block <= codes[i].lanes * one
    requires whole == if Full(codes, i, n) > 0 then [Blocks(i, 0, Full(codes, i, n))] else []
    requires paid <= one * (n - Full(codes, i, n))
    ensures WholeCost(codes, whole) + paid <= one * n
  {
    WholePays(codes, one, i, n);
    assert one * Full(codes, i, n) + one * (n - Full(codes, i, n)) == one * n;
  }

  lemma Quotient(q: nat, d: nat)
    requires d > 0
    ensures q * d / d == q
  {
    var r := q * d / d;
    Division(q * d, d);
    if r < q { Larger(d, r + 1, q); }
    if q < r { Larger(d, q + 1, r); }
  }

  lemma Larger(q: nat, a: nat, b: nat)
    requires a <= b
    ensures q * a <= q * b
  {
  }

  /** The instances code `i` takes in whole blocks. */
  function Full(codes: seq<LaneCode>, i: nat, n: nat): (r: nat)
    requires CodesOk(codes) && i < |codes|
    ensures r <= n < r + codes[i].lanes
  {
    Division(n, codes[i].lanes);
    n / codes[i].lanes * codes[i].lanes
  }

  /** What a batch of `n` instances hands to lane code: whole blocks of the first code that
      pays, then single blocks (one perhaps short), covering `0 .. g` in order; `g .. n` is
      left to scalar code, and what the rest costs is the least over every mix of blocks and
      scalar runs; all of it never costs more than scalar code throughout. */
  method LanesFirst(codes: seq<LaneCode>, one: nat, n: nat) returns (whole: seq<Blocks>, rest: seq<Blocks>, g: nat)
    requires CodesOk(codes)
    ensures g <= n && Covers(whole + rest, 0, g) && BlockRuns(codes, one, rest)
    ensures (forall i :: 0 <= i < |codes| ==> codes[i].block >= codes[i].lanes * one) ==> g == 0
    ensures (forall i :: 0 <= i < |whole| ==> whole[i].code < |codes|)
            && WholeCost(codes, whole) + RunsCost(codes, rest) + one * (n - g) <= one * n
    ensures forall i :: FirstPays(codes, one, i) ==>
              && whole == (if Full(codes, i, n) > 0 then [Blocks(i, 0, Full(codes, i, n))] else [])
              && forall plan :: PlanOk(codes, one, plan) && Room(codes, one, plan) >= n - Full(codes, i, n) ==>
                   RunsCost(codes, rest) + one * (n - g) <= Cost(codes, one, plan)
  {
    hide WholeCost, RunsCost, Full, Cheapest;
    whole, rest, g := [], [], 0;
    NoRuns(codes, one, 0);
    var widest := 0;
    while widest < |codes| && !Pays(codes[widest], one)
      invariant 0 <= widest <= |codes| && forall j :: 0 <= j < widest ==> !Pays(codes[j], one)
    {
      widest := widest + 1;
    }
    if widest == |codes| { return; }
    var full := Full(codes, widest, n);
    if full > 0 { whole := [Blocks(widest, 0, full)]; }
    var best := BestPlans(codes, one, n - full);
    rest, g := Follow(codes, one, best, full, n);
    AtMostScalar(codes, one, best, n - full);
    NoDearer(codes, one, widest, n, whole, RunsCost(codes, rest) + one * (n - g));
    CoversJoin(whole, rest, 0, full, g);
    forall plan | PlanOk(codes, one, plan) && Room(codes, one, plan) >= n - full
      ensures RunsCost(codes, rest) + one * (n - g) <= Cost(codes, one, plan)
    {
      Optimal(codes, one, best, n - full, plan);
    }
    forall i | FirstPays(codes, one, i) ensures i == widest {}
  }

  lemma Division(n: nat, d: nat)
    requires d > 0
    ensures 0 <= n / d * d <= n < n / d * d + d
  {
  }
}
