/** The dense products: register-blocked kernels, every entry of which is the reference
    fold of its own row and column, over any scalar. */
module DenseProducts {
  import opened Elimination
  import opened Scalars

  const GEMV_ROW_BLOCK: nat := 4
  const GEMM_ROW_BLOCK: nat := 4
  const GEMM_COL_BLOCK: nat := 2

  // --- the reference dot ----------------------------------------------------------------------------

  /** Accumulator `l` of a dot after `c` rounds of four products. */
  function DotLane<T>(O: Ops<T>, xs: seq<T>, ys: seq<T>, l: nat, c: nat): T
    requires |xs| == |ys| && l < FOLD_LANES && FOLD_LANES * c <= |xs|
  {
    if c == 0 then O.zero
    else O.add(DotLane(O, xs, ys, l, c - 1), O.mul(xs[FOLD_LANES * (c - 1) + l], ys[FOLD_LANES * (c - 1) + l]))
  }

  function DotTail<T>(O: Ops<T>, s: T, xs: seq<T>, ys: seq<T>, from: nat, end: nat): T
    requires |xs| == |ys| && from <= end <= |xs|
    decreases end
  {
    if from == end then s else O.add(DotTail(O, s, xs, ys, from, end - 1), O.mul(xs[end - 1], ys[end - 1]))
  }

  function Merged<T>(O: Ops<T>, a0: T, a1: T, a2: T, a3: T): T { O.add(O.add(a0, a1), O.add(a2, a3)) }

  /** The dot every kernel entry has to equal: four lanes over whole rounds, merged, then what is
      left. */
  function Dot<T>(O: Ops<T>, xs: seq<T>, ys: seq<T>): T
    requires |xs| == |ys|
  {
    var c := |xs| / FOLD_LANES;
    var s := Merged(O, DotLane(O, xs, ys, 0, c), DotLane(O, xs, ys, 1, c), DotLane(O, xs, ys, 2, c),
                    DotLane(O, xs, ys, 3, c));
    DotTail(O, s, xs, ys, FOLD_LANES * c, |xs|)
  }

  /** The merge and the tail of one entry, its accumulators given. */
  method DotRest<T>(O: Ops<T>, xs: seq<T>, ys: seq<T>, a0: T, a1: T, a2: T, a3: T) returns (s: T)
    requires |xs| == |ys|
    requires var c := |xs| / FOLD_LANES;
             a0 == DotLane(O, xs, ys, 0, c) && a1 == DotLane(O, xs, ys, 1, c) &&
             a2 == DotLane(O, xs, ys, 2, c) && a3 == DotLane(O, xs, ys, 3, c)
    ensures s == Dot(O, xs, ys)
  {
    var c := |xs| / FOLD_LANES;
    s := O.add(O.add(a0, a1), O.add(a2, a3));
    ghost var start := s;
    for l := FOLD_LANES * c to |xs|
      invariant s == DotTail(O, start, xs, ys, FOLD_LANES * c, l)
    {
      s := O.add(s, O.mul(xs[l], ys[l]));
    }
  }

  /** One term into each accumulator. */
  method DotRound<T>(O: Ops<T>, acc: array<T>, xs: seq<T>, ys: seq<T>, c: nat)
    requires |xs| == |ys| && acc.Length == FOLD_LANES && FOLD_LANES * c + FOLD_LANES <= |xs|
    requires forall q :: 0 <= q < FOLD_LANES ==> acc[q] == DotLane(O, xs, ys, q, c)
    modifies acc
    ensures forall q :: 0 <= q < FOLD_LANES ==> acc[q] == DotLane(O, xs, ys, q, c + 1)
  {
    hide DotLane;
    var next := c + 1;
    for l := 0 to FOLD_LANES
      invariant forall q :: 0 <= q < FOLD_LANES ==> acc[q] == DotLane(O, xs, ys, q, if q < l then next else c)
    {
      DotLaneNext(O, xs, ys, l, c);
      acc[l] := O.add(acc[l], O.mul(xs[FOLD_LANES * c + l], ys[FOLD_LANES * c + l]));
    }
  }

  lemma DotLaneNext<T>(O: Ops<T>, xs: seq<T>, ys: seq<T>, l: nat, c: nat)
    requires |xs| == |ys| && l < FOLD_LANES && FOLD_LANES * c + FOLD_LANES <= |xs|
    ensures DotLane(O, xs, ys, l, c + 1)
         == O.add(DotLane(O, xs, ys, l, c), O.mul(xs[FOLD_LANES * c + l], ys[FOLD_LANES * c + l]))
  {
  }

  /** The reference dot, one row. */
  method DotSlice<T>(O: Ops<T>, xs: seq<T>, ys: seq<T>) returns (s: T)
    requires |xs| == |ys|
    ensures s == Dot(O, xs, ys)
  {
    hide Dot;
    var acc := new T[FOLD_LANES](_ => O.zero);
    var ch := |xs| / FOLD_LANES;
    for c := 0 to ch
      invariant forall l :: 0 <= l < FOLD_LANES ==> acc[l] == DotLane(O, xs, ys, l, c)
    {
      DotRound(O, acc, xs, ys, c);
    }
    s := DotRest(O, xs, ys, acc[0], acc[1], acc[2], acc[3]);
  }

  // --- rows and entries of flat matrices ----------------------------------------------------------------

  /** Row `i` of the `rows` rows of `k`, stored one after another. */
  function RowAt<T>(a: seq<T>, rows: nat, k: nat, i: nat): (r: seq<T>)
    requires rows * k <= |a| && i < rows
    ensures |r| == k && forall l :: 0 <= l < k ==> r[l] == a[At(i, k, l, rows)]
  {
    seq(k, l requires 0 <= l < k => a[At(i, k, l, rows)])
  }

  function HiOf(e: nat, n: nat): nat requires n > 0 { e / n }
  function LoOf(e: nat, n: nat): nat requires n > 0 { e % n }

  /** Every entry has one index, every index one entry. */
  lemma {:induction false} AtParts(i: nat, n: nat, j: nat, m: nat)
    requires i < m && j < n
    ensures HiOf(At(i, n, j, m), n) == i && LoOf(At(i, n, j, m), n) == j
  {
    DivideBack(i, n, j);
  }

  lemma {:induction false} DivideBack(i: nat, n: nat, j: nat)
    requires j < n
    ensures (i * n + j) / n == i && (i * n + j) % n == j
  {
    var e := i * n + j;
    assert e == (e / n) * n + e % n;
    SameQuotient(e / n, e % n, i, j, n);
  }

  lemma {:induction false} SameQuotient(q: nat, r: nat, i: nat, j: nat, n: nat)
    requires r < n && j < n && q * n + r == i * n + j
    ensures q == i && r == j
  {
    MulLess(q, i, n);
    MulLess(i, q, n);
  }

  lemma {:induction false} MulLess(q: nat, i: nat, n: nat)
    ensures q < i ==> q * n + n <= i * n
    decreases i
  {
    if q < i {
      assert i * n == (i - 1) * n + n;
      MulLess(q, i - 1, n);
    }
  }

  lemma PartsAt(e: nat, m: nat, n: nat)
    requires e < m * n
    ensures n > 0 && HiOf(e, n) < m && LoOf(e, n) < n && At(HiOf(e, n), n, LoOf(e, n), m) == e
  {
    assert e == (e / n) * n + e % n;
  }

  /** One entry of the product of `a` by the rows of `b`. */
  function Entry<T>(O: Ops<T>, a: seq<T>, b: seq<T>, m: nat, k: nat, n: nat, i: nat, j: nat): T
    requires m * k <= |a| && n * k <= |b| && i < m && j < n
  {
    Dot(O, RowAt(a, m, k, i), RowAt(b, n, k, j))
  }

  /** The block a product stores, `store` what becomes of entry `e`'s fold. */
  function Block<T>(O: Ops<T>, a: seq<T>, b: seq<T>, m: nat, k: nat, n: nat, store: (nat, T) -> T): (r: seq<T>)
    requires m * k <= |a| && n * k <= |b|
    ensures |r| == m * n
    ensures forall i, j :: 0 <= i < m && 0 <= j < n ==>
              At(i, n, j, m) < m * n && r[At(i, n, j, m)] == store(At(i, n, j, m), Entry(O, a, b, m, k, n, i, j))
  {
    var r := seq(m * n, e requires 0 <= e < m * n =>
                   PartsAt(e, m, n);
                   store(e, Entry(O, a, b, m, k, n, HiOf(e, n), LoOf(e, n))));
    assert forall i, j :: 0 <= i < m && 0 <= j < n ==>
           r[At(i, n, j, m)] == store(At(i, n, j, m), Entry(O, a, b, m, k, n, i, j)) by {
      forall i: nat, j: nat | i < m && j < n
        ensures r[At(i, n, j, m)] == store(At(i, n, j, m), Entry(O, a, b, m, k, n, i, j)) { AtParts(i, n, j, m); }
    }
    r
  }

  // --- which entries are stored ---------------------------------------------------------------------------

  /** The entries stored so far: every row before `i`; of the four from `i`, the columns
      before `j`, and between `j` and `right` the rows before `i + r` and row `i + r` up to
      column `q`. */
  datatype Region = Region(i: nat, j: nat, r: nat, q: nat, right: nat) {
    predicate Has(row: nat, col: nat) {
      || row < i
      || (row < i + GEMM_ROW_BLOCK && (col < j || (row < i + r && col < right) || (row == i + r && col < q)))
    }
  }

  /** The entries of `R` hold what the product stores there, each stored once; the others
      are as they were. */
  ghost predicate Stored<T>(out: seq<T>, times: seq<nat>, was: seq<T>, spec: seq<T>, m: nat, n: nat, R: Region) {
    && |out| == |was| && |spec| == |times| == m * n && m * n <= |out|
    && (m * n > 0 ==> n > 0)
    && (forall e :: 0 <= e < m * n ==>
          if R.Has(HiOf(e, n), LoOf(e, n)) then out[e] == spec[e]
              && times[e] == 1 else out[e] == was[e] && times[e] == 0)
    && (forall e :: m * n <= e < |out| ==> out[e] == was[e])
  }

  /** `S` is `R` with one more entry. */
  ghost predicate Grows(R: Region, S: Region, m: nat, n: nat, row: nat, col: nat) {
    forall i, j :: 0 <= i < m && 0 <= j < n ==> (S.Has(i, j) <==> R.Has(i, j) || (i == row && j == col))
  }

  lemma StoredSame<T>(out: seq<T>, times: seq<nat>, was: seq<T>, spec: seq<T>, m: nat, n: nat, R: Region, S: Region)
    requires Stored(out, times, was, spec, m, n, R)
    requires forall i, j :: 0 <= i < m && 0 <= j < n ==> (S.Has(i, j) <==> R.Has(i, j))
    ensures Stored(out, times, was, spec, m, n, S)
  {
    hide Region.Has, HiOf, LoOf;
    forall e: nat | e < m * n { PartsAt(e, m, n); }
  }

  method StoreEntry<T>(out: array<T>, ghost times: seq<nat>, ghost was: seq<T>, ghost spec: seq<T>, m: nat, n: nat,
                       ghost R: Region, ghost S: Region,
                       i: nat, j: nat, v: T) returns (ghost next: seq<nat>)
    requires Stored(out[..], times, was, spec, m, n, R) && i < m && j < n
    requires !R.Has(i, j) && Grows(R, S, m, n, i, j) && At(i, n, j, m) < |spec| && v == spec[At(i, n, j, m)]
    modifies out
    ensures Stored(out[..], next, was, spec, m, n, S)
  {
    hide Region.Has, HiOf, LoOf;
    var at := At(i, n, j, m);
    AtParts(i, n, j, m);
    ghost var before := out[..];
    out[at] := v;
    next := times[at := times[at] + 1];
    forall e: nat | e < m * n
      ensures if S.Has(HiOf(e, n), LoOf(e, n)) then out[e] == spec[e]
              && next[e] == 1 else out[e] == was[e] && next[e] == 0 {
      PartsAt(e, m, n);
      assert out[e] == if e == at then v else before[e];
      assert S.Has(HiOf(e, n), LoOf(e, n)) <==> R.Has(HiOf(e, n), LoOf(e, n)) || (HiOf(e, n) == i && LoOf(e, n) == j);
    }
  }

  // --- the blocked product ----------------------------------------------------------------------------------

  /** The accumulators of the block at `(i, j)` after `c` rounds. */
  ghost predicate Accumulated<T>(O: Ops<T>, acc: array3<T>, a: seq<T>, b: seq<T>, m: nat, k: nat, n: nat, i: nat,
                                 j: nat, c: nat)
    reads acc
  {
    && acc.Length0 == GEMM_ROW_BLOCK && acc.Length1 == GEMM_COL_BLOCK && acc.Length2 == FOLD_LANES
    && m * k <= |a| && n * k <= |b| && i + GEMM_ROW_BLOCK <= m && j + GEMM_COL_BLOCK <= n && FOLD_LANES * c <= k
    && (forall r, q, l :: 0 <= r < GEMM_ROW_BLOCK && 0 <= q < GEMM_COL_BLOCK && 0 <= l < FOLD_LANES ==>
          acc[r, q, l] == DotLane(O, RowAt(a, m, k, i + r), RowAt(b, n, k, j + q), l, c))
  }

  method AccumulateEntry<T>(O: Ops<T>, acc: array3<T>, a: seq<T>, b: seq<T>, m: nat, k: nat, n: nat, i: nat, j: nat,
                            c: nat, r: nat, q: nat)
    requires acc.Length0 == GEMM_ROW_BLOCK && acc.Length1 == GEMM_COL_BLOCK && acc.Length2 == FOLD_LANES
    requires m * k <= |a| && n * k <= |b| && i + r < m && j + q < n && FOLD_LANES * c + FOLD_LANES <= k
    requires r < GEMM_ROW_BLOCK && q < GEMM_COL_BLOCK
    requires forall l :: 0 <= l < FOLD_LANES ==>
             acc[r, q, l] == DotLane(O, RowAt(a, m, k, i + r), RowAt(b, n, k, j + q), l, c)
    modifies acc
    ensures forall r', q', l' :: 0 <= r' < GEMM_ROW_BLOCK && 0 <= q' < GEMM_COL_BLOCK && 0 <= l' < FOLD_LANES ==>
              acc[r', q', l'] == if r' == r
                  && q' == q then DotLane(O, RowAt(a, m, k, i + r), RowAt(b, n, k, j + q), l', c + 1)
                                 else old(acc[r', q', l'])
  {
    hide RowAt;
    ghost var xs, ys := RowAt(a, m, k, i + r), RowAt(b, n, k, j + q);
    for l := 0 to FOLD_LANES
      invariant forall r', q', l' :: 0 <= r' < GEMM_ROW_BLOCK && 0 <= q' < GEMM_COL_BLOCK && 0 <= l' < FOLD_LANES ==>
                  acc[r', q', l'] == if r' == r && q' == q && l' < l
                      then DotLane(O, xs, ys, l', c + 1) else old(acc[r', q', l'])
    {
      acc[r, q, l] :=
          O.add(acc[r, q, l], O.mul(a[At(i + r, k, FOLD_LANES * c + l, m)], b[At(j + q, k, FOLD_LANES * c + l, n)]));
    }
  }

  /** One round of four products into every accumulator of the block. */
  method Accumulate<T>(O: Ops<T>, acc: array3<T>, a: seq<T>, b: seq<T>, m: nat, k: nat, n: nat, i: nat, j: nat, c: nat)
    requires Accumulated(O, acc, a, b, m, k, n, i, j, c) && FOLD_LANES * c + FOLD_LANES <= k
    modifies acc
    ensures Accumulated(O, acc, a, b, m, k, n, i, j, c + 1)
  {
    hide RowAt, DotLane;
    var next := c + 1;
    for r := 0 to GEMM_ROW_BLOCK
      invariant forall r', q', l' :: 0 <= r' < GEMM_ROW_BLOCK && 0 <= q' < GEMM_COL_BLOCK && 0 <= l' < FOLD_LANES ==>
                  acc[r', q', l'] ==
                      DotLane(O, RowAt(a, m, k, i + r'), RowAt(b, n, k, j + q'), l', if r' < r then next else c)
    {
      for q := 0 to GEMM_COL_BLOCK
        invariant forall r', q', l' :: 0 <= r' < GEMM_ROW_BLOCK && 0 <= q' < GEMM_COL_BLOCK && 0 <= l' < FOLD_LANES ==>
                    acc[r', q', l'] == DotLane(O, RowAt(a, m, k, i + r'), RowAt(b, n, k, j + q'), l',
                                               if r' < r || (r' == r && q' < q) then next else c)
      {
        AccumulateEntry(O, acc, a, b, m, k, n, i, j, c, r, q);
      }
    }
  }

  /** Every entry of the block at `(i, j)` stored. */
  method StoreBlock<T>(O: Ops<T>, a: seq<T>, b: seq<T>, m: nat, k: nat, n: nat, store: (nat, T) -> T, out: array<T>,
                       i: nat, j: nat, ghost times: seq<nat>, ghost was: seq<T>) returns (ghost next: seq<nat>)
    requires m * k <= |a| && n * k <= |b| && i + GEMM_ROW_BLOCK <= m && j + GEMM_COL_BLOCK <= n
    requires Stored(out[..], times, was, Block(O, a, b, m, k, n, store), m, n, Region(i, j, 0, 0, 0))
    modifies out
    ensures Stored(out[..], next, was, Block(O, a, b, m, k, n, store), m, n, Region(i, j + GEMM_COL_BLOCK, 0, 0, 0))
  {
    hide RowAt, DotLane, Dot, Stored, Block;
    var acc := new T[GEMM_ROW_BLOCK, GEMM_COL_BLOCK, FOLD_LANES]((_, _, _) => O.zero);
    NoLanes(O, acc, a, b, m, k, n, i, j);
    for c := 0 to k / FOLD_LANES
      invariant Accumulated(O, acc, a, b, m, k, n, i, j, c)
      invariant out[..] == old(out[..])
    {
      Accumulate(O, acc, a, b, m, k, n, i, j, c);
    }
    next := StoreRows(O, acc, a, b, m, k, n, store, out, i, j, times, was);
  }

  /** The block's entries from their accumulators, row by row. */
  method StoreRows<T>(O: Ops<T>, acc: array3<T>, a: seq<T>, b: seq<T>, m: nat, k: nat, n: nat, store: (nat, T) -> T,
                      out: array<T>,
                      i: nat, j: nat, ghost times: seq<nat>, ghost was: seq<T>) returns (ghost next: seq<nat>)
    requires Accumulated(O, acc, a, b, m, k, n, i, j, k / FOLD_LANES)
    requires Stored(out[..], times, was, Block(O, a, b, m, k, n, store), m, n, Region(i, j, 0, 0, 0))
    modifies out
    ensures Stored(out[..], next, was, Block(O, a, b, m, k, n, store), m, n, Region(i, j + GEMM_COL_BLOCK, 0, 0, 0))
  {
    hide RowAt, DotLane, Dot, Stored, Block, Accumulated;
    InRange(O, acc, a, b, m, k, n, i, j);
    ghost var spec := Block(O, a, b, m, k, n, store);
    var right := j + GEMM_COL_BLOCK;
    next := times;
    StoredSame(out[..], next, was, spec, m, n, Region(i, j, 0, 0, 0), Region(i, j, 0, 0, right));
    for r := 0 to GEMM_ROW_BLOCK
      invariant Accumulated(O, acc, a, b, m, k, n, i, j, k / FOLD_LANES)
      invariant Stored(out[..], next, was, spec, m, n, Region(i, j, r, 0, right))
    {
      next := StoreRow(O, acc, a, b, m, k, n, store, out, i, j, r, next, was);
    }
    StoredSame(out[..], next, was, spec, m, n, Region(i, j, GEMM_ROW_BLOCK, 0, right), Region(i, right, 0, 0, 0));
  }

  lemma InRange<T>(O: Ops<T>, acc: array3<T>, a: seq<T>, b: seq<T>, m: nat, k: nat, n: nat, i: nat, j: nat)
    requires Accumulated(O, acc, a, b, m, k, n, i, j, k / FOLD_LANES)
    ensures m * k <= |a| && n * k <= |b| && i + GEMM_ROW_BLOCK <= m && j + GEMM_COL_BLOCK <= n
  {
  }

  method StoreRow<T>(O: Ops<T>, acc: array3<T>, a: seq<T>, b: seq<T>, m: nat, k: nat, n: nat, store: (nat, T) -> T,
                     out: array<T>,
                     i: nat, j: nat, r: nat, ghost times: seq<nat>, ghost was: seq<T>) returns (ghost next: seq<nat>)
    requires Accumulated(O, acc, a, b, m, k, n, i, j, k / FOLD_LANES) && r < GEMM_ROW_BLOCK
    requires Stored(out[..], times, was, Block(O, a, b, m, k, n, store), m, n, Region(i, j, r, 0, j + GEMM_COL_BLOCK))
    modifies out
    ensures Stored(out[..], next, was, Block(O, a, b, m, k, n, store), m, n, Region(i, j, r + 1, 0, j + GEMM_COL_BLOCK))
  {
    hide RowAt, DotLane, Dot, Stored, Block;
    ghost var spec := Block(O, a, b, m, k, n, store);
    var right := j + GEMM_COL_BLOCK;
    next := times;
    StoredSame(out[..], next, was, spec, m, n, Region(i, j, r, 0, right), Region(i, j, r, j, right));
    for q := 0 to GEMM_COL_BLOCK
      invariant Accumulated(O, acc, a, b, m, k, n, i, j, k / FOLD_LANES)
      invariant Stored(out[..], next, was, spec, m, n, Region(i, j, r, j + q, right))
    {
      var s := DotRest(O, RowAt(a, m, k, i + r), RowAt(b, n, k, j + q), acc[r, q, 0], acc[r, q, 1], acc[r, q, 2],
                       acc[r, q, 3]);
      BlockAt(O, a, b, m, k, n, store, i + r, j + q);
      next := StoreEntry(out, next, was, spec, m, n, Region(i, j, r, j + q, right), Region(i, j, r, j + q + 1, right),
                         i + r, j + q,
                         store(At(i + r, n, j + q, m), s));
    }
    StoredSame(out[..], next, was, spec, m, n, Region(i, j, r, right, right), Region(i, j, r + 1, 0, right));
  }

  lemma NoLanes<T>(O: Ops<T>, acc: array3<T>, a: seq<T>, b: seq<T>, m: nat, k: nat, n: nat, i: nat, j: nat)
    requires acc.Length0 == GEMM_ROW_BLOCK && acc.Length1 == GEMM_COL_BLOCK && acc.Length2 == FOLD_LANES
    requires m * k <= |a| && n * k <= |b| && i + GEMM_ROW_BLOCK <= m && j + GEMM_COL_BLOCK <= n
    requires forall r, q, l :: 0 <= r < GEMM_ROW_BLOCK && 0 <= q < GEMM_COL_BLOCK && 0 <= l < FOLD_LANES ==>
             acc[r, q, l] == O.zero
    ensures Accumulated(O, acc, a, b, m, k, n, i, j, 0)
  {
  }

  lemma BlockAt<T>(O: Ops<T>, a: seq<T>, b: seq<T>, m: nat, k: nat, n: nat, store: (nat, T) -> T, i: nat, j: nat)
    requires m * k <= |a| && n * k <= |b| && i < m && j < n
    ensures At(i, n, j, m) < |Block(O, a, b, m, k, n, store)|
    ensures Block(O, a, b, m, k, n, store)[At(i, n, j, m)] ==
            store(At(i, n, j, m), Dot(O, RowAt(a, m, k, i), RowAt(b, n, k, j)))
  {
    hide Dot, RowAt;
  }

  /** One entry by its own dot. */
  method StoreDot<T>(O: Ops<T>, a: seq<T>, b: seq<T>, m: nat, k: nat, n: nat, store: (nat, T) -> T, out: array<T>,
                     i: nat, j: nat,
                     ghost times: seq<nat>, ghost was: seq<T>, ghost R: Region, ghost S: Region)
                       returns (ghost next: seq<nat>)
    requires m * k <= |a| && n * k <= |b| && i < m && j < n
    requires Stored(out[..], times, was, Block(O, a, b, m, k, n, store), m, n, R) && !R.Has(i, j)
             && Grows(R, S, m, n, i, j)
    modifies out
    ensures Stored(out[..], next, was, Block(O, a, b, m, k, n, store), m, n, S)
  {
    hide RowAt, Dot, Stored, Block, Region.Has;
    BlockAt(O, a, b, m, k, n, store, i, j);
    var s := DotSlice(O, RowAt(a, m, k, i), RowAt(b, n, k, j));
    next := StoreEntry(out, times, was, Block(O, a, b, m, k, n, store), m, n, R, S, i, j, store(At(i, n, j, m), s));
  }

  /** The columns from `j` of the four rows from `i`, entry by entry. */
  method StoreEdge<T>(O: Ops<T>, a: seq<T>, b: seq<T>, m: nat, k: nat, n: nat, store: (nat, T) -> T, out: array<T>,
                      i: nat, j: nat, ghost times: seq<nat>, ghost was: seq<T>) returns (ghost next: seq<nat>)
    requires m * k <= |a| && n * k <= |b| && i + GEMM_ROW_BLOCK <= m && j <= n
    requires Stored(out[..], times, was, Block(O, a, b, m, k, n, store), m, n, Region(i, j, 0, 0, 0))
    modifies out
    ensures Stored(out[..], next, was, Block(O, a, b, m, k, n, store), m, n, Region(i + GEMM_ROW_BLOCK, 0, 0, 0, 0))
  {
    hide RowAt, DotLane, Dot, Stored, Block;
    ghost var spec := Block(O, a, b, m, k, n, store);
    next := times;
    StoredSame(out[..], next, was, spec, m, n, Region(i, j, 0, 0, 0), Region(i, j, 0, 0, n));
    for r := 0 to GEMM_ROW_BLOCK
      invariant Stored(out[..], next, was, spec, m, n, Region(i, j, r, 0, n))
    {
      StoredSame(out[..], next, was, spec, m, n, Region(i, j, r, 0, n), Region(i, j, r, j, n));
      for jj := j to n
        invariant Stored(out[..], next, was, spec, m, n, Region(i, j, r, jj, n))
      {
        next := StoreDot(O, a, b, m, k, n, store, out, i + r, jj, next, was, Region(i, j, r, jj, n),
                         Region(i, j, r, jj + 1, n));
      }
      StoredSame(out[..], next, was, spec, m, n, Region(i, j, r, n, n), Region(i, j, r + 1, 0, n));
    }
    StoredSame(out[..], next, was, spec, m, n, Region(i, j, GEMM_ROW_BLOCK, 0, n),
               Region(i + GEMM_ROW_BLOCK, 0, 0, 0, 0));
  }

  /** The product by blocks of four rows and two columns, each entry's fold stored through
      `store`: every entry stored exactly once, as its own dot. */
  method GemmWith<T>(O: Ops<T>, a: seq<T>, b: seq<T>, m: nat, k: nat, n: nat, store: (nat, T) -> T, out: array<T>)
    returns (ghost times: seq<nat>)
    requires m * k <= |a| && n * k <= |b| && m * n <= out.Length
    modifies out
    ensures m * n <= out.Length && out[..m * n] == Block(O, a, b, m, k, n, store)
    ensures out[m * n..] == old(out[m * n..])
    ensures |times| == m * n && forall e :: 0 <= e < m * n ==> times[e] == 1
  {
    hide RowAt, DotLane, Dot, Block;
    ghost var was, spec := out[..], Block(O, a, b, m, k, n, store);
    times := seq(m * n, _ => 0);
    StoredNone(was, times, spec, m, n);
    var i := 0;
    while i + GEMM_ROW_BLOCK <= m
      invariant i <= m && Stored(out[..], times, was, spec, m, n, Region(i, 0, 0, 0, 0))
    {
      hide Stored;
      var j := 0;
      while j + GEMM_COL_BLOCK <= n
        invariant j <= n && Stored(out[..], times, was, spec, m, n, Region(i, j, 0, 0, 0))
      {
        times := StoreBlock(O, a, b, m, k, n, store, out, i, j, times, was);
        j := j + GEMM_COL_BLOCK;
      }
      times := StoreEdge(O, a, b, m, k, n, store, out, i, j, times, was);
      i := i + GEMM_ROW_BLOCK;
    }
    for r := i to m
      invariant Stored(out[..], times, was, spec, m, n, Region(r, 0, 0, 0, 0))
    {
      hide Stored;
      for j := 0 to n
        invariant Stored(out[..], times, was, spec, m, n, Region(r, 0, 0, j, 0))
      {
        times := StoreDot(O, a, b, m, k, n, store, out, r, j, times, was, Region(r, 0, 0, j, 0),
                          Region(r, 0, 0, j + 1, 0));
      }
      StoredSame(out[..], times, was, spec, m, n, Region(r, 0, 0, n, 0), Region(r + 1, 0, 0, 0, 0));
    }
    StoredAll(out[..], times, was, spec, m, n);
    assert out[..m * n] == out[..][..m * n];
    assert out[m * n..] == out[..][m * n..];
  }

  lemma StoredNone<T>(was: seq<T>, times: seq<nat>, spec: seq<T>, m: nat, n: nat)
    requires |spec| == |times| == m * n <= |was| && forall e :: 0 <= e < |times| ==> times[e] == 0
    ensures Stored(was, times, was, spec, m, n, Region(0, 0, 0, 0, 0))
  {
    hide HiOf, LoOf;
    if m * n > 0 { PartsAt(0, m, n); }
  }

  lemma StoredAll<T>(out: seq<T>, times: seq<nat>, was: seq<T>, spec: seq<T>, m: nat, n: nat)
    requires Stored(out, times, was, spec, m, n, Region(m, 0, 0, 0, 0))
    ensures |spec| == |times| == m * n <= |out| == |was|
    ensures out[..m * n] == spec && out[m * n..] == was[m * n..] && forall e :: 0 <= e < m * n ==> times[e] == 1
  {
    hide HiOf, LoOf;
    forall e: nat | e < m * n ensures out[e] == spec[e] && times[e] == 1 { PartsAt(e, m, n); }
  }
}
