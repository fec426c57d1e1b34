/** The matrix-vector product, and products whose entries are folded against an accumulator
    as they are stored or once all are. */
module ProductFolds {
  import opened Basics
  import opened DenseProducts
  import opened Elimination
  import opened Scalars

  // --- the matrix-vector product ------------------------------------------------------------------------

  /** Every row's dot with `x`. */
  function RowDots<T>(O: Ops<T>, a: seq<T>, x: seq<T>, m: nat, n: nat): (r: seq<T>)
    requires m * n <= |a| && |x| == n
    ensures |r| == m && forall i :: 0 <= i < m ==> r[i] == DenseProducts.Dot(O, RowAt(a, m, n, i), x)
  {
    seq(m, i requires 0 <= i < m => DenseProducts.Dot(O, RowAt(a, m, n, i), x))
  }

  /** The accumulators of the four rows from `i` after `c` rounds. */
  ghost predicate RowsAccumulated<T>(O: Ops<T>, acc: array2<T>, a: seq<T>, x: seq<T>, m: nat, n: nat, i: nat, c: nat)
    reads acc
  {
    && acc.Length0 == GEMV_ROW_BLOCK && acc.Length1 == FOLD_LANES
    && m * n <= |a| && |x| == n && i + GEMV_ROW_BLOCK <= m && FOLD_LANES * c <= n
    && (forall r, l :: 0 <= r < GEMV_ROW_BLOCK && 0 <= l < FOLD_LANES ==>
          acc[r, l] == DotLane(O, RowAt(a, m, n, i + r), x, l, c))
  }

  method AccumulateRow<T>(O: Ops<T>, acc: array2<T>, a: seq<T>, x: seq<T>, m: nat, n: nat, i: nat, c: nat, r: nat)
    requires acc.Length0 == GEMV_ROW_BLOCK && acc.Length1 == FOLD_LANES && r < GEMV_ROW_BLOCK
    requires m * n <= |a| && |x| == n && i + r < m && FOLD_LANES * c + FOLD_LANES <= n
    requires forall l :: 0 <= l < FOLD_LANES ==> acc[r, l] == DotLane(O, RowAt(a, m, n, i + r), x, l, c)
    modifies acc
    ensures forall q, l :: 0 <= q < GEMV_ROW_BLOCK && 0 <= l < FOLD_LANES ==>
              acc[q, l] == if q == r then DotLane(O, RowAt(a, m, n, i + r), x, l, c + 1) else old(acc[q, l])
  {
    hide RowAt;
    ghost var xs := RowAt(a, m, n, i + r);
    for l := 0 to FOLD_LANES
      invariant forall q, t :: 0 <= q < GEMV_ROW_BLOCK && 0 <= t < FOLD_LANES ==>
                  acc[q, t] == if q == r && t < l then DotLane(O, xs, x, t, c + 1) else old(acc[q, t])
    {
      acc[r, l] := O.add(acc[r, l], O.mul(a[At(i + r, n, FOLD_LANES * c + l, m)], x[FOLD_LANES * c + l]));
    }
  }

  method AccumulateRows<T>(O: Ops<T>, acc: array2<T>, a: seq<T>, x: seq<T>, m: nat, n: nat, i: nat, c: nat)
    requires RowsAccumulated(O, acc, a, x, m, n, i, c) && FOLD_LANES * c + FOLD_LANES <= n
    modifies acc
    ensures RowsAccumulated(O, acc, a, x, m, n, i, c + 1)
  {
    hide RowAt, DotLane;
    var next := c + 1;
    for r := 0 to GEMV_ROW_BLOCK
      invariant forall q, l :: 0 <= q < GEMV_ROW_BLOCK && 0 <= l < FOLD_LANES ==>
                  acc[q, l] == DotLane(O, RowAt(a, m, n, i + q), x, l, if q < r then next else c)
    {
      AccumulateRow(O, acc, a, x, m, n, i, c, r);
    }
  }

  /** The four rows from `i`. */
  method GemvBlock<T>(O: Ops<T>, a: seq<T>, x: seq<T>, m: nat, n: nat, i: nat, out: array<T>, ghost was: seq<T>)
    requires m * n <= |a| && |x| == n && i + GEMV_ROW_BLOCK <= m <= out.Length == |was|
    requires RowsDone(out[..], RowDots(O, a, x, m, n), was, i)
    modifies out
    ensures RowsDone(out[..], RowDots(O, a, x, m, n), was, i + GEMV_ROW_BLOCK)
  {
    hide RowAt, DotLane, DenseProducts.Dot, RowsDone;
    ghost var spec := RowDots(O, a, x, m, n);
    hide RowDots;
    var acc := new T[GEMV_ROW_BLOCK, FOLD_LANES]((_, _) => O.zero);
    NoRows(O, acc, a, x, m, n, i);
    for c := 0 to n / FOLD_LANES
      invariant RowsAccumulated(O, acc, a, x, m, n, i, c)
      invariant out[..] == old(out[..])
    {
      AccumulateRows(O, acc, a, x, m, n, i, c);
    }
    for r := 0 to GEMV_ROW_BLOCK
      invariant RowsAccumulated(O, acc, a, x, m, n, i, n / FOLD_LANES)
      invariant RowsDone(out[..], spec, was, i + r)
    {
      var s := DotRest(O, RowAt(a, m, n, i + r), x, acc[r, 0], acc[r, 1], acc[r, 2], acc[r, 3]);
      PutNext(out[..], spec, was, i + r, s);
      out[i + r] := s;
    }
  }

  /** The product of `a` and `x` by blocks of four rows. */
  method Gemv<T>(O: Ops<T>, a: seq<T>, x: seq<T>, m: nat, n: nat, out: array<T>)
    requires m * n <= |a| && |x| == n && m <= out.Length
    modifies out
    ensures out[..m] == RowDots(O, a, x, m, n) && out[m..] == old(out[m..])
  {
    hide RowAt, DotLane, DenseProducts.Dot;
    ghost var was := out[..];
    ghost var spec := RowDots(O, a, x, m, n);
    var i := 0;
    while i + GEMV_ROW_BLOCK <= m
      invariant i <= m && RowsDone(out[..], spec, was, i)
    {
      GemvBlock(O, a, x, m, n, i, out, was);
      i := i + GEMV_ROW_BLOCK;
    }
    for r := i to m
      invariant RowsDone(out[..], spec, was, r)
    {
      var s := DotSlice(O, RowAt(a, m, n, r), x);
      PutNext(out[..], spec, was, r, s);
      out[r] := s;
    }
  }

  /** The first `i` entries are the product's, the others not written yet. */
  ghost predicate RowsDone<T>(out: seq<T>, spec: seq<T>, was: seq<T>, i: nat) {
    i <= |spec| <= |out| == |was| && out[..i] == spec[..i] && out[i..] == was[i..]
  }

  lemma NoRows<T>(O: Ops<T>, acc: array2<T>, a: seq<T>, x: seq<T>, m: nat, n: nat, i: nat)
    requires acc.Length0 == GEMV_ROW_BLOCK && acc.Length1 == FOLD_LANES
    requires m * n <= |a| && |x| == n && i + GEMV_ROW_BLOCK <= m
    requires forall r, l :: 0 <= r < GEMV_ROW_BLOCK && 0 <= l < FOLD_LANES ==> acc[r, l] == O.zero
    ensures RowsAccumulated(O, acc, a, x, m, n, i, 0)
  {
  }

  lemma PutNext<T>(out: seq<T>, spec: seq<T>, was: seq<T>, i: nat, v: T)
    requires RowsDone(out, spec, was, i) && i < |spec| && v == spec[i]
    ensures RowsDone(out[i := v], spec, was, i + 1)
  {
    forall e | i + 1 <= e < |out| ensures out[e] == was[e] { assert out[e] == out[i..][e - i]; }
  }

  // --- folds --------------------------------------------------------------------------------------------

  /** A fold code: the low two bits say keep, `c - d`, `c + d` or `-d`; the next bit, that
      `c` is the product of the entry whose index the rest holds. */
  datatype FoldCode = FoldCode(bits: nat) {
    function Kind(): nat { bits % 4 }
    predicate IsPlain() { Kind() == 0 }
    predicate IsSelf() { (bits / 4) % 2 == 1 }
    function SelfIndex(): nat { bits / 8 }
    predicate ReadsOperand() { (Kind() == 1 || Kind() == 2) && !IsSelf() }
    function Apply<T>(O: Ops<T>, neg: T -> T, acc: T, d: T): T {
      if Kind() == 0 then d else if Kind() == 1 then O.sub(acc, d) else if Kind() == 2 then O.add(acc, d) else neg(d)
    }
  }

  /** Entry `e` folded: against another entry's product, the operand's entry, or, without an
      operand, its own product. */
  function Folded<T>(O: Ops<T>, neg: T -> T, codes: seq<FoldCode>, c: Option<seq<T>>, products: seq<T>, e: nat): T
    requires e < |products| <= |codes| && (c.Some? ==> |products| <= |c.value|)
    requires codes[e].IsSelf() ==> codes[e].IsPlain() || codes[e].SelfIndex() < |products|
  {
    var f := codes[e];
    if f.IsPlain() then products[e]
    else
      f.Apply(O, neg, if f.IsSelf() then products[f.SelfIndex()]
              else if c.Some? then c.value[e] else products[e], products[e])
  }

  /** A self fold reads an entry of the block, one that stays plain if it is folded first. */
  ghost predicate FoldsOk<T>(codes: seq<FoldCode>, c: Option<seq<T>>, width: nat) {
    && width <= |codes| && (c.Some? ==> width <= |c.value|)
    && forall e :: 0 <= e < width && codes[e].IsSelf() && !codes[e].IsPlain() ==>
         codes[e].SelfIndex() < width && (codes[e].SelfIndex() < e ==> codes[codes[e].SelfIndex()].IsPlain())
  }

  function FoldedBlock<T>(O: Ops<T>, neg: T -> T, codes: seq<FoldCode>, c: Option<seq<T>>,
                          products: seq<T>): (r: seq<T>)
    requires FoldsOk(codes, c, |products|)
    ensures |r| == |products| && forall e :: 0 <= e < |products| ==> r[e] == Folded(O, neg, codes, c, products, e)
  {
    seq(|products|, e requires 0 <= e < |products| => Folded(O, neg, codes, c, products, e))
  }

  /** The folds of a block of products, in place and in entry order. */
  method FoldInPlace<T>(O: Ops<T>, neg: T -> T, codes: seq<FoldCode>, c: Option<seq<T>>, out: array<T>)
    requires FoldsOk(codes, c, out.Length)
    modifies out
    ensures out[..] == FoldedBlock(O, neg, codes, c, old(out[..]))
  {
    ghost var products := out[..];
    for i := 0 to out.Length
      invariant forall e :: 0 <= e < out.Length ==>
                  out[e] == if e < i then Folded(O, neg, codes, c, products, e) else products[e]
    {
      var f := codes[i];
      if !f.IsPlain() {
        var acc := if f.IsSelf() then out[f.SelfIndex()] else if c.Some? then c.value[i] else out[i];
        assert f.IsSelf() ==> acc == products[f.SelfIndex()];
        out[i] := f.Apply(O, neg, acc, out[i]);
      }
    }
  }

  predicate AnySelf(codes: seq<FoldCode>) { exists e :: 0 <= e < |codes| && codes[e].IsSelf() }

  /** What becomes of a fold stored at once. */
  function FoldAtStore<T>(O: Ops<T>, neg: T -> T, codes: seq<FoldCode>, c: Option<seq<T>>): (nat, T) -> T {
    (e: nat, v: T) =>
      if e < |codes| then codes[e].Apply(O, neg, if c.Some? && e < |c.value| then c.value[e] else v, v) else v
  }

  function Kept<T>(): (nat, T) -> T { (e: nat, v: T) => v }

  /** Folds stored with their products are the folds of the stored products. */
  lemma StoreFolds<T>(O: Ops<T>, neg: T -> T, codes: seq<FoldCode>, c: Option<seq<T>>, a: seq<T>, b: seq<T>, m: nat,
                      k: nat, n: nat)
    requires m * k <= |a| && n * k <= |b| && FoldsOk(codes, c, m * n)
    requires forall e :: 0 <= e < m * n ==> codes[e].IsPlain() || codes[e].Kind() == 3 || !codes[e].IsSelf()
    ensures Block(O, a, b, m, k, n, FoldAtStore(O, neg, codes, c)) ==
            FoldedBlock(O, neg, codes, c, Block(O, a, b, m, k, n, Kept()))
  {
    hide Entry, Block;
    var plain, folded := Block(O, a, b, m, k, n, Kept()), Block(O, a, b, m, k, n, FoldAtStore(O, neg, codes, c));
    forall e: nat | e < m * n ensures folded[e] == Folded(O, neg, codes, c, plain, e) {
      PartsAt(e, m, n);
      var i, j := HiOf(e, n), LoOf(e, n);
      assert plain[At(i, n, j, m)] == Entry(O, a, b, m, k, n, i, j);
    }
  }

  /** The folding product: self folds after every product is stored, the others at the
      store. Either way the block is the products' folds. */
  method GemmFold<T>(O: Ops<T>, neg: T -> T, a: seq<T>, b: seq<T>, m: nat, k: nat, n: nat, c: Option<seq<T>>,
                     codes: seq<FoldCode>, out: array<T>)
    requires m * k <= |a| && n * k <= |b| && out.Length == m * n == |codes| && FoldsOk(codes, c, m * n)
    modifies out
    ensures out[..] == FoldedBlock(O, neg, codes, c, Block(O, a, b, m, k, n, Kept()))
  {
    hide Block, FoldsOk, Folded;
    if AnySelf(codes) {
      ghost var _ := GemmWith(O, a, b, m, k, n, Kept(), out);
      assert out[..] == out[..m * n];
      FoldInPlace(O, neg, codes, c, out);
    } else {
      StoreFolds(O, neg, codes, c, a, b, m, k, n);
      ghost var _ := GemmWith(O, a, b, m, k, n, FoldAtStore(O, neg, codes, c), out);
      assert out[..] == out[..m * n];
    }
  }

  /** The same result by the code path that decodes a uniform fold once. */
  method GemmFoldUniform<T>(O: Ops<T>, neg: T -> T, a: seq<T>, b: seq<T>, m: nat, k: nat, n: nat, c: Option<seq<T>>,
                            codes: seq<FoldCode>, out: array<T>)
    requires m * k <= |a| && n * k <= |b| && out.Length == m * n == |codes| && m * n > 0 && FoldsOk(codes, c, m * n)
    modifies out
    ensures out[..] == FoldedBlock(O, neg, codes, c, Block(O, a, b, m, k, n, Kept()))
  {
    hide Block, FoldsOk, Folded;
    var f := codes[0];
    if (forall e :: 0 <= e < |codes| ==> codes[e] == f)
        && (f.Kind() == 0 || f.Kind() == 3 || (!f.IsSelf() && c.Some?)) {
      StoreFolds(O, neg, codes, c, a, b, m, k, n);
      var store: (nat, T) -> T :=
        if f.Kind() == 0 then Kept() else if f.Kind() == 3 then (e: nat, v: T) => neg(v)
        else if f.Kind() == 1 then (e: nat, v: T) => O.sub(if e < |c.value| then c.value[e] else v, v)
        else (e: nat, v: T) => O.add(if e < |c.value| then c.value[e] else v, v);
      SameStores(O, a, b, m, k, n, store, FoldAtStore(O, neg, codes, c));
      ghost var _ := GemmWith(O, a, b, m, k, n, store, out);
      assert out[..] == out[..m * n];
    } else {
      GemmFold(O, neg, a, b, m, k, n, c, codes, out);
    }
  }

  lemma SameStores<T>(O: Ops<T>, a: seq<T>, b: seq<T>, m: nat, k: nat, n: nat, f: (nat, T) -> T, g: (nat, T) -> T)
    requires m * k <= |a| && n * k <= |b|
    requires forall e: nat, v: T :: e < m * n ==> f(e, v) == g(e, v)
    ensures Block(O, a, b, m, k, n, f) == Block(O, a, b, m, k, n, g)
  {
    hide Entry, Block;
    forall e: nat | e < m * n ensures Block(O, a, b, m, k, n, f)[e] == Block(O, a, b, m, k, n, g)[e] {
      PartsAt(e, m, n);
      var i, j := HiOf(e, n), LoOf(e, n);
      var v := Entry(O, a, b, m, k, n, i, j);
      assert f(At(i, n, j, m), v) == g(At(i, n, j, m), v);
    }
  }

  /** The folding matrix-vector product. */
  method GemvFold<T>(O: Ops<T>, neg: T -> T, a: seq<T>, x: seq<T>, m: nat, n: nat, c: Option<seq<T>>,
                     codes: seq<FoldCode>, out: array<T>)
    requires m * n <= |a| && |x| == n && out.Length == m && FoldsOk(codes, c, m)
    modifies out
    ensures out[..] == FoldedBlock(O, neg, codes, c, RowDots(O, a, x, m, n))
  {
    hide FoldsOk, Folded, RowDots;
    Gemv(O, a, x, m, n, out);
    assert out[..] == out[..m];
    FoldInPlace(O, neg, codes, c, out);
  }
}
