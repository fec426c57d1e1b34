/** What a folded product means where a scalar is the exact reals: each entry a sum of products
    of a row and a column, then kept, taken from an accumulator, added to it or negated. */
module ProductMeanings {
  import opened Basics
  import opened Elimination
  import opened InlineProducts
  import opened ProductFolds
  import opened RealMeanings
  import opened Scalars
  import DenseProducts

  /** `a[i][l] * b[j][l]` added up over the first `upto` places, the rows `k` long. */
  function EntrySum(a: seq<real>, b: seq<real>, k: nat, i: nat, j: nat, upto: nat): real
    requires upto <= k && i * k + k <= |a| && j * k + k <= |b|
  {
    if upto == 0 then 0.0 else EntrySum(a, b, k, i, j, upto - 1) + a[i * k + (upto - 1)] * b[j * k + (upto - 1)]
  }

  lemma RowFits(i: nat, m: nat, k: nat)
    requires i < m
    ensures i * k + k <= m * k
  {
    assert (m - i - 1) * k >= 0;
    assert m * k == i * k + k + (m - i - 1) * k;
  }

  lemma {:induction false} DotOverRows(a: seq<real>, b: seq<real>, m: nat, k: nat, n: nat, i: nat, j: nat, upto: nat)
    requires m * k <= |a| && n * k <= |b| && i < m && j < n && upto <= k
    ensures i * k + k <= |a| && j * k + k <= |b|
    ensures DotTo(DenseProducts.RowAt(a, m, k, i), DenseProducts.RowAt(b, n, k, j), upto) ==
            EntrySum(a, b, k, i, j, upto)
    decreases upto
  {
    RowFits(i, m, k);
    RowFits(j, n, k);
    if upto > 0 {
      DotOverRows(a, b, m, k, n, i, j, upto - 1);
      var x, y := DenseProducts.RowAt(a, m, k, i), DenseProducts.RowAt(b, n, k, j);
      var l := upto - 1;
      assert x[l] == a[Elimination.At(i, k, l, m)] == a[i * k + l];
      assert y[l] == b[Elimination.At(j, k, l, n)] == b[j * k + l];
    }
  }

  /** A code's low two bits: kept, subtracted from the accumulator, added to it, negated; the
      accumulator by the next bit another entry's product, else the operand's entry, else its
      own product. */
  ghost predicate FoldMeaning(products: seq<real>, c: Option<seq<real>>, bits: nat, e: nat, r: real)
    requires e < |products| && (c.Some? ==> |products| <= |c.value|)
    requires bits % 4 != 0 && bits / 4 % 2 == 1 ==> bits / 8 < |products|
  {
    var acc := if bits % 4 == 0 then 0.0
               else if bits / 4 % 2 == 1 then products[bits / 8]
               else if c.Some? then c.value[e] else products[e];
    && (bits % 4 == 0 ==> r == products[e])
    && (bits % 4 == 1 ==> r == acc - products[e])
    && (bits % 4 == 2 ==> r == acc + products[e])
    && (bits % 4 == 3 ==> r == -products[e])
  }

  /** Entry `(i, j)` of a folded product, whichever kernel or op stream leaves it. */
  lemma ProductMeans(A: Alg<real>, mag: real -> real, gt: (real, real) -> bool, a: seq<real>, b: seq<real>, m: nat,
                     k: nat, n: nat, c: Option<seq<real>>, codes: seq<FoldCode>, i: nat, j: nat)
    requires RealArith(A) && m * k <= |a| && n * k <= |b| && FoldsOk(codes, c, m * n) && i < m && j < n
    ensures i * n + j < m * n && i * k + k <= |a| && j * k + k <= |b|
    ensures var O := OpsOf(A, mag, gt);
            var products := DenseProducts.Block(O, a, b, m, k, n, Kept());
            && products[i * n + j] == EntrySum(a, b, k, i, j, k)
            && (codes[i * n + j].bits % 4 != 0 && codes[i * n + j].bits / 4 % 2 == 1 ==>
                  codes[i * n + j].bits / 8 < |products|)
            && FoldMeaning(products, c, codes[i * n + j].bits, i * n + j,
                           FoldedBlock(O, NegOf(A), codes, c, products)[i * n + j])
  {
    hide DenseProducts.Dot, DenseProducts.Block, DotVal, EntrySum, DotTo;
    var O := OpsOf(A, mag, gt);
    var e := Elimination.At(i, n, j, m);
    var x, y := DenseProducts.RowAt(a, m, k, i), DenseProducts.RowAt(b, n, k, j);
    DenseProducts.BlockAt(O, a, b, m, k, n, Kept<real>(), i, j);
    DotIs(A, mag, gt, x, y);
    DotMeans(A, false, x, y);
    DotOverRows(a, b, m, k, n, i, j, k);
  }
}
