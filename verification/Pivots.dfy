/** Pivoting by the largest magnitude over the reals: which row it takes, and that it never
    meets a zero pivot exactly where the matrix is nonsingular. */
module Pivots {
  import opened Basics
  import opened BlockedSolves
  import opened Elimination
  import opened PanelKernels
  import opened Solves

  function Magnitude(x: real): real { if x < 0.0 then -x else x }

  /** The reals with partial pivoting. */
  function Partial(): Ops<real> { Reals(Magnitude, (x: real, y: real) => x > y) }

  /** The row taken: its entry is at least every other's in magnitude, and more than any before. */
  lemma {:induction false} LargestUpTo(m: Matrix<real>, n: nat, w: nat, k: nat, i: nat)
    requires Shape(m, n, w) && k < i <= n && k < w
    ensures var p := PivotUpTo(Partial(), m, n, w, k, i);
            && (forall q :: k <= q < i ==> Magnitude(m[q][k]) <= Magnitude(m[p][k]))
            && forall q :: k <= q < p ==> Magnitude(m[q][k]) < Magnitude(m[p][k])
    decreases i
  {
    if i > k + 1 { LargestUpTo(m, n, w, k, i - 1); }
  }

  lemma LargestPivot(m: Matrix<real>, n: nat, w: nat, k: nat)
    requires Shape(m, n, w) && k < n && k < w
    ensures var p := Pivot(Partial(), m, n, w, k);
            && k <= p < n
            && (forall q :: k <= q < n ==> Magnitude(m[q][k]) <= Magnitude(m[p][k]))
            && forall q :: k <= q < p ==> Magnitude(m[q][k]) < Magnitude(m[p][k])
  {
    LargestUpTo(m, n, w, k, n);
  }

  // --- rows times a vector, through the stages -----------------------------------------------------------

  /** Row `i` times `x` once `k` columns are eliminated. */
  function RowAfter(m: Matrix<real>, n: nat, w: nat, k: nat, i: nat, x: seq<real>): real
    requires Shape(m, n, w) && i < n <= w && |x| == n
  { RowTimes(m, n, w, i, Least(i, k), n, x) }

  ghost predicate Annihilates(m: Matrix<real>, n: nat, w: nat, k: nat, x: seq<real>)
    requires Shape(m, n, w) && n <= w && |x| == n
  { forall i :: 0 <= i < n ==> RowAfter(m, n, w, k, i, x) == 0.0 }

  /** Eliminating a column takes a multiple of the pivot row from every row below. */
  lemma StepRow(m: Matrix<real>, n: nat, w: nat, k: nat, i: nat, x: seq<real>)
    requires Shape(m, n, w) && k < n <= w && i < n && |x| == n
    requires Swapped(m, k, Pivot(Partial(), m, n, w, k))[k][k] != 0.0
    ensures var O := Partial(); var s, r := Swapped(m, k, Pivot(O, m, n, w, k)), Step(O, m, n, w, k);
            Shape(s, n, w) &&
            RowAfter(r, n, w, k + 1, i, x) ==
            RowAfter(s, n, w, k, i, x)
            - if i <= k then 0.0 else Prod(O.div(s[i][k], s[k][k]), RowAfter(s, n, w, k, k, x))
  {
    hide Prod, RowTimes, Pivot;
    var O := Partial();
    var s, r := Swapped(m, k, Pivot(O, m, n, w, k)), Step(O, m, n, w, k);
    if i <= k {
      RowSame(r, s, n, w, i, i, n, x);
    } else {
      var l := O.div(s[i][k], s[k][k]);
      RowFirst(s, n, w, i, k, n, x);
      RowFirst(s, n, w, k, k, n, x);
      forall j | k < j < w ensures r[i][j] == s[i][j] - Prod(l, s[k][j]) {
        ReducedReal(O.mag, O.gt, s, n, w, k, i, j);
      }
      RowCombine(r, s, n, w, i, k, l, k + 1, n, x);
      Multiplier(s[i][k], s[k][k], x[k]);
      Linear(l, Prod(s[k][k], x[k]), RowTimes(s, n, w, k, k + 1, n, x));
    }
  }

  /** A step with a nonzero pivot keeps which vectors the rows annihilate. */
  lemma StepKeeps(m: Matrix<real>, n: nat, w: nat, k: nat, x: seq<real>)
    requires Shape(m, n, w) && k < n <= w && |x| == n
    requires Swapped(m, k, Pivot(Partial(), m, n, w, k))[k][k] != 0.0
    ensures Annihilates(Step(Partial(), m, n, w, k), n, w, k + 1, x) <==> Annihilates(m, n, w, k, x)
  {
    hide Prod, RowAfter, Pivot, Step;
    var O := Partial();
    var p := Pivot(O, m, n, w, k);
    var s, r := Swapped(m, k, p), Step(O, m, n, w, k);
    forall i | 0 <= i < n
      ensures RowAfter(m, n, w, k, i, x) == RowAfter(s, n, w, k, if i == k then p else if i == p then k else i, x) {
      SwappedRow(m, n, w, k, p, i, x);
    }
    StepRow(m, n, w, k, k, x);
    forall i | 0 <= i < n
      ensures RowAfter(s, n, w, k, k, x) == 0.0 ==> RowAfter(r, n, w, k + 1, i, x) == RowAfter(s, n, w, k, i, x) {
      StepRow(m, n, w, k, i, x);
      ProdZero(O.div(s[i][k], s[k][k]));
    }
    if Annihilates(r, n, w, k + 1, x) {
      assert RowAfter(r, n, w, k + 1, k, x) == 0.0;
      forall i | 0 <= i < n ensures RowAfter(s, n, w, k, i, x) == 0.0 {
        assert RowAfter(r, n, w, k + 1, i, x) == 0.0;
      }
    }
    if Annihilates(m, n, w, k, x) {
      forall i | 0 <= i < n ensures RowAfter(s, n, w, k, i, x) == 0.0 {
        var q := if i == k then p else if i == p then k else i;
        assert RowAfter(m, n, w, k, q, x) == 0.0;
      }
      var next := k + 1;
      forall i | 0 <= i < n ensures RowAfter(r, n, w, next, i, x) == 0.0 {
        assert RowAfter(s, n, w, k, i, x) == 0.0;
      }
    }
  }

  lemma SwappedRow(m: Matrix<real>, n: nat, w: nat, k: nat, p: nat, i: nat, x: seq<real>)
    requires Shape(m, n, w) && n <= w && k <= p < n && i < n && |x| == n
    ensures Shape(Swapped(m, k, p), n, w)
    ensures RowAfter(m, n, w, k, i, x) ==
            RowAfter(Swapped(m, k, p), n, w, k, if i == k then p else if i == p then k else i, x)
  {
    var s := Swapped(m, k, p);
    var q := if i == k then p else if i == p then k else i;
    assert s[q] == m[i] && Least(i, k) == Least(q, k);
    RowMoved(m, s, n, w, i, q, Least(i, k), n, x);
  }

  /** The first `k` pivots of the whole elimination. */
  ghost predicate PivotsTo(m: Matrix<real>, n: nat, w: nat, k: nat)
    requires Shape(m, n, w) && k <= n <= w
  { forall i :: 0 <= i < k ==> Eliminated(Partial(), m, n, w, n)[i][i] != 0.0 }

  /** Through the first `k` columns the same vectors are annihilated. */
  lemma {:induction false} StagesKeep(m: Matrix<real>, n: nat, w: nat, k: nat, x: seq<real>)
    requires Shape(m, n, w) && k <= n <= w && |x| == n && PivotsTo(m, n, w, k)
    ensures Annihilates(Eliminated(Partial(), m, n, w, k), n, w, k, x) <==> Annihilates(m, n, w, 0, x)
  {
    hide Annihilates, Step, Pivot, Swapped, Eliminated;
    var O := Partial();
    if k > 0 {
      StagesKeep(m, n, w, k - 1, x);
      PivotIs(O, m, n, w, k - 1);
      StepKeeps(Eliminated(O, m, n, w, k - 1), n, w, k - 1, x);
      EliminatedNext(O, m, n, w, k - 1);
    } else {
      EliminatedNone(O, m, n, w);
    }
  }

  // --- a vector the first rows annihilate ------------------------------------------------------------------

  lemma {:induction false} RowIgnores(m: Matrix<real>, n: nat, w: nat, i: nat, from: nat, end: nat, x: seq<real>,
                                      y: seq<real>)
    requires Shape(m, n, w) && i < n <= w && from <= end <= n && |x| == |y| == n
    requires forall j :: from <= j < end ==> x[j] == y[j]
    ensures RowTimes(m, n, w, i, from, end, x) == RowTimes(m, n, w, i, from, end, y)
    decreases end
  {
    hide Prod;
    if from < end { RowIgnores(m, n, w, i, from, end - 1, x, y); }
  }

  /** Beyond column `k` the vector is zero, so a row from `k` on is its entry there. */
  lemma {:induction false} RowEnds(m: Matrix<real>, n: nat, w: nat, i: nat, k: nat, end: nat, x: seq<real>)
    requires Shape(m, n, w) && i < n <= w && k < end <= n && |x| == n
    requires x[k] == 1.0 && forall j :: k < j < n ==> x[j] == 0.0
    ensures RowTimes(m, n, w, i, k, end, x) == m[i][k]
    decreases end
  {
    if end > k + 1 { RowEnds(m, n, w, i, k, end - 1, x); }
  }

  /** With the first pivots nonzero, a vector that is one at `k`, zero after it, and annihilated by
      the rows from `i` up to `k`. */
  lemma {:induction false} Annihilated(e: Matrix<real>, n: nat, w: nat, k: nat, i: nat) returns (x: seq<real>)
    requires Shape(e, n, w) && i <= k < n <= w && forall q :: 0 <= q < k ==> e[q][q] != 0.0
    ensures |x| == n && x[k] == 1.0 && forall j :: k < j < n ==> x[j] == 0.0
    ensures forall q :: i <= q < k ==> RowTimes(e, n, w, q, q, n, x) == 0.0
    decreases k - i
  {
    hide RowTimes, Prod;
    if i == k {
      x := seq(n, j => if j == k then 1.0 else 0.0);
    } else {
      var y := Annihilated(e, n, w, k, i + 1);
      var s, d := RowTimes(e, n, w, i, i + 1, n, y), e[i][i];
      x := y[i := -s / d];
      forall q | i <= q < k ensures RowTimes(e, n, w, q, q, n, x) == 0.0 {
        if q == i {
          RowFirst(e, n, w, i, i, n, x);
          RowIgnores(e, n, w, i, i + 1, n, x, y);
          Quotient(-s, d);
        } else {
          RowIgnores(e, n, w, q, q, n, x, y);
        }
      }
    }
  }

  lemma Quotient(s: real, d: real)
    requires d != 0.0
    ensures Prod(d, s / d) == s
  {
  }

  predicate Zero(x: seq<real>) { forall j :: 0 <= j < |x| ==> x[j] == 0.0 }

  /** No vector but zero is annihilated. */
  ghost predicate Nonsingular(m: Matrix<real>, n: nat, w: nat)
    requires Shape(m, n, w) && n <= w
  {
    forall x: seq<real> :: |x| == n && Annihilates(m, n, w, 0, x) ==> Zero(x)
  }

  /** The pivot after `k` nonzero ones is not zero. */
  lemma NextPivot(m: Matrix<real>, n: nat, w: nat, k: nat)
    requires Shape(m, n, w) && k < n <= w && Nonsingular(m, n, w) && PivotsTo(m, n, w, k)
    ensures Eliminated(Partial(), m, n, w, n)[k][k] != 0.0
  {
    hide RowTimes, Eliminated, Pivot, Swapped;
    var O := Partial();
    var e := Eliminated(O, m, n, w, k);
    PivotIs(O, m, n, w, k);
    LargestPivot(e, n, w, k);
    SwappedAt(e, n, w, k, Pivot(O, e, n, w, k));
    if Eliminated(O, m, n, w, n)[k][k] == 0.0 {
      forall q | 0 <= q < k ensures e[q][q] != 0.0 {
        RowFinal(O, m, n, w, q, k);
        RowFinal(O, m, n, w, q, n);
      }
      var x := Annihilated(e, n, w, k, 0);
      forall i | 0 <= i < n ensures RowAfter(e, n, w, k, i, x) == 0.0 {
        if i >= k {
          RowEnds(e, n, w, i, k, n, x);
          assert Magnitude(e[i][k]) <= Magnitude(e[Pivot(O, e, n, w, k)][k]);
        }
      }
      StagesKeep(m, n, w, k, x);
      assert false;
    }
  }

  lemma SwappedAt(e: Matrix<real>, n: nat, w: nat, k: nat, p: nat)
    requires Shape(e, n, w) && k <= p < n <= w
    ensures Swapped(e, k, p)[k][k] == e[p][k]
  {
  }

  lemma {:induction false} NonsingularTo(m: Matrix<real>, n: nat, w: nat, k: nat)
    requires Shape(m, n, w) && k <= n <= w && Nonsingular(m, n, w)
    ensures PivotsTo(m, n, w, k)
  {
    hide Nonsingular, Eliminated;
    if k > 0 {
      NonsingularTo(m, n, w, k - 1);
      NextPivot(m, n, w, k - 1);
    }
  }

  /** With every pivot nonzero a vector the eliminated rows annihilate is zero. */
  lemma {:induction false} TriangleZero(e: Matrix<real>, n: nat, w: nat, x: seq<real>, i: nat)
    requires Shape(e, n, w) && i <= n <= w && |x| == n && forall q :: 0 <= q < n ==> e[q][q] != 0.0
    requires forall q :: 0 <= q < n ==> RowTimes(e, n, w, q, q, n, x) == 0.0
    ensures forall j :: i <= j < n ==> x[j] == 0.0
    decreases n - i
  {
    hide RowTimes;
    if i < n {
      TriangleZero(e, n, w, x, i + 1);
      RowFirst(e, n, w, i, i, n, x);
      ZeroRow(e, n, w, i, i + 1, n, x);
      assert Prod(e[i][i], x[i]) == 0.0;
      ZeroFactor(e[i][i], x[i]);
    }
  }

  lemma ZeroFactor(a: real, b: real)
    requires a != 0.0 && Prod(a, b) == 0.0
    ensures b == 0.0
  {
  }

  lemma {:induction false} ZeroRow(m: Matrix<real>, n: nat, w: nat, i: nat, from: nat, end: nat, x: seq<real>)
    requires Shape(m, n, w) && i < n <= w && from <= end <= n && |x| == n
    requires forall j :: from <= j < end ==> x[j] == 0.0
    ensures RowTimes(m, n, w, i, from, end, x) == 0.0
    decreases end
  {
    if from < end { ZeroRow(m, n, w, i, from, end - 1, x); }
  }

  lemma PivotsNonsingular(m: Matrix<real>, n: nat, w: nat)
    requires Shape(m, n, w) && n <= w && PivotsTo(m, n, w, n)
    ensures Nonsingular(m, n, w)
  {
    hide Eliminated, RowTimes;
    var e := Eliminated(Partial(), m, n, w, n);
    forall x: seq<real> | |x| == n && Annihilates(m, n, w, 0, x) ensures Zero(x) {
      StagesKeep(m, n, w, n, x);
      forall q | 0 <= q < n ensures RowTimes(e, n, w, q, q, n, x) == 0.0 {
        assert RowAfter(e, n, w, n, q, x) == 0.0;
      }
      TriangleZero(e, n, w, x, 0);
    }
  }

  /** Partial pivoting meets no zero pivot if and only if the matrix is nonsingular. */
  lemma NonsingularPivots(m: Matrix<real>, n: nat, w: nat)
    requires Shape(m, n, w) && n <= w
    ensures Nonsingular(m, n, w) <==> PivotsTo(m, n, w, n)
  {
    hide Eliminated, Nonsingular;
    if Nonsingular(m, n, w) { NonsingularTo(m, n, w, n); }
    if PivotsTo(m, n, w, n) { PivotsNonsingular(m, n, w); }
  }

  // --- the solver ------------------------------------------------------------------------------------------

  ghost predicate SentToZero(a: seq<real>, n: nat, x: seq<real>)
    requires |a| == n * n && |x| == n
  { forall i :: 0 <= i < n ==> FlatRow(a, n, i, x, n) == 0.0 }

  /** No vector but zero is sent to zero by the flat matrix `a`. */
  ghost predicate Invertible(a: seq<real>, n: nat)
    requires |a| == n * n
  {
    forall x: seq<real> :: |x| == n && SentToZero(a, n, x) ==> Zero(x)
  }

  lemma InvertibleIs(a: seq<real>, b: seq<real>, n: nat, k: nat)
    requires |a| == n * n && |b| == n * k
    ensures Invertible(a, n) <==> Nonsingular(Augmented(a, b, n, k), n, n + k)
  {
    hide Augmented, RowTimes, FlatRow;
    var m := Augmented(a, b, n, k);
    forall x: seq<real> | |x| == n ensures Annihilates(m, n, n + k, 0, x) <==> SentToZero(a, n, x) {
      AnnihilatesIs(a, b, n, k, x);
    }
  }

  lemma AnnihilatesIs(a: seq<real>, b: seq<real>, n: nat, k: nat, x: seq<real>)
    requires |a| == n * n && |b| == n * k && |x| == n
    ensures Annihilates(Augmented(a, b, n, k), n, n + k, 0, x) <==> SentToZero(a, n, x)
  {
    hide Augmented, RowAfter, FlatRow;
    var m, w := Augmented(a, b, n, k), n + k;
    forall i | 0 <= i < n ensures RowAfter(m, n, w, 0, i, x) == FlatRow(a, n, i, x, n) {
      RowAfterIs(a, b, n, k, i, x);
    }
    if SentToZero(a, n, x) {
      forall i | 0 <= i < n ensures RowAfter(m, n, w, 0, i, x) == 0.0 { assert FlatRow(a, n, i, x, n) == 0.0; }
    }
    if Annihilates(m, n, w, 0, x) {
      forall i | 0 <= i < n ensures FlatRow(a, n, i, x, n) == 0.0 { assert RowAfter(m, n, w, 0, i, x) == 0.0; }
    }
  }

  lemma RowAfterIs(a: seq<real>, b: seq<real>, n: nat, k: nat, i: nat, x: seq<real>)
    requires |a| == n * n && |b| == n * k && i < n && |x| == n
    ensures RowAfter(Augmented(a, b, n, k), n, n + k, 0, i, x) == FlatRow(a, n, i, x, n)
  {
    hide Augmented, RowTimes, FlatRow;
    FlatRowIs(a, b, n, k, i, x, n);
  }

  /** `A x` is right-hand side `c`. */
  ghost predicate SolvedBy(a: seq<real>, b: seq<real>, n: nat, k: nat, c: nat, x: seq<real>)
    requires |a| == n * n && |b| == n * k && c < k && |x| == n
  { forall i :: 0 <= i < n ==> FlatRow(a, n, i, x, n) == b[Elimination.At(c, n, i, k)] }

  /** The solver with partial pivoting has `A x = b` for every invertible matrix, every size, every
      number of right-hand sides and every panel width, and that is the only solution. */
  lemma InvertibleSolves(a: seq<real>, b: seq<real>, n: nat, k: nat, nb: nat, c: nat)
    requires |a| == n * n && |b| == n * k && c < k && Invertible(a, n)
    ensures var x := Answer(Partial(), a, b, n, k, nb, c);
            forall y: seq<real> :: |y| == n ==> (SolvedBy(a, b, n, k, c, y) <==> y == x)
  {
    hide Augmented, FlatRow, Invertible, Answer, Nonsingular, Eliminated, Panels;
    var O, m := Partial(), Augmented(a, b, n, k);
    InvertibleIs(a, b, n, k);
    NonsingularPivots(m, n, n + k);
    FactoredIs(m, n, n + k, nb);
    var x := Answer(O, a, b, n, k, nb, c);
    forall i | 0 <= i < n ensures FlatRow(a, n, i, x, n) == b[Elimination.At(c, n, i, k)] {
      SolverSolves(O.mag, O.gt, a, b, n, k, nb, c, i);
    }
    forall y: seq<real> | |y| == n && SolvedBy(a, b, n, k, c, y) ensures y == x { OnlySolution(a, n, x, y); }
  }

  lemma FactoredIs(m: Matrix<real>, n: nat, w: nat, nb: nat)
    requires Shape(m, n, w) && n <= w
    ensures Factored(Partial(), m, n, w, nb) == Eliminated(Partial(), m, n, w, n)
  {
    hide Eliminated, Panels;
    EliminatedNone(Partial(), m, n, w);
    if nb > 0 { PanelsAre(Partial(), m, n, w, nb, 0, Partial().mag, Partial().gt); }
  }

  lemma {:induction false} FlatDifference(a: seq<real>, n: nat, i: nat, x: seq<real>, y: seq<real>, d: seq<real>,
                                          end: nat)
    requires |a| == n * n && i < n && end <= n && |x| == |y| == |d| == n
    requires forall j :: 0 <= j < n ==> d[j] == x[j] - y[j]
    ensures FlatRow(a, n, i, d, end) == FlatRow(a, n, i, x, end) - FlatRow(a, n, i, y, end)
    decreases end
  {
    if end > 0 {
      FlatDifference(a, n, i, x, y, d, end - 1);
      Linear(a[Elimination.At(i, n, end - 1, n)], x[end - 1], y[end - 1]);
    }
  }

  lemma OnlySolution(a: seq<real>, n: nat, x: seq<real>, y: seq<real>)
    requires |a| == n * n && |x| == |y| == n && Invertible(a, n)
    requires forall i :: 0 <= i < n ==> FlatRow(a, n, i, x, n) == FlatRow(a, n, i, y, n)
    ensures y == x
  {
    hide FlatRow;
    var d := seq(n, j requires 0 <= j < n => x[j] - y[j]);
    forall i | 0 <= i < n ensures FlatRow(a, n, i, d, n) == 0.0 { FlatDifference(a, n, i, x, y, d, n); }
    assert Zero(d);
    forall j | 0 <= j < n ensures x[j] == y[j] { assert d[j] == 0.0; }
  }
}
