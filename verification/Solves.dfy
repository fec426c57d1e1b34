/** Over an exact field, whatever the rule that chooses pivots, elimination and back
    substitution solve the system as long as no chosen pivot is zero. */
module Solves {
  import opened Basics
  import opened Elimination

  /** The reals, with any rule of magnitudes. */
  function Reals(mag: real -> real, gt: (real, real) -> bool): Ops<real> {
    Ops(0.0, (x: real, y: real) => x + y, (x: real, y: real) => x - y, (x: real, y: real) => x * y,
        (x: real, y: real) => if y == 0.0 then 0.0 else x / y, mag, gt)
  }

  /** Row `i` from column `from` up to `end`, times `x`. */
  function RowTimes(m: Matrix<real>, n: nat, w: nat, i: nat, from: nat, end: nat, x: seq<real>): real
    requires Shape(m, n, w) && i < n && from <= end <= w && end <= |x|
  {
    if from == end then 0.0 else RowTimes(m, n, w, i, from, end - 1, x) + Prod(m[i][end - 1], x[end - 1])
  }

  lemma {:induction false} RowFirst(m: Matrix<real>, n: nat, w: nat, i: nat, from: nat, end: nat, x: seq<real>)
    requires Shape(m, n, w) && i < n && from < end <= w && end <= |x|
    ensures RowTimes(m, n, w, i, from, end, x) == Prod(m[i][from], x[from]) + RowTimes(m, n, w, i, from + 1, end, x)
    decreases end
  {
    hide Prod;
    if from + 1 < end { RowFirst(m, n, w, i, from, end - 1, x); }
  }

  lemma {:induction false} RowSame(a: Matrix<real>, b: Matrix<real>, n: nat, w: nat, i: nat, from: nat, end: nat,
                                   x: seq<real>)
    requires Shape(a, n, w) && Shape(b, n, w) && i < n && from <= end <= w && end <= |x|
    requires forall j :: from <= j < end ==> a[i][j] == b[i][j]
    ensures RowTimes(a, n, w, i, from, end, x) == RowTimes(b, n, w, i, from, end, x)
    decreases end
  {
    hide Prod;
    if from < end { RowSame(a, b, n, w, i, from, end - 1, x); }
  }

  lemma Distribute(s: real, l: real, t: real, x: real)
    ensures Prod(s - Prod(l, t), x) == Prod(s, x) - Prod(l, Prod(t, x))
  {
  }

  lemma Linear(l: real, a: real, b: real)
    ensures Prod(l, a + b) == Prod(l, a) + Prod(l, b) && Prod(l, a - b) == Prod(l, a) - Prod(l, b)
  {
  }

  /** A row less a multiple of another, times `x`. */
  lemma {:induction false} RowCombine(m: Matrix<real>, s: Matrix<real>, n: nat, w: nat, i: nat, k: nat, l: real,
                                      from: nat, end: nat, x: seq<real>)
    requires Shape(m, n, w) && Shape(s, n, w) && i < n && k < n && from <= end <= w && end <= |x|
    requires forall j :: from <= j < end ==> m[i][j] == s[i][j] - Prod(l, s[k][j])
    ensures RowTimes(m, n, w, i, from, end, x) ==
            RowTimes(s, n, w, i, from, end, x) - Prod(l, RowTimes(s, n, w, k, from, end, x))
    decreases end
  {
    hide Prod;
    if from == end {
      ProdZero(l);
    } else {
      RowCombine(m, s, n, w, i, k, l, from, end - 1, x);
      Distribute(s[i][end - 1], l, s[k][end - 1], x[end - 1]);
      Linear(l, RowTimes(s, n, w, k, from, end - 1, x), Prod(s[k][end - 1], x[end - 1]));
    }
  }

  lemma ProdZero(l: real)
    ensures Prod(l, 0.0) == 0.0 && Prod(0.0, l) == 0.0
  {
  }

  /** How far row `i` is from its right-hand side `c` at `x` once `k` columns are eliminated:
      what stands below a pivot is a multiplier, the entry itself zero. */
  function Residual(m: Matrix<real>, n: nat, w: nat, c: nat, k: nat, i: nat, x: seq<real>): real
    requires Shape(m, n, w) && n + c < w && i < n && |x| == n
  {
    RowTimes(m, n, w, i, Least(i, k), n, x) - m[i][n + c]
  }

  /** Eliminating a column takes a multiple of the pivot row's residual from every row below. */
  lemma StepResidual(O: Ops<real>, m: Matrix<real>, n: nat, w: nat, c: nat, k: nat, i: nat, x: seq<real>,
                     mag: real -> real, gt: (real, real) -> bool)
    requires O == Reals(mag, gt) && Shape(m, n, w) && n + c < w && k < n && i < n && |x| == n
    requires Swapped(m, k, Pivot(O, m, n, w, k))[k][k] != 0.0
    ensures var s, r := Swapped(m, k, Pivot(O, m, n, w, k)), Step(O, m, n, w, k);
            Shape(s, n, w) &&
            (if i <= k then Residual(r, n, w, c, k + 1, i, x) == Residual(s, n, w, c, k, i, x)
             else Residual(r, n, w, c, k + 1, i, x) ==
                  Residual(s, n, w, c, k, i, x) - Prod(O.div(s[i][k], s[k][k]), Residual(s, n, w, c, k, k, x)))
  {
    hide Prod, RowTimes, Pivot;
    var s, r := Swapped(m, k, Pivot(O, m, n, w, k)), Step(O, m, n, w, k);
    if i <= k {
      RowSame(r, s, n, w, i, i, n, x);
    } else {
      var l := O.div(s[i][k], s[k][k]);
      RowFirst(s, n, w, i, k, n, x);
      RowFirst(s, n, w, k, k, n, x);
      forall j | k < j < w ensures r[i][j] == s[i][j] - Prod(l, s[k][j]) { ReducedReal(mag, gt, s, n, w, k, i, j); }
      RowCombine(r, s, n, w, i, k, l, k + 1, n, x);
      Multiplier(s[i][k], s[k][k], x[k]);
      Linear(l, Prod(s[k][k], x[k]), RowTimes(s, n, w, k, k + 1, n, x));
      Linear(l, Prod(s[k][k], x[k]) + RowTimes(s, n, w, k, k + 1, n, x), s[k][n + c]);
    }
  }

  lemma ReducedReal(mag: real -> real, gt: (real, real) -> bool, s: Matrix<real>, n: nat, w: nat, k: nat, i: nat,
                    j: nat)
    requires Shape(s, n, w) && k < i < n && k < j < w
    ensures Reduced(Reals(mag, gt), s, n, w, k, i, j) == s[i][j] - Prod(Reals(mag, gt).div(s[i][k], s[k][k]), s[k][j])
  {
  }

  lemma Multiplier(a: real, p: real, x: real)
    requires p != 0.0
    ensures Prod(a / p, Prod(p, x)) == Prod(a, x)
  {
    var l := a / p;
    assert l * p == a;
    assert l * (p * x) == (l * p) * x;
  }

  /** A solution of the eliminated rows solves the rows before the elimination. */
  lemma StepSolves(O: Ops<real>, m: Matrix<real>, n: nat, w: nat, c: nat, k: nat, x: seq<real>,
                   mag: real -> real, gt: (real, real) -> bool)
    requires O == Reals(mag, gt) && Shape(m, n, w) && n + c < w && k < n && |x| == n
    requires Swapped(m, k, Pivot(O, m, n, w, k))[k][k] != 0.0
    requires var r, next := Step(O, m, n, w, k), k + 1;
             forall i :: 0 <= i < n ==> Residual(r, n, w, c, next, i, x) == 0.0
    ensures forall i :: 0 <= i < n ==> Residual(m, n, w, c, k, i, x) == 0.0
  {
    hide Prod, RowTimes, Step, Residual, Pivot;
    var p := Pivot(O, m, n, w, k);
    var s := Swapped(m, k, p);
    StepResidual(O, m, n, w, c, k, k, x, mag, gt);
    forall i | 0 <= i < n ensures Residual(s, n, w, c, k, i, x) == 0.0 {
      StepResidual(O, m, n, w, c, k, i, x, mag, gt);
      ProdZero(O.div(s[i][k], s[k][k]));
    }
    forall i | 0 <= i < n ensures Residual(m, n, w, c, k, i, x) == 0.0 {
      SwappedResidual(m, n, w, c, k, p, i, x);
    }
  }

  /** Two rows at or below the pivot swap their residuals. */
  lemma SwappedResidual(m: Matrix<real>, n: nat, w: nat, c: nat, k: nat, p: nat, i: nat, x: seq<real>)
    requires Shape(m, n, w) && n + c < w && k <= p < n && i < n && |x| == n
    ensures Shape(Swapped(m, k, p), n, w)
    ensures Residual(m, n, w, c, k, i, x) ==
            Residual(Swapped(m, k, p), n, w, c, k, if i == k then p else if i == p then k else i, x)
  {
    var s := Swapped(m, k, p);
    var q := if i == k then p else if i == p then k else i;
    assert s[q] == m[i] && Least(i, k) == Least(q, k);
    RowMoved(m, s, n, w, i, q, Least(i, k), n, x);
  }

  lemma {:induction false} RowMoved(a: Matrix<real>, b: Matrix<real>, n: nat, w: nat, i: nat, q: nat, from: nat,
                                    end: nat, x: seq<real>)
    requires Shape(a, n, w) && Shape(b, n, w) && i < n && q < n && from <= end <= w && end <= |x| && b[q] == a[i]
    ensures RowTimes(b, n, w, q, from, end, x) == RowTimes(a, n, w, i, from, end, x)
    decreases end
  {
    hide Prod;
    if from < end { RowMoved(a, b, n, w, i, q, from, end - 1, x); }
  }

  /** A step leaves the rows above its pivot. */
  lemma StepAbove(O: Ops<real>, e: Matrix<real>, n: nat, w: nat, k: nat, i: nat)
    requires Shape(e, n, w) && i < k < n <= w
    ensures Step(O, e, n, w, k)[i] == e[i]
  {
    hide Pivot;
    var s := Swapped(e, k, Pivot(O, e, n, w, k));
    assert s[i] == e[i];
    forall j | 0 <= j < w ensures Step(O, e, n, w, k)[i][j] == e[i][j] {}
  }

  /** A row above the column being eliminated is final. */
  lemma {:induction false} RowFinal(O: Ops<real>, m: Matrix<real>, n: nat, w: nat, i: nat, k: nat)
    requires Shape(m, n, w) && i < k <= n <= w
    ensures Eliminated(O, m, n, w, k)[i] == Eliminated(O, m, n, w, i + 1)[i]
    decreases k
  {
    hide Step, Eliminated;
    if i + 1 < k {
      RowFinal(O, m, n, w, i, k - 1);
      EliminatedNext(O, m, n, w, k - 1);
      StepAbove(O, Eliminated(O, m, n, w, k - 1), n, w, k - 1, i);
    }
  }

  /** The pivots are the eliminated matrix's diagonal. */
  lemma {:induction false} PivotIs(O: Ops<real>, m: Matrix<real>, n: nat, w: nat, k: nat)
    requires Shape(m, n, w) && k < n <= w
    ensures var e := Eliminated(O, m, n, w, k);
            Eliminated(O, m, n, w, n)[k][k] == Swapped(e, k, Pivot(O, e, n, w, k))[k][k]
  {
    hide Pivot;
    RowFinal(O, m, n, w, k, n);
    var e := Eliminated(O, m, n, w, k);
    assert Eliminated(O, m, n, w, k + 1) == Step(O, e, n, w, k);
  }

  /** Solving the eliminated rows solves the rows of every earlier stage. */
  lemma {:induction false} StagesSolve(O: Ops<real>, m: Matrix<real>, n: nat, w: nat, c: nat, k: nat, x: seq<real>,
                                       mag: real -> real, gt: (real, real) -> bool)
    requires O == Reals(mag, gt) && Shape(m, n, w) && n + c < w && k <= n && |x| == n
    requires forall i :: 0 <= i < n ==> Eliminated(O, m, n, w, n)[i][i] != 0.0
    requires forall i :: 0 <= i < n ==> Residual(Eliminated(O, m, n, w, n), n, w, c, n, i, x) == 0.0
    ensures forall i :: 0 <= i < n ==> Residual(Eliminated(O, m, n, w, k), n, w, c, k, i, x) == 0.0
    decreases n - k
  {
    hide Residual, Step, Pivot;
    if k < n {
      StagesSolve(O, m, n, w, c, k + 1, x, mag, gt);
      PivotIs(O, m, n, w, k);
      var e, next := Eliminated(O, m, n, w, k), k + 1;
      assert Eliminated(O, m, n, w, next) == Step(O, e, n, w, k);
      StepSolves(O, e, n, w, c, k, x, mag, gt);
    }
  }

  function Unknowns(O: Ops<real>, m: Matrix<real>, n: nat, w: nat, c: nat): (x: seq<real>)
    requires Shape(m, n, w) && n + c < w
    ensures |x| == n && forall i :: 0 <= i < n ==> x[i] == Unknown(O, m, n, w, c, i)
  {
    seq(n, i requires 0 <= i < n => Unknown(O, m, n, w, c, i))
  }

  /** What back substitution leaves of a row is the right-hand side less the row's part. */
  lemma {:induction false} RemainderIs(O: Ops<real>, m: Matrix<real>, n: nat, w: nat, c: nat, i: nat, upto: nat,
                                       mag: real -> real, gt: (real, real) -> bool)
    requires O == Reals(mag, gt) && Shape(m, n, w) && n + c < w && i < upto <= n
    ensures Remainder(O, m, n, w, c, i, upto) ==
            m[i][n + c] - RowTimes(m, n, w, i, i + 1, upto, Unknowns(O, m, n, w, c))
    decreases upto
  {
    hide Unknown;
    if upto > i + 1 { RemainderIs(O, m, n, w, c, i, upto - 1, mag, gt); }
  }

  /** Back substitution solves the eliminated rows. */
  lemma BackSolves(O: Ops<real>, m: Matrix<real>, n: nat, w: nat, c: nat, i: nat, mag: real -> real,
                   gt: (real, real) -> bool)
    requires O == Reals(mag, gt) && Shape(m, n, w) && n + c < w && i < n && m[i][i] != 0.0
    ensures Residual(m, n, w, c, n, i, Unknowns(O, m, n, w, c)) == 0.0
  {
    hide RowTimes, Remainder;
    var x := Unknowns(O, m, n, w, c);
    RemainderIs(O, m, n, w, c, i, n, mag, gt);
    RowFirst(m, n, w, i, i, n, x);
    var s, d := Remainder(O, m, n, w, c, i, n), m[i][i];
    assert x[i] == s / d;
    assert Prod(d, s / d) == s;
  }

  /** `A x = b`: every row of the matrix times the solution is its right-hand side, if no
      chosen pivot is zero. */
  lemma EliminationSolves(O: Ops<real>, m: Matrix<real>, n: nat, w: nat, c: nat, i: nat, mag: real -> real,
                          gt: (real, real) -> bool)
    requires O == Reals(mag, gt) && Shape(m, n, w) && n + c < w && i < n
    requires forall k :: 0 <= k < n ==> Eliminated(O, m, n, w, n)[k][k] != 0.0
    ensures RowTimes(m, n, w, i, 0, n, Unknowns(O, Eliminated(O, m, n, w, n), n, w, c)) == m[i][n + c]
  {
    hide Eliminated, Unknowns, RowTimes;
    var e := Eliminated(O, m, n, w, n);
    var x := Unknowns(O, e, n, w, c);
    forall q | 0 <= q < n ensures Residual(e, n, w, c, n, q, x) == 0.0 { BackSolves(O, e, n, w, c, q, mag, gt); }
    StagesSolve(O, m, n, w, c, 0, x, mag, gt);
    NotYet(O, m, n, w);
    assert Residual(m, n, w, c, 0, i, x) == 0.0;
  }

  lemma NotYet(O: Ops<real>, m: Matrix<real>, n: nat, w: nat)
    requires Shape(m, n, w) && n <= w
    ensures Eliminated(O, m, n, w, 0) == m
  {
  }
}
