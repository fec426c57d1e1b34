/** The panel-blocked elimination: a panel's columns eliminated on their own, its rows then
    applied to the columns right of it, the trailing block reduced by dot products. */
module BlockedSolves {
  import opened Basics
  import opened DenseProducts
  import opened Elimination
  import opened Kernels
  import opened Scalars
  import opened Solves

  /** Systems up to this size are eliminated without panels. */
  const LU_UNBLOCKED_MAX: nat := 64
  const LU_PANEL_SMALL: nat := 16
  const LU_PANEL_LARGE: nat := 32
  const LU_PANEL_SWITCH: nat := 512
  const LU_TRAILING_ROWS: nat := 4

  /** The panel width for `n` unknowns; zero where panels do not pay. */
  function LuPanel(n: nat): nat {
    if n <= LU_UNBLOCKED_MAX then 0 else if n < LU_PANEL_SWITCH then LU_PANEL_SMALL else LU_PANEL_LARGE
  }

  // --- a panel, as functions ----------------------------------------------------------------------------

  /** The panel's columns from `k0` up to `k`, each eliminated from the panel's alone. */
  function PanelColumns<T>(O: Ops<T>, m: Matrix<T>, n: nat, w: nat, k0: nat, k1: nat, k: nat): (r: Matrix<T>)
    requires Shape(m, n, w) && k0 <= k <= k1 <= n <= w
    ensures Shape(r, n, w)
    decreases k
  {
    if k == k0 then m else StepUpto(O, PanelColumns(O, m, n, w, k0, k1, k - 1), n, w, k - 1, k1)
  }

  /** An entry right of the panel in one of its rows, the panel's unit lower triangle
      applied by the rows before `t`. */
  function Applied<T>(O: Ops<T>, m: Matrix<T>, n: nat, w: nat, k0: nat, i: nat, j: nat, t: nat): T
    requires Shape(m, n, w) && k0 <= t <= i < n <= w && j < w
    decreases i, t
  {
    if t == k0 then m[i][j]
    else O.sub(Applied(O, m, n, w, k0, i, j, t - 1), O.mul(m[i][t - 1], Applied(O, m, n, w, k0, t - 1, j, t - 1)))
  }

  /** The multipliers of a row of the trailing block. */
  function RowOf<T>(m: Matrix<T>, n: nat, w: nat, i: nat, k0: nat, k1: nat): (r: seq<T>)
    requires Shape(m, n, w) && i < n && k0 <= k1 <= w
    ensures |r| == k1 - k0
  { m[i][k0..k1] }

  /** The panel's rows of a column right of it. */
  function ColumnOf<T>(O: Ops<T>, m: Matrix<T>, n: nat, w: nat, k0: nat, k1: nat, j: nat): (r: seq<T>)
    requires Shape(m, n, w) && k0 <= k1 <= n <= w && j < w
    ensures |r| == k1 - k0
  { seq(k1 - k0, q requires 0 <= q < k1 - k0 => Applied(O, m, n, w, k0, k0 + q, j, k0 + q)) }

  /** An entry once the panel `k0 .. k1` is done. */
  function PanelEntry<T>(O: Ops<T>, m: Matrix<T>, n: nat, w: nat, k0: nat, k1: nat, i: nat, j: nat): T
    requires Shape(m, n, w) && k0 <= k1 <= n <= w && i < n && j < w
  {
    if j < k1 || i < k0 then m[i][j]
    else if i < k1 then Applied(O, m, n, w, k0, i, j, i)
    else O.sub(m[i][j], Dot(O, RowOf(m, n, w, i, k0, k1), ColumnOf(O, m, n, w, k0, k1, j)))
  }

  function Panel<T>(O: Ops<T>, m: Matrix<T>, n: nat, w: nat, k0: nat, k1: nat): (r: Matrix<T>)
    requires Shape(m, n, w) && k0 <= k1 <= n <= w
    ensures Shape(r, n, w)
    ensures var c := PanelColumns(O, m, n, w, k0, k1, k1);
            forall i, j :: 0 <= i < n && 0 <= j < w ==> r[i][j] == PanelEntry(O, c, n, w, k0, k1, i, j)
  {
    var c := PanelColumns(O, m, n, w, k0, k1, k1);
    seq(n, i requires 0 <= i < n => seq(w, j requires 0 <= j < w => PanelEntry(O, c, n, w, k0, k1, i, j)))
  }

  /** Every panel from column `k0` on. */
  function Panels<T>(O: Ops<T>, m: Matrix<T>, n: nat, w: nat, nb: nat, k0: nat): (r: Matrix<T>)
    requires Shape(m, n, w) && k0 <= n <= w && nb > 0
    ensures Shape(r, n, w)
    decreases n - k0
  {
    if k0 == n then m
    else
      var k1 := Least(k0 + nb, n);
      Panels(O, Panel(O, m, n, w, k0, k1), n, w, nb, k1)
  }

  // --- over an exact field, the panels are the plain elimination -------------------------------------------

  /** `m` with the columns `k0 .. k` eliminated one by one. */
  function StepsFrom<T>(O: Ops<T>, m: Matrix<T>, n: nat, w: nat, k0: nat, k: nat): (r: Matrix<T>)
    requires Shape(m, n, w) && k0 <= k <= n <= w
    ensures Shape(r, n, w)
    decreases k
  {
    if k == k0 then m else Step(O, StepsFrom(O, m, n, w, k0, k - 1), n, w, k - 1)
  }

  /** The products a row of a panel-lagging matrix still owes an entry. */
  function Owed(s: Matrix<real>, n: nat, w: nat, k0: nat, i: nat, j: nat, end: nat): real
    requires Shape(s, n, w) && i < n && j < w && k0 <= end <= n <= w
    decreases end
  {
    if end == k0 then 0.0 else Owed(s, n, w, k0, i, j, end - 1) + Prod(s[i][end - 1], s[end - 1][j])
  }

  lemma {:induction false} OwedSame(a: Matrix<real>, b: Matrix<real>, n: nat, w: nat, k0: nat, i: nat, q: nat, j: nat,
                                    end: nat)
    requires Shape(a, n, w) && Shape(b, n, w) && i < n && q < n && j < w && k0 <= end <= n <= w
    requires forall t :: k0 <= t < end ==> a[i][t] == b[q][t] && a[t][j] == b[t][j]
    ensures Owed(a, n, w, k0, i, j, end) == Owed(b, n, w, k0, q, j, end)
    decreases end
  {
    hide Prod;
    if end > k0 { OwedSame(a, b, n, w, k0, i, q, j, end - 1); }
  }

  /** How far the panel's own columns have been eliminated for row `i`. */
  function Upto(k0: nat, i: nat, k: nat): (r: nat)
    requires k0 <= k
    ensures k0 <= r <= k
  { if i < k0 then k0 else if i < k then i else k }

  /** The panel's matrix `c` against the plain elimination's `s`, after column `k`: the
      panel's columns agree; right of them `c` lags by what its row owes. */
  ghost predicate Lags(c: Matrix<real>, s: Matrix<real>, n: nat, w: nat, k0: nat, k1: nat, k: nat) {
    && Shape(c, n, w) && Shape(s, n, w) && k0 <= k <= k1 <= n <= w
    && (forall i, j :: 0 <= i < n && 0 <= j < k1 ==> c[i][j] == s[i][j])
    && (forall i, j :: 0 <= i < n && k1 <= j < w ==> s[i][j] == c[i][j] - Owed(s, n, w, k0, i, j, Upto(k0, i, k)))
  }

  lemma LagAt(c: Matrix<real>, s: Matrix<real>, n: nat, w: nat, k0: nat, k1: nat, k: nat, i: nat, j: nat)
    requires Lags(c, s, n, w, k0, k1, k) && i < n && j < w
    ensures Shape(c, n, w) && Shape(s, n, w) && k0 <= k <= k1 <= n <= w
    ensures if j < k1 then c[i][j] == s[i][j] else s[i][j] == c[i][j] - Owed(s, n, w, k0, i, j, Upto(k0, i, k))
  {
  }

  lemma OwedNext(s: Matrix<real>, n: nat, w: nat, k0: nat, i: nat, j: nat, end: nat)
    requires Shape(s, n, w) && i < n && j < w && k0 <= end < n <= w
    ensures Owed(s, n, w, k0, i, j, end + 1) == Owed(s, n, w, k0, i, j, end) + Prod(s[i][end], s[end][j])
  {
  }

  lemma {:induction false} PivotSame(O: Ops<real>, a: Matrix<real>, b: Matrix<real>, n: nat, w: nat, k: nat, i: nat)
    requires Shape(a, n, w) && Shape(b, n, w) && k < i <= n && k < w
    requires forall r :: 0 <= r < n ==> a[r][k] == b[r][k]
    ensures PivotUpTo(O, a, n, w, k, i) == PivotUpTo(O, b, n, w, k, i)
    decreases i
  {
    if i > k + 1 { PivotSame(O, a, b, n, w, k, i - 1); }
  }

  lemma {:induction false} LagsStep(O: Ops<real>, c: Matrix<real>, s: Matrix<real>, n: nat, w: nat, k0: nat, k1: nat,
                                    k: nat,
                 mag: real -> real, gt: (real, real) -> bool)
    requires O == Reals(mag, gt) && Lags(c, s, n, w, k0, k1, k) && k < k1
    ensures Lags(StepUpto(O, c, n, w, k, k1), Step(O, s, n, w, k), n, w, k0, k1, k + 1)
  {
    hide PivotUpTo, Prod, Owed;
    var p := Pivot(O, s, n, w, k);
    PivotSame(O, c, s, n, w, k, n);
    var c1, s1 := StepUpto(O, c, n, w, k, k1), Step(O, s, n, w, k);
    forall i, j | 0 <= i < n && 0 <= j < k1 ensures c1[i][j] == s1[i][j] {}
    forall i, j | 0 <= i < n && k1 <= j < w
      ensures s1[i][j] == c1[i][j] - Owed(s1, n, w, k0, i, j, Upto(k0, i, k + 1)) {
      LagsEntry(O, c, s, n, w, k0, k1, k, i, j, mag, gt);
    }
  }

  lemma {:induction false} LagsEntry(O: Ops<real>, c: Matrix<real>, s: Matrix<real>, n: nat, w: nat, k0: nat, k1: nat,
                                     k: nat, i: nat, j: nat,
                  mag: real -> real, gt: (real, real) -> bool)
    requires O == Reals(mag, gt) && Lags(c, s, n, w, k0, k1, k) && k < k1 && i < n && k1 <= j < w
    requires Pivot(O, c, n, w, k) == Pivot(O, s, n, w, k)
    ensures var c1, s1 := StepUpto(O, c, n, w, k, k1), Step(O, s, n, w, k);
            s1[i][j] == c1[i][j] - Owed(s1, n, w, k0, i, j, Upto(k0, i, k + 1))
  {
    hide PivotUpTo, Pivot, Prod, Owed, Lags, Reduced;
    LagAt(c, s, n, w, k0, k1, k, i, j);
    var p := Pivot(O, s, n, w, k);
    var c1, s1 := StepUpto(O, c, n, w, k, k1), Step(O, s, n, w, k);
    var q := if i == k then p else if i == p then k else i;
    LagAt(c, s, n, w, k0, k1, k, q, j);
    var end := Upto(k0, q, k);
    assert end == Upto(k0, i, k);
    forall t | k0 <= t < end ensures s1[i][t] == s[q][t] && s1[t][j] == s[t][j] { StepKeeps(O, s, n, w, k, i, t, j); }
    OwedSame(s1, s, n, w, k0, i, q, j, end);
    assert c1[i][j] == c[q][j];
    if i > k {
      var sw := Swapped(s, k, p);
      ReducedReal(mag, gt, sw, n, w, k, i, j);
      OwedNext(s1, n, w, k0, i, j, k);
      BelowPivot(O, s, n, w, k, i, j);
    } else {
      Above(O, s, n, w, k, i, j);
    }
  }

  /** The multipliers a step keeps, and the rows above its pivot. */
  lemma StepKeeps(O: Ops<real>, s: Matrix<real>, n: nat, w: nat, k: nat, i: nat, t: nat, j: nat)
    requires Shape(s, n, w) && t < k < n <= w && i < n && j < w
    ensures var p := Pivot(O, s, n, w, k); var q := if i == k then p else if i == p then k else i;
            Step(O, s, n, w, k)[i][t] == s[q][t] && Step(O, s, n, w, k)[t][j] == s[t][j]
  {
    hide Pivot;
  }

  lemma Above(O: Ops<real>, s: Matrix<real>, n: nat, w: nat, k: nat, i: nat, j: nat)
    requires Shape(s, n, w) && i <= k < n <= w && j < w
    ensures var p := Pivot(O, s, n, w, k); var q := if i == k then p else if i == p then k else i;
            Step(O, s, n, w, k)[i][j] == s[q][j]
  {
    hide Pivot;
  }

  lemma BelowPivot(O: Ops<real>, s: Matrix<real>, n: nat, w: nat, k: nat, i: nat, j: nat)
    requires Shape(s, n, w) && k < i < n <= w && k < j < w
    ensures var sw, r := Swapped(s, k, Pivot(O, s, n, w, k)), Step(O, s, n, w, k);
            Shape(sw, n, w) && r[i][j] == Reduced(O, sw, n, w, k, i, j) && r[i][k] == O.div(sw[i][k], sw[k][k])
                && r[k][j] == sw[k][j]
  {
    hide Pivot;
  }

  lemma {:induction false} PanelLags(O: Ops<real>, m: Matrix<real>, n: nat, w: nat, k0: nat, k1: nat, k: nat,
                                     mag: real -> real, gt: (real, real) -> bool)
    requires O == Reals(mag, gt) && Shape(m, n, w) && k0 <= k <= k1 <= n <= w
    ensures Lags(PanelColumns(O, m, n, w, k0, k1, k), StepsFrom(O, m, n, w, k0, k), n, w, k0, k1, k)
    decreases k
  {
    hide Lags, StepUpto, Step;
    if k == k0 {
      NoLag(m, n, w, k0, k1);
    } else {
      PanelLags(O, m, n, w, k0, k1, k - 1, mag, gt);
      LagsStep(O, PanelColumns(O, m, n, w, k0, k1, k - 1), StepsFrom(O, m, n, w, k0, k - 1), n, w, k0, k1, k - 1, mag,
               gt);
    }
  }

  lemma NoLag(m: Matrix<real>, n: nat, w: nat, k0: nat, k1: nat)
    requires Shape(m, n, w) && k0 <= k1 <= n <= w
    ensures Lags(m, m, n, w, k0, k1, k0)
  {
  }

  /** The panel's triangle applied gives the plain elimination's entries. */
  lemma {:induction false} AppliedIs(O: Ops<real>, c: Matrix<real>, s: Matrix<real>, n: nat, w: nat, k0: nat, k1: nat,
                                     i: nat, j: nat, t: nat,
                                     mag: real -> real, gt: (real, real) -> bool)
    requires O == Reals(mag, gt) && Lags(c, s, n, w, k0, k1, k1) && k0 <= t <= i < k1 <= n && k1 <= j < w
    ensures Applied(O, c, n, w, k0, i, j, t) == c[i][j] - Owed(s, n, w, k0, i, j, t)
    decreases i, t
  {
    hide Prod, Lags, Owed;
    LagAt(c, s, n, w, k0, k1, k1, i, j);
    if t == k0 {
      OwedNone(s, n, w, k0, i, j);
    } else {
      AppliedIs(O, c, s, n, w, k0, k1, i, j, t - 1, mag, gt);
      AppliedIs(O, c, s, n, w, k0, k1, t - 1, j, t - 1, mag, gt);
      LagAt(c, s, n, w, k0, k1, k1, t - 1, j);
      LagAt(c, s, n, w, k0, k1, k1, i, t - 1);
      OwedNext(s, n, w, k0, i, j, t - 1);
      SubReal(mag, gt, Applied(O, c, n, w, k0, i, j, t - 1), c[i][t - 1], s[t - 1][j]);
    }
  }

  lemma OwedNone(s: Matrix<real>, n: nat, w: nat, k0: nat, i: nat, j: nat)
    requires Shape(s, n, w) && i < n && j < w && k0 <= n <= w
    ensures Owed(s, n, w, k0, i, j, k0) == 0.0
  {
  }

  lemma SubReal(mag: real -> real, gt: (real, real) -> bool, a: real, x: real, y: real)
    ensures var O := Reals(mag, gt); O.sub(a, O.mul(x, y)) == a - Prod(x, y)
  {
  }

  // --- the dot over the reals ---------------------------------------------------------------------------

  function Inner(xs: seq<real>, ys: seq<real>, n: nat): real
    requires |xs| == |ys| && n <= |xs|
  {
    if n == 0 then 0.0 else Inner(xs, ys, n - 1) + Prod(xs[n - 1], ys[n - 1])
  }

  lemma {:induction false} LanesSum(mag: real -> real, gt: (real, real) -> bool, xs: seq<real>, ys: seq<real>, c: nat)
    requires |xs| == |ys| && FOLD_LANES * c <= |xs|
    ensures var O := Reals(mag, gt);
            DotLane(O, xs, ys, 0, c) + DotLane(O, xs, ys, 1, c) + DotLane(O, xs, ys, 2, c) + DotLane(O, xs, ys, 3, c)
            == Inner(xs, ys, FOLD_LANES * c)
  {
    hide Inner, Prod, DotLane;
    if c == 0 {
      LaneNone(Reals(mag, gt), xs, ys);
      InnerNone(xs, ys);
    } else {
      LanesSum(mag, gt, xs, ys, c - 1);
      var n := FOLD_LANES * (c - 1);
      InnerFour(xs, ys, n);
      LaneNext(mag, gt, xs, ys, 0, c - 1);
      LaneNext(mag, gt, xs, ys, 1, c - 1);
      LaneNext(mag, gt, xs, ys, 2, c - 1);
      LaneNext(mag, gt, xs, ys, 3, c - 1);
    }
  }

  lemma LaneNone<T>(O: Ops<T>, xs: seq<T>, ys: seq<T>)
    requires |xs| == |ys|
    ensures forall l :: 0 <= l < FOLD_LANES ==> DotLane(O, xs, ys, l, 0) == O.zero
  {
  }

  lemma LaneNext(mag: real -> real, gt: (real, real) -> bool, xs: seq<real>, ys: seq<real>, l: nat, c: nat)
    requires |xs| == |ys| && FOLD_LANES * (c + 1) <= |xs| && l < FOLD_LANES
    ensures var O, n := Reals(mag, gt), FOLD_LANES * c;
            DotLane(O, xs, ys, l, c + 1) == DotLane(O, xs, ys, l, c) + Prod(xs[n + l], ys[n + l])
  {
  }

  lemma InnerNone(xs: seq<real>, ys: seq<real>)
    requires |xs| == |ys|
    ensures Inner(xs, ys, 0) == 0.0
  {
  }

  lemma InnerFour(xs: seq<real>, ys: seq<real>, n: nat)
    requires |xs| == |ys| && n + 4 <= |xs|
    ensures Inner(xs, ys, n + 4) == Inner(xs, ys, n) + Prod(xs[n], ys[n]) + Prod(xs[n + 1], ys[n + 1])
                                    + Prod(xs[n + 2], ys[n + 2]) + Prod(xs[n + 3], ys[n + 3])
  {
    hide Prod;
    assert Inner(xs, ys, n + 1) == Inner(xs, ys, n) + Prod(xs[n], ys[n]);
    assert Inner(xs, ys, n + 2) == Inner(xs, ys, n + 1) + Prod(xs[n + 1], ys[n + 1]);
    assert Inner(xs, ys, n + 3) == Inner(xs, ys, n + 2) + Prod(xs[n + 2], ys[n + 2]);
    assert Inner(xs, ys, n + 4) == Inner(xs, ys, n + 3) + Prod(xs[n + 3], ys[n + 3]);
  }

  lemma {:induction false} TailSum(mag: real -> real, gt: (real, real) -> bool, s: real, xs: seq<real>, ys: seq<real>,
                                   from: nat, end: nat)
    requires |xs| == |ys| && from <= end <= |xs|
    ensures DotTail(Reals(mag, gt), s, xs, ys, from, end) == s + Inner(xs, ys, end) - Inner(xs, ys, from)
    decreases end
  {
    if from < end { TailSum(mag, gt, s, xs, ys, from, end - 1); }
  }

  /** The reference dot is the inner product. */
  lemma DotIs(mag: real -> real, gt: (real, real) -> bool, xs: seq<real>, ys: seq<real>)
    requires |xs| == |ys|
    ensures Dot(Reals(mag, gt), xs, ys) == Inner(xs, ys, |xs|)
  {
    hide DotLane, DotTail, Inner;
    var O, c := Reals(mag, gt), |xs| / FOLD_LANES;
    LanesSum(mag, gt, xs, ys, c);
    var a, b, d, e := DotLane(O, xs, ys, 0, c), DotLane(O, xs, ys, 1, c), DotLane(O, xs, ys, 2, c),
        DotLane(O, xs, ys, 3, c);
    TailSum(mag, gt, (a + b) + (d + e), xs, ys, FOLD_LANES * c, |xs|);
  }

  lemma {:induction false} OwedIsInner(O: Ops<real>, c: Matrix<real>, s: Matrix<real>, n: nat, w: nat, k0: nat,
                                       k1: nat, i: nat, j: nat, q: nat,
                                       mag: real -> real, gt: (real, real) -> bool)
    requires O == Reals(mag, gt) && Lags(c, s, n, w, k0, k1, k1) && k1 <= i < n && k1 <= j < w && q <= k1 - k0
    ensures Inner(RowOf(c, n, w, i, k0, k1), ColumnOf(O, c, n, w, k0, k1, j), q) == Owed(s, n, w, k0, i, j, k0 + q)
    decreases q
  {
    hide Prod, Applied, Lags, Owed;
    LagAt(c, s, n, w, k0, k1, k1, i, j);
    if q == 0 {
      OwedNone(s, n, w, k0, i, j);
    } else {
      OwedIsInner(O, c, s, n, w, k0, k1, i, j, q - 1, mag, gt);
      var t := k0 + q - 1;
      AppliedIs(O, c, s, n, w, k0, k1, t, j, t, mag, gt);
      LagAt(c, s, n, w, k0, k1, k1, t, j);
      LagAt(c, s, n, w, k0, k1, k1, i, t);
      OwedNext(s, n, w, k0, i, j, t);
    }
  }

  /** A panel is its columns eliminated one by one. */
  lemma PanelIs(O: Ops<real>, m: Matrix<real>, n: nat, w: nat, k0: nat, k1: nat, mag: real -> real,
                gt: (real, real) -> bool)
    requires O == Reals(mag, gt) && Shape(m, n, w) && k0 <= k1 <= n <= w
    ensures Panel(O, m, n, w, k0, k1) == StepsFrom(O, m, n, w, k0, k1)
  {
    hide PanelColumns, StepsFrom, Applied, Owed, Dot;
    var c, s := PanelColumns(O, m, n, w, k0, k1, k1), StepsFrom(O, m, n, w, k0, k1);
    PanelLags(O, m, n, w, k0, k1, k1, mag, gt);
    forall i, j | 0 <= i < n && 0 <= j < w ensures PanelEntry(O, c, n, w, k0, k1, i, j) == s[i][j] {
      PanelEntryIs(O, c, s, n, w, k0, k1, i, j, mag, gt);
    }
    SameMatrix(Panel(O, m, n, w, k0, k1), s, n, w);
  }

  lemma PanelEntryIs(O: Ops<real>, c: Matrix<real>, s: Matrix<real>, n: nat, w: nat, k0: nat, k1: nat, i: nat, j: nat,
                     mag: real -> real, gt: (real, real) -> bool)
    requires O == Reals(mag, gt) && Lags(c, s, n, w, k0, k1, k1) && i < n && j < w
    ensures PanelEntry(O, c, n, w, k0, k1, i, j) == s[i][j]
  {
    hide Applied, DenseProducts.Dot, Lags, Owed, Inner, RowOf, ColumnOf, Prod;
    LagAt(c, s, n, w, k0, k1, k1, i, j);
    if j >= k1 {
      if i < k0 {
        OwedNone(s, n, w, k0, i, j);
      } else if i < k1 {
        AppliedIs(O, c, s, n, w, k0, k1, i, j, i, mag, gt);
      } else {
        DotIs(mag, gt, RowOf(c, n, w, i, k0, k1), ColumnOf(O, c, n, w, k0, k1, j));
        OwedIsInner(O, c, s, n, w, k0, k1, i, j, k1 - k0, mag, gt);
        PanelEntryTrailing(O, c, n, w, k0, k1, i, j);
      }
    }
  }

  lemma PanelEntryTrailing(O: Ops<real>, m: Matrix<real>, n: nat, w: nat, k0: nat, k1: nat, i: nat, j: nat)
    requires Shape(m, n, w) && k0 <= k1 <= i < n <= w && k1 <= j < w
    ensures PanelEntry(O, m, n, w, k0, k1, i, j) ==
            O.sub(m[i][j], DenseProducts.Dot(O, RowOf(m, n, w, i, k0, k1), ColumnOf(O, m, n, w, k0, k1, j)))
  {
    hide DenseProducts.Dot, Applied;
  }

  lemma {:induction false} StepsJoin(O: Ops<real>, m: Matrix<real>, n: nat, w: nat, k0: nat, k: nat)
    requires Shape(m, n, w) && k0 <= k <= n <= w
    ensures StepsFrom(O, Eliminated(O, m, n, w, k0), n, w, k0, k) == Eliminated(O, m, n, w, k)
    decreases k
  {
    hide Step, Eliminated, StepsFrom;
    StepsNext(O, Eliminated(O, m, n, w, k0), n, w, k0, k);
    if k > k0 {
      StepsJoin(O, m, n, w, k0, k - 1);
      EliminatedNext(O, m, n, w, k - 1);
    }
  }

  lemma StepsNext(O: Ops<real>, m: Matrix<real>, n: nat, w: nat, k0: nat, k: nat)
    requires Shape(m, n, w) && k0 <= k <= n <= w
    ensures StepsFrom(O, m, n, w, k0, k) == if k == k0
            then m else Step(O, StepsFrom(O, m, n, w, k0, k - 1), n, w, k - 1)
  {
  }

  /** For every panel width the blocked elimination is the plain one. */
  lemma {:induction false} PanelsAre(O: Ops<real>, m: Matrix<real>, n: nat, w: nat, nb: nat, k0: nat,
                                     mag: real -> real, gt: (real, real) -> bool)
    requires O == Reals(mag, gt) && Shape(m, n, w) && k0 <= n <= w && nb > 0
    ensures Panels(O, Eliminated(O, m, n, w, k0), n, w, nb, k0) == Eliminated(O, m, n, w, n)
    decreases n - k0
  {
    hide Panel, Eliminated, StepsFrom;
    if k0 < n {
      var k1 := Least(k0 + nb, n);
      PanelIs(O, Eliminated(O, m, n, w, k0), n, w, k0, k1, mag, gt);
      StepsJoin(O, m, n, w, k0, k1);
      PanelsAre(O, m, n, w, nb, k1, mag, gt);
    }
  }
}
