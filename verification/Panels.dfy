/** The blocked solver as its loops run, every array written in place, proved to compute the
    functions of `BlockedSolves` over any scalar. */
module PanelKernels {
  import opened Basics
  import opened BlockedSolves
  import opened DenseProducts
  import opened Elimination
  import opened Kernels
  import opened ProductFolds
  import opened Solves

  /** The panel's own columns. */
  method FactorPanel<T>(O: Ops<T>, m: array2<T>, k0: nat, k1: nat)
    requires k0 <= k1 <= m.Length0 <= m.Length1
    modifies m
    ensures View(m) == PanelColumns(O, old(View(m)), m.Length0, m.Length1, k0, k1, k1)
  {
    hide View, StepUpto, PanelColumns;
    ghost var was := View(m);
    PanelStart(O, was, m.Length0, m.Length1, k0, k1);
    for k := k0 to k1
      invariant View(m) == PanelColumns(O, was, m.Length0, m.Length1, k0, k1, k)
    {
      PanelNext(O, was, m.Length0, m.Length1, k0, k1, k);
      EliminateColumn(O, m, k, k1);
    }
  }

  lemma PanelStart<T>(O: Ops<T>, m: Matrix<T>, n: nat, w: nat, k0: nat, k1: nat)
    requires Shape(m, n, w) && k0 <= k1 <= n <= w
    ensures PanelColumns(O, m, n, w, k0, k1, k0) == m
  {
  }

  lemma PanelNext<T>(O: Ops<T>, m: Matrix<T>, n: nat, w: nat, k0: nat, k1: nat, k: nat)
    requires Shape(m, n, w) && k0 <= k < k1 <= n <= w
    ensures PanelColumns(O, m, n, w, k0, k1, k + 1)
         == StepUpto(O, PanelColumns(O, m, n, w, k0, k1, k), n, w, k, k1)
  {
    hide StepUpto;
  }

  /** The entries right of the panel, its rows before `t` applied. */
  ghost predicate AppliedUpto<T>(O: Ops<T>, m: Matrix<T>, c: Matrix<T>, n: nat, w: nat, k0: nat, k1: nat, t: nat) {
    && Shape(m, n, w) && Shape(c, n, w) && k0 <= t <= k1 <= n <= w
    && forall i, j :: 0 <= i < n && 0 <= j < w ==>
         m[i][j] == if k0 <= i < k1 && k1 <= j then Applied(O, c, n, w, k0, i, j, Least(t, i)) else c[i][j]
  }

  /** Row `i` of the panel less its multiplier times row `t`, right of the panel. */
  method ApplyRow<T>(O: Ops<T>, m: array2<T>, t: nat, i: nat, k1: nat)
    requires t < i < m.Length0 && t < k1 <= m.Length1
    modifies m
    ensures forall r, j :: 0 <= r < m.Length0 && 0 <= j < m.Length1 ==>
              m[r, j] == if r == i && j >= k1
                  then O.sub(old(m[r, j]), O.mul(old(m[i, t]), old(m[t, j]))) else old(m[r, j])
  {
    var l := m[i, t];
    for j := k1 to m.Length1
      invariant forall r, q :: 0 <= r < m.Length0 && 0 <= q < m.Length1 ==>
                  m[r, q] == if r == i && k1 <= q < j then O.sub(old(m[r, q]), O.mul(l, old(m[t, q]))) else old(m[r, q])
    {
      var p := O.mul(l, m[t, j]);
      m[i, j] := O.sub(m[i, j], p);
    }
  }

  lemma AppliedNext<T>(O: Ops<T>, c: Matrix<T>, n: nat, w: nat, k0: nat, i: nat, j: nat, t: nat)
    requires Shape(c, n, w) && k0 <= t < i < n <= w && j < w
    ensures Applied(O, c, n, w, k0, i, j, t + 1) ==
            O.sub(Applied(O, c, n, w, k0, i, j, t), O.mul(c[i][t], Applied(O, c, n, w, k0, t, j, t)))
  {
  }

  /** An entry while row `t` is applied, the rows before `i` done. */
  function Halfway<T>(O: Ops<T>, c: Matrix<T>, n: nat, w: nat, k0: nat, k1: nat, t: nat, i: nat, r: nat, j: nat): T
    requires Shape(c, n, w) && k0 <= t < k1 <= n <= w && r < n && j < w
  {
    if k0 <= r < k1 && k1 <= j then Applied(O, c, n, w, k0, r, j, if r < i then Least(t + 1, r) else Least(t, r))
        else c[r][j]
  }

  /** Row `t`'s multiples taken from the panel's lower rows, right of the panel: one step of
      `Applied`. */
  method ApplyOne<T>(O: Ops<T>, m: array2<T>, k0: nat, k1: nat, t: nat, ghost c: Matrix<T>)
    requires t < k1 && AppliedUpto(O, View(m), c, m.Length0, m.Length1, k0, k1, t)
    modifies m
    ensures AppliedUpto(O, View(m), c, m.Length0, m.Length1, k0, k1, t + 1)
  {
    hide Applied;
    ghost var n, w := m.Length0, m.Length1;
    assert forall r, j :: 0 <= r < n && 0 <= j < w ==> m[r, j] == Halfway(O, c, n, w, k0, k1, t, t + 1, r, j);
    for i := t + 1 to k1
      invariant forall r, j :: 0 <= r < n && 0 <= j < w ==> m[r, j] == Halfway(O, c, n, w, k0, k1, t, i, r, j)
    {
      ghost var next := i + 1;
      ApplyRow(O, m, t, i, k1);
      forall r, j | 0 <= r < n && 0 <= j < w ensures m[r, j] == Halfway(O, c, n, w, k0, k1, t, next, r, j) {
        if r == i && j >= k1 { AppliedNext(O, c, n, w, k0, i, j, t); }
      }
    }
  }

  method ApplyTriangle<T>(O: Ops<T>, m: array2<T>, k0: nat, k1: nat)
    requires k0 <= k1 <= m.Length0 <= m.Length1
    modifies m
    ensures AppliedUpto(O, View(m), old(View(m)), m.Length0, m.Length1, k0, k1, k1)
  {
    ghost var c := View(m);
    assert AppliedUpto(O, c, c, m.Length0, m.Length1, k0, k1, k0);
    hide View, AppliedUpto;
    for t := k0 to k1
      invariant AppliedUpto(O, View(m), c, m.Length0, m.Length1, k0, k1, t)
    {
      ApplyOne(O, m, k0, k1, t, c);
    }
  }

  /** `flat` is a block of `m`, its rows one after another. */
  ghost predicate IsRows<T>(flat: seq<T>, rows: nat, w: nat, m: Matrix<T>, i: nat, j: nat, height: nat, width: nat) {
    && Shape(m, height, width) && i + rows <= height && j + w <= width && rows * w <= |flat|
    && forall r, q :: 0 <= r < rows && 0 <= q < w ==> flat[At(r, w, q, rows)] == m[i + r][j + q]
  }

  /** `flat` is a block of `m`, its columns one after another. */
  ghost predicate IsColumns<T>(flat: seq<T>, cols: nat, h: nat, m: Matrix<T>, i: nat, j: nat, height: nat, width: nat) {
    && Shape(m, height, width) && i + h <= height && j + cols <= width && cols * h <= |flat|
    && forall c, q :: 0 <= c < cols && 0 <= q < h ==> flat[At(c, h, q, cols)] == m[i + q][j + c]
  }

  /** The panel's rows right of it, transposed: a row per column. */
  method Transpose<T>(m: array2<T>, k0: nat, k1: nat, ut: array<T>)
    requires k0 <= k1 <= m.Length0 <= m.Length1 && ut.Length >= (m.Length1 - k1) * (k1 - k0)
    modifies ut
    ensures IsColumns(ut[..], m.Length1 - k1, k1 - k0, View(m), k0, k1, m.Length0, m.Length1)
  {
    var cols, nb := m.Length1 - k1, k1 - k0;
    for jj := 0 to cols
      invariant forall j, q :: 0 <= j < jj && 0 <= q < nb ==> ut[At(j, nb, q, cols)] == m[k0 + q, k1 + j]
    {
      for kk := 0 to nb
        invariant forall j, q :: 0 <= j < jj && 0 <= q < nb ==> ut[At(j, nb, q, cols)] == m[k0 + q, k1 + j]
        invariant forall q :: 0 <= q < kk ==> ut[At(jj, nb, q, cols)] == m[k0 + q, k1 + jj]
      {
        forall j, q | 0 <= j < cols && 0 <= q < nb
          ensures HiOf(At(j, nb, q, cols), nb) == j && LoOf(At(j, nb, q, cols), nb) == q {
          AtParts(j, nb, q, cols);
        }
        ut[At(jj, nb, kk, cols)] := m[k0 + kk, k1 + jj];
      }
    }
  }

  /** The multipliers of the rows from `i`, one row after another. */
  method CopyRows<T>(m: array2<T>, k0: nat, k1: nat, i: nat, rows: nat, lrows: array<T>)
    requires k0 <= k1 <= m.Length1 && i + rows <= m.Length0 && rows * (k1 - k0) <= lrows.Length
    modifies lrows
    ensures IsRows(lrows[..], rows, k1 - k0, View(m), i, k0, m.Length0, m.Length1)
  {
    var nb := k1 - k0;
    for r := 0 to rows
      invariant forall j, q :: 0 <= j < r && 0 <= q < nb ==> lrows[At(j, nb, q, rows)] == m[i + j, k0 + q]
    {
      for q := 0 to nb
        invariant forall j, t :: 0 <= j < r && 0 <= t < nb ==> lrows[At(j, nb, t, rows)] == m[i + j, k0 + t]
        invariant forall t :: 0 <= t < q ==> lrows[At(r, nb, t, rows)] == m[i + r, k0 + t]
      {
        forall j, t | 0 <= j < rows && 0 <= t < nb
          ensures HiOf(At(j, nb, t, rows), nb) == j && LoOf(At(j, nb, t, rows), nb) == t {
          AtParts(j, nb, t, rows);
        }
        lrows[At(r, nb, q, rows)] := m[i + r, k0 + q];
      }
    }
  }

  /** The products of the rows from `i` taken from them. */
  method SubtractRows<T>(O: Ops<T>, m: array2<T>, k1: nat, i: nat, rows: nat, prod: seq<T>)
    requires k1 <= m.Length1 && i + rows <= m.Length0 && rows * (m.Length1 - k1) <= |prod|
    modifies m
    ensures rows * (m.Length1 - k1) <= |prod|
    ensures forall r, j :: 0 <= r < m.Length0 && 0 <= j < m.Length1 ==>
              m[r, j] == if i <= r < i + rows && k1 <= j
                         then O.sub(old(m[r, j]), prod[At(r - i, m.Length1 - k1, j - k1, rows)]) else old(m[r, j])
  {
    var cols := m.Length1 - k1;
    for r := 0 to rows
      invariant forall t, j :: 0 <= t < m.Length0 && 0 <= j < m.Length1 ==>
                  m[t, j] == if i <= t < i + r
                      && k1 <= j then O.sub(old(m[t, j]), prod[At(t - i, cols, j - k1, rows)]) else old(m[t, j])
    {
      for jj := 0 to cols
        invariant forall t, j :: 0 <= t < m.Length0 && 0 <= j < m.Length1 ==>
                    m[t, j] == if k1 <= j && i <= t && (t < i + r || (t == i + r && j < k1 + jj))
                               then O.sub(old(m[t, j]), prod[At(t - i, cols, j - k1, rows)]) else old(m[t, j])
      {
        m[i + r, k1 + jj] := O.sub(m[i + r, k1 + jj], prod[At(r, cols, jj, rows)]);
      }
    }
  }

  /** The trailing rows before `i` are done. */
  ghost predicate TrailedUpto<T>(O: Ops<T>, m: Matrix<T>, c: Matrix<T>, n: nat, w: nat, k0: nat, k1: nat, i: nat) {
    && Shape(m, n, w) && Shape(c, n, w) && k0 <= k1 <= i <= n <= w
    && forall r, j :: 0 <= r < n && 0 <= j < w ==>
       m[r][j] == if r < i then PanelEntry(O, c, n, w, k0, k1, r, j) else c[r][j]
  }

  /** The panel's rows of `e` are `c`'s with the triangle applied. */
  ghost predicate PanelRows<T>(O: Ops<T>, e: Matrix<T>, c: Matrix<T>, n: nat, w: nat, k0: nat, k1: nat) {
    && Shape(e, n, w) && Shape(c, n, w) && k0 <= k1 <= n <= w
    && forall q, j :: k0 <= q < k1 && k1 <= j < w ==> e[q][j] == Applied(O, c, n, w, k0, q, j, q)
  }

  /** The multipliers copied and the columns transposed are what a trailing entry's dot takes. */
  lemma {:induction false} TrailEntry<T>(O: Ops<T>, m: Matrix<T>, e: Matrix<T>, c: Matrix<T>, n: nat, w: nat, k0: nat,
                                         k1: nat, i: nat, rows: nat, r: nat, jj: nat,
                      lrows: seq<T>, ut: seq<T>)
    requires PanelRows(O, e, c, n, w, k0, k1) && k1 <= i && i + rows <= n && r < rows && jj < w - k1
    requires Shape(m, n, w) && m[i + r] == c[i + r]
    requires IsRows(lrows, rows, k1 - k0, m, i, k0, n, w) && IsColumns(ut, w - k1, k1 - k0, e, k0, k1, n, w)
    ensures At(r, w - k1, jj, rows) < |Block(O, lrows, ut, rows, k1 - k0, w - k1, Kept())|
    ensures PanelEntry(O, c, n, w, k0, k1, i + r, k1 + jj) ==
            O.sub(c[i + r][k1 + jj], Block(O, lrows, ut, rows, k1 - k0, w - k1, Kept())[At(r, w - k1, jj, rows)])
  {
    hide DenseProducts.Dot, Block, Applied;
    BlockAt(O, lrows, ut, rows, k1 - k0, w - k1, Kept(), r, jj);
    assert RowAt(lrows, rows, k1 - k0, r) == RowOf(c, n, w, i + r, k0, k1);
    assert RowAt(ut, w - k1, k1 - k0, jj) == ColumnOf(O, c, n, w, k0, k1, k1 + jj);
  }

  /** The next rows of the trailing block, at most four, by one product. */
  method TrailRows<T>(O: Ops<T>, m: array2<T>, k0: nat, k1: nat, i: nat, rows: nat, ut: array<T>, lrows: array<T>,
                      prod: array<T>,
                      ghost e: Matrix<T>, ghost c: Matrix<T>)
    requires i + rows <= m.Length0 && TrailedUpto(O, View(m), c, m.Length0, m.Length1, k0, k1, i)
    requires PanelRows(O, e, c, m.Length0, m.Length1, k0, k1)
    requires rows * (k1 - k0) <= lrows.Length && rows * (m.Length1 - k1) <= prod.Length
    requires ut != lrows && lrows != prod && ut != prod
    requires IsColumns(ut[..], m.Length1 - k1, k1 - k0, e, k0, k1, m.Length0, m.Length1)
    modifies m, lrows, prod
    ensures TrailedUpto(O, View(m), c, m.Length0, m.Length1, k0, k1, i + rows)
  {
    hide Block, Applied, PanelEntry, PanelRows, IsRows, IsColumns;
    ghost var was := View(m);
    assert PanelRows(O, e, c, m.Length0, m.Length1, k0, k1);
    var n, w := m.Length0, m.Length1;
    var cols, nb := w - k1, k1 - k0;
    CopyRows(m, k0, k1, i, rows, lrows);
    RowsFit(lrows[..], ut[..], rows, cols, nb, was, e, i, k0, k1, n, w);
    ghost var _ := GemmWith(O, lrows[..], ut[..], rows, nb, cols, Kept(), prod);
    var products := prod[..rows * cols];
    SubtractRows(O, m, k1, i, rows, products);
    TrailAfter(O, was, View(m), e, c, n, w, k0, k1, i, rows, lrows[..], ut[..], products);
  }

  lemma RowsFit<T>(lrows: seq<T>, ut: seq<T>, rows: nat, cols: nat, nb: nat, m: Matrix<T>, e: Matrix<T>, i: nat,
                   k0: nat, k1: nat, n: nat, w: nat)
    requires IsRows(lrows, rows, nb, m, i, k0, n, w) && IsColumns(ut, cols, nb, e, k0, k1, n, w)
    ensures rows * nb <= |lrows| && cols * nb <= |ut|
  {
  }

  lemma {:induction false} TrailAfter<T>(O: Ops<T>, was: Matrix<T>, m: Matrix<T>, e: Matrix<T>, c: Matrix<T>, n: nat,
                                         w: nat, k0: nat, k1: nat, i: nat, rows: nat,
                      lrows: seq<T>, ut: seq<T>, prod: seq<T>)
    requires TrailedUpto(O, was, c, n, w, k0, k1, i) && i + rows <= n && Shape(m, n, w)
             && PanelRows(O, e, c, n, w, k0, k1)
    requires IsRows(lrows, rows, k1 - k0, was, i, k0, n, w) && IsColumns(ut, w - k1, k1 - k0, e, k0, k1, n, w)
    requires prod == Block(O, lrows, ut, rows, k1 - k0, w - k1, Kept())
    requires forall r, j :: 0 <= r < n && 0 <= j < w ==>
               m[r][j] == if i <= r < i + rows
                   && k1 <= j then O.sub(was[r][j], prod[At(r - i, w - k1, j - k1, rows)]) else was[r][j]
    ensures TrailedUpto(O, m, c, n, w, k0, k1, i + rows)
  {
    hide Block, Applied, PanelEntry, PanelRows, IsRows, IsColumns;
    forall r, j | i <= r < i + rows && k1 <= j < w ensures m[r][j] == PanelEntry(O, c, n, w, k0, k1, r, j) {
      assert was[r] == c[r];
      TrailEntry(O, was, e, c, n, w, k0, k1, i, rows, r - i, j - k1, lrows, ut);
    }
    LeftOfPanel(O, c, n, w, k0, k1);
  }

  lemma LeftOfPanel<T>(O: Ops<T>, c: Matrix<T>, n: nat, w: nat, k0: nat, k1: nat)
    requires Shape(c, n, w) && k0 <= k1 <= n <= w
    ensures forall r, j :: 0 <= r < n && 0 <= j < k1 ==> PanelEntry(O, c, n, w, k0, k1, r, j) == c[r][j]
  {
    hide Applied, DenseProducts.Dot;
  }

  lemma TrailStart<T>(O: Ops<T>, m: Matrix<T>, c: Matrix<T>, n: nat, w: nat, k0: nat, k1: nat)
    requires AppliedUpto(O, m, c, n, w, k0, k1, k1)
    ensures TrailedUpto(O, m, c, n, w, k0, k1, k1)
    ensures PanelRows(O, m, c, n, w, k0, k1)
  {
    hide Applied, DenseProducts.Dot;
  }

  /** All rows below the panel, in blocks of four. */
  method TrailBlock<T>(O: Ops<T>, m: array2<T>, k0: nat, k1: nat, ut: array<T>, lrows: array<T>, prod: array<T>,
                       ghost c: Matrix<T>)
    requires k0 <= k1 < m.Length0 <= m.Length1
    requires ut != lrows && lrows != prod && ut != prod && (m.Length1 - k1) * (k1 - k0) <= ut.Length
    requires LU_TRAILING_ROWS * (k1 - k0) <= lrows.Length && LU_TRAILING_ROWS * (m.Length1 - k1) <= prod.Length
    requires TrailedUpto(O, View(m), c, m.Length0, m.Length1, k0, k1, k1)
             && PanelRows(O, View(m), c, m.Length0, m.Length1, k0, k1)
    modifies m, ut, lrows, prod
    ensures TrailedUpto(O, View(m), c, m.Length0, m.Length1, k0, k1, m.Length0)
  {
    hide View, Shape, Applied, TrailedUpto, PanelRows, IsColumns;
    var n, w := m.Length0, m.Length1;
    ghost var e := View(m);
    Transpose(m, k0, k1, ut);
    var i := k1;
    while i < n
      invariant k1 <= i <= n && TrailedUpto(O, View(m), c, n, w, k0, k1, i)
      invariant IsColumns(ut[..], w - k1, k1 - k0, e, k0, k1, n, w)
    {
      var rows := if n - i < LU_TRAILING_ROWS then n - i else LU_TRAILING_ROWS;
      TimesMore(rows, LU_TRAILING_ROWS, k1 - k0);
      TimesMore(rows, LU_TRAILING_ROWS, w - k1);
      TrailRows(O, m, k0, k1, i, rows, ut, lrows, prod, e, c);
      i := i + rows;
    }
  }

  /** The whole panel. */
  method DoPanel<T>(O: Ops<T>, m: array2<T>, k0: nat, k1: nat, ut: array<T>, lrows: array<T>, prod: array<T>)
    requires k0 <= k1 <= m.Length0 <= m.Length1
    requires ut != lrows && lrows != prod && ut != prod && (m.Length1 - k1) * (k1 - k0) <= ut.Length
    requires LU_TRAILING_ROWS * (k1 - k0) <= lrows.Length && LU_TRAILING_ROWS * (m.Length1 - k1) <= prod.Length
    modifies m, ut, lrows, prod
    ensures View(m) == Panel(O, old(View(m)), m.Length0, m.Length1, k0, k1)
  {
    hide *;
    ghost var was := View(m);
    FactorPanel(O, m, k0, k1);
    ghost var c := View(m);
    ApplyTriangle(O, m, k0, k1);
    TrailStart(O, View(m), c, m.Length0, m.Length1, k0, k1);
    if k1 < m.Length0 {
      TrailBlock(O, m, k0, k1, ut, lrows, prod, c);
    }
    TrailDone(O, View(m), was, m.Length0, m.Length1, k0, k1);
  }

  lemma TimesMore(a: nat, b: nat, x: nat)
    requires a <= b
    ensures a * x <= b * x
  {
  }

  lemma TrailDone<T>(O: Ops<T>, m: Matrix<T>, was: Matrix<T>, n: nat, w: nat, k0: nat, k1: nat)
    requires Shape(was, n, w) && k0 <= k1 <= n <= w
    requires TrailedUpto(O, m, PanelColumns(O, was, n, w, k0, k1, k1), n, w, k0, k1, n)
    ensures m == Panel(O, was, n, w, k0, k1)
  {
    hide PanelColumns, PanelEntry;
    SameMatrix(m, Panel(O, was, n, w, k0, k1), n, w);
  }

  // --- the solver -------------------------------------------------------------------------------------------

  /** The eliminated matrix by panels of `nb` columns, 0 no panels. */
  function Factored<T>(O: Ops<T>, m: Matrix<T>, n: nat, w: nat, nb: nat): (r: Matrix<T>)
    requires Shape(m, n, w) && n <= w
    ensures Shape(r, n, w)
  {
    if nb == 0 then Eliminated(O, m, n, w, n) else Panels(O, m, n, w, nb, 0)
  }

  /** The solutions the generic solver leaves. */
  function PanelSolution<T>(O: Ops<T>, a: seq<T>, b: seq<T>, n: nat, k: nat, nb: nat, c: nat, i: nat): T
    requires |a| == n * n && |b| == n * k && c < k && i < n
  {
    Unknown(O, Factored(O, Augmented(a, b, n, k), n, n + k, nb), n, n + k, c, i)
  }

  lemma PanelsNext<T>(O: Ops<T>, m: Matrix<T>, n: nat, w: nat, nb: nat, k0: nat)
    requires Shape(m, n, w) && k0 < n <= w && nb > 0
    ensures var k1 := Least(k0 + nb, n);
            Panels(O, m, n, w, nb, k0) == Panels(O, Panel(O, m, n, w, k0, k1), n, w, nb, k1)
  {
  }

  /** The elimination by panels of `nb` columns. */
  method FactorBlocked<T>(O: Ops<T>, m: array2<T>, nb: nat, ut: array<T>, lrows: array<T>, prod: array<T>)
    requires m.Length0 <= m.Length1 && nb > 0
    requires ut != lrows && lrows != prod && ut != prod
    requires ut.Length >= nb * m.Length1 && lrows.Length >= LU_TRAILING_ROWS * nb
             && prod.Length >= LU_TRAILING_ROWS * m.Length1
    modifies m, ut, lrows, prod
    ensures View(m) == Panels(O, old(View(m)), m.Length0, m.Length1, nb, 0)
  {
    hide View, Panel, Panels;
    var n, w := m.Length0, m.Length1;
    ghost var was := View(m);
    var k0 := 0;
    while k0 < n
      invariant k0 <= n && Panels(O, View(m), n, w, nb, k0) == Panels(O, was, n, w, nb, 0)
    {
      var k1 := Least(k0 + nb, n);
      PanelsNext(O, View(m), n, w, nb, k0);
      Fits(nb, w, k0, k1);
      DoPanel(O, m, k0, k1, ut, lrows, prod);
      k0 := k1;
    }
    PanelsNone(O, View(m), n, w, nb);
  }

  lemma PanelsNone<T>(O: Ops<T>, m: Matrix<T>, n: nat, w: nat, nb: nat)
    requires Shape(m, n, w) && n <= w && nb > 0
    ensures Panels(O, m, n, w, nb, n) == m
  {
  }

  lemma Fits(nb: nat, w: nat, k0: nat, k1: nat)
    requires k0 <= k1 <= w && k1 <= k0 + nb
    ensures (w - k1) * (k1 - k0) <= nb * w && LU_TRAILING_ROWS * (k1 - k0) <= LU_TRAILING_ROWS * nb
    ensures LU_TRAILING_ROWS * (w - k1) <= LU_TRAILING_ROWS * w
  {
    TimesMore(k1 - k0, nb, w - k1);
    TimesMore(w - k1, w, nb);
  }

  /** The generic solver: without panels up to a size, by panels above it. */
  method SolveGeneric<T>(O: Ops<T>, a: seq<T>, b: seq<T>, n: nat, k: nat, m: array2<T>, ut: array<T>, lrows: array<T>,
                         prod: array<T>, out: array2<T>)
    requires |a| == n * n && |b| == n * k && m.Length0 == n && m.Length1 == n + k
    requires out.Length0 == k && out.Length1 == n && m != out && ut != lrows && lrows != prod && ut != prod
    requires ut.Length >= LuPanel(n) * (n + k) && lrows.Length >= LU_TRAILING_ROWS * LuPanel(n)
    requires LuPanel(n) > 0 ==> prod.Length >= LU_TRAILING_ROWS * (n + k)
    modifies m, ut, lrows, prod, out
    ensures forall c, i :: 0 <= c < k && 0 <= i < n ==> out[c, i] == PanelSolution(O, a, b, n, k, LuPanel(n), c, i)
  {
    hide View, Eliminated, Panels, Unknown, Augmented;
    var nb := LuPanel(n);
    if nb == 0 {
      SolveUnblocked(O, a, b, n, k, m, out);
    } else {
      Fill(m, a, b, n, k);
      FactorBlocked(O, m, nb, ut, lrows, prod);
      BackSubstitute(O, m, out, n, k);
    }
  }

  // --- over an exact field ------------------------------------------------------------------------------------

  /** Row `i` of the flat matrix times `x`. */
  function FlatRow(a: seq<real>, n: nat, i: nat, x: seq<real>, end: nat): real
    requires |a| == n * n && i < n && end <= n && |x| == n
  {
    if end == 0 then 0.0 else FlatRow(a, n, i, x, end - 1) + Prod(a[At(i, n, end - 1, n)], x[end - 1])
  }

  lemma {:induction false} FlatRowIs(a: seq<real>, b: seq<real>, n: nat, k: nat, i: nat, x: seq<real>, end: nat)
    requires |a| == n * n && |b| == n * k && i < n && end <= n && |x| == n
    ensures RowTimes(Augmented(a, b, n, k), n, n + k, i, 0, end, x) == FlatRow(a, n, i, x, end)
    decreases end
  {
    hide Augmented;
    if end > 0 { FlatRowIs(a, b, n, k, i, x, end - 1); }
  }

  /** `x` of right-hand side `c` as the solver of panel width `nb` leaves it. */
  function Answer(O: Ops<real>, a: seq<real>, b: seq<real>, n: nat, k: nat, nb: nat, c: nat): (x: seq<real>)
    requires |a| == n * n && |b| == n * k && c < k
    ensures |x| == n && forall i :: 0 <= i < n ==> x[i] == PanelSolution(O, a, b, n, k, nb, c, i)
  {
    seq(n, i requires 0 <= i < n => PanelSolution(O, a, b, n, k, nb, c, i))
  }

  /** For every size, every number of right-hand sides and every panel width, with or
      without panels: if no chosen pivot is zero the solver's `x` has `A x = b`. */
  lemma {:induction false} SolverSolves(mag: real -> real, gt: (real, real) -> bool, a: seq<real>, b: seq<real>,
                                        n: nat, k: nat, nb: nat, c: nat, i: nat)
    requires |a| == n * n && |b| == n * k && c < k && i < n
    requires var f := Factored(Reals(mag, gt), Augmented(a, b, n, k), n, n + k, nb);
             forall q :: 0 <= q < n ==> f[q][q] != 0.0
    ensures FlatRow(a, n, i, Answer(Reals(mag, gt), a, b, n, k, nb, c), n) == b[At(c, n, i, k)]
  {
    hide Eliminated, Panels, RowTimes, Augmented, Unknown;
    var O, m := Reals(mag, gt), Augmented(a, b, n, k);
    EliminatedNone(O, m, n, n + k);
    if nb > 0 { PanelsAre(O, m, n, n + k, nb, 0, mag, gt); }
    assert Factored(O, m, n, n + k, nb) == Eliminated(O, m, n, n + k, n);
    EliminationSolves(O, m, n, n + k, c, i, mag, gt);
    var x := Answer(O, a, b, n, k, nb, c);
    assert x == Unknowns(O, Eliminated(O, m, n, n + k, n), n, n + k, c);
    FlatRowIs(a, b, n, k, i, x, n);
  }
}
