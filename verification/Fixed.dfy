/** The solvers that keep the matrix by columns: one system of a fixed size, and four
    systems side by side, lane `q` of every value system `q`'s. */
module FixedKernels {
  import opened Elimination
  import opened Kernels

  // --- by columns --------------------------------------------------------------------------------

  /** Column `j`'s entry `i` is the matrix's entry `(i, j)`, right-hand side `c`'s entry `i`
      that of column `n + c`. */
  ghost predicate Holds<T>(col: seq<seq<T>>, x: seq<seq<T>>, e: Matrix<T>, n: nat, k: nat) {
    && Shape(col, n, n) && Shape(x, k, n) && Shape(e, n, n + k)
    && (forall i, j :: 0 <= i < n && 0 <= j < n ==> col[j][i] == e[i][j])
    && (forall i, c :: 0 <= i < n && 0 <= c < k ==> x[c][i] == e[i][n + c])
  }

  /** Entries `kk` and `p` of every column swapped. */
  function SwapEntries<T>(cols: seq<seq<T>>, n: nat, kk: nat, p: nat): (r: seq<seq<T>>)
    requires Shape(cols, |cols|, n) && kk < n && p < n
    ensures Shape(r, |cols|, n)
    ensures forall c, i :: 0 <= c < |cols| && 0 <= i < n ==>
              r[c][i] == if i == kk then cols[c][p] else if i == p then cols[c][kk] else cols[c][i]
  {
    seq(|cols|, c requires 0 <= c < |cols| =>
          seq(n, i requires 0 <= i < n => if i == kk then cols[c][p] else if i == p then cols[c][kk] else cols[c][i]))
  }

  lemma SwapHolds<T>(col: seq<seq<T>>, x: seq<seq<T>>, e: Matrix<T>, n: nat, k: nat, kk: nat, p: nat)
    requires Holds(col, x, e, n, k) && kk < n && p < n
    ensures Holds(SwapEntries(col, n, kk, p), SwapEntries(x, n, kk, p), Swapped(e, kk, p), n, k)
  {
  }

  /** Every column from `from` less the multipliers times its own entry `kk`. */
  function Updated<T>(O: Ops<T>, cols: seq<seq<T>>, n: nat, from: nat, kk: nat, l: seq<T>): (r: seq<seq<T>>)
    requires Shape(cols, |cols|, n) && kk < n && |l| == n
    ensures Shape(r, |cols|, n)
    ensures forall c, i :: 0 <= c < |cols| && 0 <= i < n ==>
              r[c][i] == if c >= from && i > kk then O.sub(cols[c][i], O.mul(l[i], cols[c][kk])) else cols[c][i]
  {
    seq(|cols|, c requires 0 <= c < |cols| =>
          seq(n, i requires 0 <= i < n =>
                if c >= from && i > kk then O.sub(cols[c][i], O.mul(l[i], cols[c][kk])) else cols[c][i]))
  }

  /** Column `kk` below its pivot divided by it. */
  function Divided<T>(O: Ops<T>, col: seq<seq<T>>, n: nat, kk: nat): (r: seq<seq<T>>)
    requires Shape(col, n, n) && kk < n
    ensures Shape(r, n, n)
    ensures forall c, i :: 0 <= c < n && 0 <= i < n ==>
              r[c][i] == if c == kk && i > kk then O.div(col[kk][i], col[kk][kk]) else col[c][i]
  {
    seq(n, c requires 0 <= c < n =>
          seq(n, i requires 0 <= i < n => if c == kk && i > kk then O.div(col[kk][i], col[kk][kk]) else col[c][i]))
  }

  /** The multipliers, then every later column and right-hand side updated, is the
      elimination's step on the swapped rows. */
  lemma StepHolds<T>(O: Ops<T>, col: seq<seq<T>>, x: seq<seq<T>>, s: Matrix<T>, r: Matrix<T>, n: nat, k: nat, kk: nat,
                     l: seq<T>)
    requires Holds(col, x, s, n, k) && kk < n && |l| == n && Shape(r, n, n + k)
    requires forall i, j :: 0 <= i < n && 0 <= j < n + k ==> r[i][j] == Reduced(O, s, n, n + k, kk, i, j)
    requires forall i :: kk < i < n ==> l[i] == O.div(col[kk][i], col[kk][kk])
    ensures Holds(Updated(O, Divided(O, col, n, kk), n, kk + 1, kk, l), Updated(O, x, n, 0, kk, l), r, n, k)
  {
  }

  // --- one system ------------------------------------------------------------------------------------

  method UpdateColumns<T>(O: Ops<T>, cols: array2<T>, from: nat, kk: nat, l: seq<T>)
    requires kk < cols.Length1 && |l| == cols.Length1
    modifies cols
    ensures View(cols) == Updated(O, old(View(cols)), cols.Length1, from, kk, l)
  {
    ghost var was := View(cols);
    ghost var done := Updated(O, was, cols.Length1, from, kk, l);
    var n := cols.Length1;
    for c := 0 to cols.Length0
      invariant forall q, i :: 0 <= q < cols.Length0 && 0 <= i < n ==>
                cols[q, i] == if q < c then done[q][i] else was[q][i]
    {
      if c >= from {
        var u := cols[c, kk];
        for i := kk + 1 to n
          invariant forall q, r :: 0 <= q < cols.Length0 && 0 <= r < n ==>
                      cols[q, r] == if q < c || (q == c && r < i) then done[q][r] else was[q][r]
        {
          cols[c, i] := O.sub(cols[c, i], O.mul(l[i], u));
        }
      }
    }
    SameMatrix(View(cols), done, cols.Length0, n);
  }

  /** The multipliers of column `kk`, left below its pivot. */
  method Multipliers<T>(O: Ops<T>, col: array2<T>, kk: nat) returns (l: seq<T>)
    requires kk < col.Length0 == col.Length1
    modifies col
    ensures |l| == col.Length1 && View(col) == Divided(O, old(View(col)), col.Length0, kk)
    ensures forall i :: kk < i < |l| ==> l[i] == O.div(old(col[kk, i]), old(col[kk, kk]))
  {
    var n := col.Length0;
    ghost var was := View(col);
    var piv := col[kk, kk];
    var ls := new T[n](_ => O.zero);
    for i := kk + 1 to n
      invariant forall c, r :: 0 <= c < n && 0 <= r < n ==>
                  col[c, r] == if c == kk && kk < r < i then O.div(was[kk][r], was[kk][kk]) else was[c][r]
      invariant forall r :: kk < r < i ==> ls[r] == O.div(was[kk][r], was[kk][kk])
    {
      ls[i] := O.div(col[kk, i], piv);
      col[kk, i] := ls[i];
    }
    l := ls[..];
    SameMatrix(View(col), Divided(O, was, n, kk), n, n);
  }

  method ColumnPivot<T>(O: Ops<T>, col: array2<T>, kk: nat, ghost e: Matrix<T>, ghost w: nat) returns (p: nat)
    requires kk < col.Length0 == col.Length1 && Shape(e, col.Length0, w) && col.Length0 <= w
    requires forall i :: 0 <= i < col.Length0 ==> col[kk, i] == e[i][kk]
    ensures p == Pivot(O, e, col.Length0, w, kk)
  {
    p := kk;
    var best := O.mag(col[kk, kk]);
    for i := kk + 1 to col.Length0
      invariant p == PivotUpTo(O, e, col.Length0, w, kk, i) && best == O.mag(e[p][kk])
    {
      if O.gt(O.mag(col[kk, i]), best) { best, p := O.mag(col[kk, i]), i; }
    }
  }

  method SwapIn<T>(cols: array2<T>, kk: nat, p: nat)
    requires kk < cols.Length1 && p < cols.Length1
    modifies cols
    ensures View(cols) == SwapEntries(old(View(cols)), cols.Length1, kk, p)
  {
    ghost var was := View(cols);
    ghost var done := SwapEntries(was, cols.Length1, kk, p);
    for c := 0 to cols.Length0
      invariant forall q, i :: 0 <= q < cols.Length0 && 0 <= i < cols.Length1 ==>
                cols[q, i] == if q < c then done[q][i] else was[q][i]
    {
      cols[c, kk], cols[c, p] := cols[c, p], cols[c, kk];
    }
    SameMatrix(View(cols), done, cols.Length0, cols.Length1);
  }

  /** Columns and right-hand sides as one step of the elimination finds them. */
  ghost predicate At<T>(col: array2<T>, x: array2<T>, e: Matrix<T>, n: nat, k: nat)
    reads col, x
  {
    col.Length0 == n && col.Length1 == n && x.Length0 == k && x.Length1 == n && Holds(View(col), View(x), e, n, k)
  }

  method FillColumns<T>(col: array2<T>, x: array2<T>, a: seq<T>, b: seq<T>, n: nat, k: nat)
    requires |a| == n * n && |b| == n * k && col != x
    requires col.Length0 == n && col.Length1 == n && x.Length0 == k && x.Length1 == n
    modifies col, x
    ensures At(col, x, Augmented(a, b, n, k), n, k)
  {
    ghost var e := Augmented(a, b, n, k);
    for i := 0 to n
      invariant forall r, j :: 0 <= r < i && 0 <= j < n ==> col[j, r] == e[r][j]
    {
      for j := 0 to n
        invariant forall r, q :: 0 <= r < i && 0 <= q < n ==> col[q, r] == e[r][q]
        invariant forall q :: 0 <= q < j ==> col[q, i] == e[i][q]
      {
        col[j, i] := a[Elimination.At(i, n, j, n)];
      }
    }
    for c := 0 to k
      invariant forall r, j :: 0 <= r < n && 0 <= j < n ==> col[j, r] == e[r][j]
      invariant forall r, q :: 0 <= r < n && 0 <= q < c ==> x[q, r] == e[r][n + q]
    {
      for i := 0 to n
        invariant forall r, j :: 0 <= r < n && 0 <= j < n ==> col[j, r] == e[r][j]
        invariant forall r, q :: 0 <= r < n && 0 <= q < c ==> x[q, r] == e[r][n + q]
        invariant forall r :: 0 <= r < i ==> x[c, r] == e[r][n + c]
      {
        x[c, i] := b[Elimination.At(c, n, i, k)];
      }
    }
  }

  /** One column: the pivot, the swap, the multipliers, the updates down every column. */
  method FixedStep<T>(O: Ops<T>, col: array2<T>, x: array2<T>, n: nat, k: nat, kk: nat, ghost e: Matrix<T>)
    requires At(col, x, e, n, k) && kk < n && col != x
    modifies col, x
    ensures At(col, x, Step(O, e, n, n + k, kk), n, k)
  {
    hide View, Updated, Divided, SwapEntries, Step, Pivot, Holds;
    Held(col, x, e, n, k);
    var p := ColumnPivot(O, col, kk, e, n + k);
    SwapHolds(View(col), View(x), e, n, k, kk, p);
    ghost var s := Swapped(e, kk, p);
    if p != kk {
      SwapIn(col, kk, p);
      SwapIn(x, kk, p);
    } else {
      assert s == e;
    }
    ghost var c0, x0 := View(col), View(x);
    assert Holds(c0, x0, s, n, k);
    var l := Multipliers(O, col, kk);
    UpdateColumns(O, col, kk + 1, kk, l);
    UpdateColumns(O, x, 0, kk, l);
    StepHolds(O, c0, x0, s, Step(O, e, n, n + k, kk), n, k, kk, l);
  }

  /** The unknowns of one right-hand side, in place of its entries. */
  method BackColumn<T>(O: Ops<T>, col: array2<T>, x: array2<T>, n: nat, k: nat, c: nat, ghost e: Matrix<T>)
    requires col.Length0 == n && col.Length1 == n && x.Length0 == k && x.Length1 == n && col != x && c < k
             && Shape(e, n, n + k)
    requires forall i, j :: 0 <= i < n && 0 <= j < n ==> col[j, i] == e[i][j]
    requires forall i :: 0 <= i < n ==> x[c, i] == e[i][n + c]
    modifies x
    ensures forall q, i :: 0 <= q < k && 0 <= i < n ==>
            x[q, i] == if q == c then Unknown(O, e, n, n + k, c, i) else old(x[q, i])
  {
    for i := n downto 0
      invariant forall q, r :: 0 <= q < k && 0 <= r < n ==>
                  x[q, r] == if q == c && r >= i then Unknown(O, e, n, n + k, c, r) else old(x[q, r])
    {
      var s := x[c, i];
      for j := i + 1 to n
        invariant s == Remainder(O, e, n, n + k, c, i, j)
      {
        s := O.sub(s, O.mul(col[j, i], x[c, j]));
      }
      x[c, i] := O.div(s, col[i, i]);
    }
  }

  /** The elimination of `n` unknowns with the matrix by columns and the right-hand sides
      eliminated in place of the solutions: the reference's result, entry by entry. */
  method SolveFixed<T>(O: Ops<T>, a: seq<T>, b: seq<T>, n: nat, k: nat, col: array2<T>, out: array2<T>)
    requires |a| == n * n && |b| == n * k && col != out
    requires col.Length0 == n && col.Length1 == n && out.Length0 == k && out.Length1 == n
    modifies col, out
    ensures forall c, i :: 0 <= c < k && 0 <= i < n ==> out[c, i] == Solution(O, a, b, n, k, c, i)
  {
    hide View, Eliminated, Unknown, Step, Augmented, Holds;
    ghost var start, w := Augmented(a, b, n, k), n + k;
    FillColumns(col, out, a, b, n, k);
    EliminatedNone(O, start, n, w);
    for kk := 0 to n
      invariant At(col, out, Eliminated(O, start, n, w, kk), n, k)
    {
      EliminatedNext(O, start, n, w, kk);
      FixedStep(O, col, out, n, k, kk, Eliminated(O, start, n, w, kk));
    }
    ghost var e := Eliminated(O, start, n, w, n);
    Held(col, out, e, n, k);
    for c := 0 to k
      invariant forall i, j :: 0 <= i < n && 0 <= j < n ==> col[j, i] == e[i][j]
      invariant forall i, q :: 0 <= i < n && c <= q < k ==> out[q, i] == e[i][n + q]
      invariant forall i, q :: 0 <= i < n && 0 <= q < c ==> out[q, i] == Unknown(O, e, n, w, q, i)
    {
      BackColumn(O, col, out, n, k, c, e);
    }
  }

  lemma Held<T>(col: array2<T>, x: array2<T>, e: Matrix<T>, n: nat, k: nat)
    requires At(col, x, e, n, k)
    ensures Shape(e, n, n + k)
    ensures forall i, j :: 0 <= i < n && 0 <= j < n ==> col[j, i] == e[i][j]
    ensures forall i, c :: 0 <= i < n && 0 <= c < k ==> x[c, i] == e[i][n + c]
  {
  }

  // --- four systems side by side ------------------------------------------------------------------------

  /** A value of each of four systems. */
  datatype Quad<T> = Quad(l0: T, l1: T, l2: T, l3: T) {
    function Lane(q: nat): T
      requires q < 4
    { if q == 0 then l0 else if q == 1 then l1 else if q == 2 then l2 else l3 }
  }

  function Splat<T>(x: T): Quad<T> { Quad(x, x, x, x) }

  function Lanewise<A, B, C>(f: (A, B) -> C, u: Quad<A>, v: Quad<B>): (r: Quad<C>)
    ensures forall q :: 0 <= q < 4 ==> r.Lane(q) == f(u.Lane(q), v.Lane(q))
  {
    Quad(f(u.l0, v.l0), f(u.l1, v.l1), f(u.l2, v.l2), f(u.l3, v.l3))
  }

  function LaneMag<T>(O: Ops<T>, u: Quad<T>): (r: Quad<T>)
    ensures forall q :: 0 <= q < 4 ==> r.Lane(q) == O.mag(u.Lane(q))
  {
    Quad(O.mag(u.l0), O.mag(u.l1), O.mag(u.l2), O.mag(u.l3))
  }

  /** Lane by lane, `u` where the mask holds, else `v`. */
  function Chosen<T>(mask: Quad<bool>, u: Quad<T>, v: Quad<T>): (r: Quad<T>)
    ensures forall q :: 0 <= q < 4 ==> r.Lane(q) == if mask.Lane(q) then u.Lane(q) else v.Lane(q)
  {
    Quad(if mask.l0 then u.l0 else v.l0, if mask.l1 then u.l1 else v.l1,
         if mask.l2 then u.l2 else v.l2, if mask.l3 then u.l3 else v.l3)
  }

  /** The scalar's operations, lane by lane. */
  function LaneOps<T>(O: Ops<T>): Ops<Quad<T>> {
    Ops(Splat(O.zero),
        (u: Quad<T>, v: Quad<T>) => Lanewise(O.add, u, v), (u: Quad<T>, v: Quad<T>) => Lanewise(O.sub, u, v),
        (u: Quad<T>, v: Quad<T>) => Lanewise(O.mul, u, v), (u: Quad<T>, v: Quad<T>) => Lanewise(O.div, u, v),
        (u: Quad<T>) => LaneMag(O, u), (u: Quad<T>, v: Quad<T>) => false)
  }

  /** One lane of every column. */
  function LaneOf<T>(cols: seq<seq<Quad<T>>>, q: nat): (r: seq<seq<T>>)
    requires q < 4
    ensures |r| == |cols| && forall c :: 0 <= c < |cols| ==>
            |r[c]| == |cols[c]| && forall i :: 0 <= i < |cols[c]| ==> r[c][i] == cols[c][i].Lane(q)
  {
    seq(|cols|, c requires 0 <= c < |cols| => seq(|cols[c]|, i requires 0 <= i < |cols[c]| => cols[c][i].Lane(q)))
  }

  /** Lane by lane, the update of every column is the scalar's. */
  lemma UpdatedLane<T>(O: Ops<T>, cols: seq<seq<Quad<T>>>, n: nat, from: nat, kk: nat, l: seq<Quad<T>>, q: nat,
                       lq: seq<T>)
    requires Shape(cols, |cols|, n) && kk < n && |l| == n == |lq| && q < 4
             && forall i :: 0 <= i < n ==> lq[i] == l[i].Lane(q)
    ensures LaneOf(Updated(LaneOps(O), cols, n, from, kk, l), q) == Updated(O, LaneOf(cols, q), n, from, kk, lq)
  {
    SameMatrix(LaneOf(Updated(LaneOps(O), cols, n, from, kk, l), q), Updated(O, LaneOf(cols, q), n, from, kk, lq),
               |cols|, n);
  }

  lemma DividedLane<T>(O: Ops<T>, col: seq<seq<Quad<T>>>, n: nat, kk: nat, q: nat)
    requires Shape(col, n, n) && kk < n && q < 4
    ensures LaneOf(Divided(LaneOps(O), col, n, kk), q) == Divided(O, LaneOf(col, q), n, kk)
  {
    SameMatrix(LaneOf(Divided(LaneOps(O), col, n, kk), q), Divided(O, LaneOf(col, q), n, kk), n, n);
  }

  /** Every lane's pivot: the running best and its row, replaced where a lane's entry beats
      it. */
  method LanePivots<T>(O: Ops<T>, col: array2<Quad<T>>, kk: nat, ghost es: seq<Matrix<T>>, ghost w: nat)
    returns (p: Quad<nat>)
    requires kk < col.Length0 == col.Length1 && |es| == 4 && col.Length0 <= w
    requires forall q :: 0 <= q < 4 ==>
               Shape(es[q], col.Length0, w) && forall i :: 0 <= i < col.Length0 ==> col[kk, i].Lane(q) == es[q][i][kk]
    ensures forall q :: 0 <= q < 4 ==> p.Lane(q) == Pivot(O, es[q], col.Length0, w, kk)
  {
    var n := col.Length0;
    p := Splat(kk);
    var best := LaneMag(O, col[kk, kk]);
    for i := kk + 1 to n
      invariant forall q :: 0 <= q < 4 ==>
                  p.Lane(q) == PivotUpTo(O, es[q], n, w, kk, i) && best.Lane(q) == O.mag(es[q][p.Lane(q)][kk])
    {
      var v := LaneMag(O, col[kk, i]);
      var gt := Lanewise(O.gt, v, best);
      best := Chosen(gt, v, best);
      p := Chosen(gt, Splat(i), p);
    }
  }

  /** Lane `q`'s entries `kk` and `p[q]` swapped where `p[q]` was passed. */
  function LaneSwaps<T>(cols: seq<seq<Quad<T>>>, n: nat, kk: nat, p: Quad<nat>, i: nat, q: nat): (r: seq<seq<T>>)
    requires Shape(cols, |cols|, n) && kk < n && q < 4 && p.Lane(q) < n
    ensures Shape(r, |cols|, n)
  {
    if kk < p.Lane(q) < i then SwapEntries(LaneOf(cols, q), n, kk, p.Lane(q)) else LaneOf(cols, q)
  }

  /** The rows swapped in the lanes whose pivot is row `i`. */
  method SwapWhere<T>(cols: array2<Quad<T>>, kk: nat, i: nat, swap: Quad<bool>)
    requires kk < i < cols.Length1
    modifies cols
    ensures forall q :: 0 <= q < 4 ==>
              LaneOf(View(cols), q) == if swap.Lane(q) then SwapEntries(LaneOf(old(View(cols)), q), cols.Length1, kk, i)
                                       else LaneOf(old(View(cols)), q)
  {
    var n := cols.Length1;
    ghost var was := View(cols);
    for c := 0 to cols.Length0
      invariant forall b, r :: 0 <= b < cols.Length0 && 0 <= r < n ==>
                  cols[b, r] == if b >= c then was[b][r]
                                else if r == kk then Chosen(swap, was[b][i], was[b][kk])
                                else if r == i then Chosen(swap, was[b][kk], was[b][i]) else was[b][r]
    {
      var u, v := cols[c, kk], cols[c, i];
      cols[c, kk] := Chosen(swap, v, u);
      cols[c, i] := Chosen(swap, u, v);
    }
    forall q | 0 <= q < 4
      ensures LaneOf(View(cols), q) == if swap.Lane(q) then SwapEntries(LaneOf(was, q), n, kk, i) else LaneOf(was, q)
    {
      SameMatrix(LaneOf(View(cols), q), if swap.Lane(q)
                 then SwapEntries(LaneOf(was, q), n, kk, i) else LaneOf(was, q), cols.Length0, n);
    }
  }

  lemma SwapSelf<T>(cols: seq<seq<T>>, n: nat, kk: nat)
    requires Shape(cols, |cols|, n) && kk < n
    ensures SwapEntries(cols, n, kk, kk) == cols
  {
    SameMatrix(SwapEntries(cols, n, kk, kk), cols, |cols|, n);
  }

  /** Every lane's pivot row swapped in, by selects: rows that are no lane's pivot stay. */
  method SwapLanes<T>(col: array2<Quad<T>>, x: array2<Quad<T>>, kk: nat, p: Quad<nat>)
    requires col != x && col.Length1 == x.Length1 && kk < col.Length1
    requires forall q :: 0 <= q < 4 ==> kk <= p.Lane(q) < col.Length1
    modifies col, x
    ensures forall q :: 0 <= q < 4 ==>
              && LaneOf(View(col), q) == SwapEntries(LaneOf(old(View(col)), q), col.Length1, kk, p.Lane(q))
              && LaneOf(View(x), q) == SwapEntries(LaneOf(old(View(x)), q), col.Length1, kk, p.Lane(q))
  {
    hide View, LaneOf, SwapEntries;
    var n := col.Length1;
    ghost var c0, x0 := View(col), View(x);
    for i := kk + 1 to n
      invariant forall q :: 0 <= q < 4 ==>
                  LaneOf(View(col), q) == LaneSwaps(c0, n, kk, p, i, q)
                      && LaneOf(View(x), q) == LaneSwaps(x0, n, kk, p, i, q)
    {
      var swap := Quad(p.l0 == i, p.l1 == i, p.l2 == i, p.l3 == i);
      SwapWhere(col, kk, i, swap);
      SwapWhere(x, kk, i, swap);
    }
    forall q | 0 <= q < 4
      ensures LaneSwaps(c0, n, kk, p, n, q) == SwapEntries(LaneOf(c0, q), n, kk, p.Lane(q))
      ensures LaneSwaps(x0, n, kk, p, n, q) == SwapEntries(LaneOf(x0, q), n, kk, p.Lane(q))
    {
      if p.Lane(q) == kk {
        SwapSelf(LaneOf(c0, q), n, kk);
        SwapSelf(LaneOf(x0, q), n, kk);
      }
    }
  }

  /** Lane `q`'s system is at `es[q]`, for every lane. */
  ghost predicate LanesAt<T>(col: seq<seq<Quad<T>>>, x: seq<seq<Quad<T>>>, es: seq<Matrix<T>>, n: nat, k: nat) {
    && |es| == 4 && Shape(col, n, n) && Shape(x, k, n)
    && forall q :: 0 <= q < 4 ==> Holds(LaneOf(col, q), LaneOf(x, q), es[q], n, k)
  }

  function Steps<T>(O: Ops<T>, es: seq<Matrix<T>>, n: nat, w: nat, kk: nat): (r: seq<Matrix<T>>)
    requires |es| == 4 && kk < n && kk < w && forall q :: 0 <= q < 4 ==> Shape(es[q], n, w)
    ensures |r| == 4 && forall q :: 0 <= q < 4 ==> r[q] == Step(O, es[q], n, w, kk)
  {
    seq(4, q requires 0 <= q < 4 => Step(O, es[q], n, w, kk))
  }

  lemma LaneStepHolds<T>(O: Ops<T>, c0: seq<seq<Quad<T>>>, x0: seq<seq<Quad<T>>>, s: Matrix<T>, r: Matrix<T>, n: nat,
                         k: nat, kk: nat,
                         l: seq<Quad<T>>, q: nat)
    requires Shape(c0, n, n) && Shape(x0, k, n) && kk < n && |l| == n && q < 4 && Shape(r, n, n + k)
    requires Holds(LaneOf(c0, q), LaneOf(x0, q), s, n, k)
    requires forall i, j :: 0 <= i < n && 0 <= j < n + k ==> r[i][j] == Reduced(O, s, n, n + k, kk, i, j)
    requires forall i :: kk < i < n ==> l[i] == LaneOps(O).div(c0[kk][i], c0[kk][kk])
    ensures Holds(LaneOf(Updated(LaneOps(O), Divided(LaneOps(O), c0, n, kk), n, kk + 1, kk, l), q),
                  LaneOf(Updated(LaneOps(O), x0, n, 0, kk, l), q), r, n, k)
  {
    hide Holds, Reduced, Updated, Divided, LaneOf;
    var lq := seq(n, i requires 0 <= i < n => l[i].Lane(q));
    DividedLane(O, c0, n, kk, q);
    UpdatedLane(O, Divided(LaneOps(O), c0, n, kk), n, kk + 1, kk, l, q, lq);
    UpdatedLane(O, x0, n, 0, kk, l, q, lq);
    StepHolds(O, LaneOf(c0, q), LaneOf(x0, q), s, r, n, k, kk, lq);
  }

  /** Every lane's pivot row swapped in. */
  function LanesSwapped<T>(es: seq<Matrix<T>>, n: nat, w: nat, kk: nat, O: Ops<T>): (r: seq<Matrix<T>>)
    requires |es| == 4 && kk < n && kk < w && forall q :: 0 <= q < 4 ==> Shape(es[q], n, w)
    ensures |r| == 4 && forall q :: 0 <= q < 4 ==> r[q] == Swapped(es[q], kk, Pivot(O, es[q], n, w, kk))
  {
    seq(4, q requires 0 <= q < 4 => Swapped(es[q], kk, Pivot(O, es[q], n, w, kk)))
  }

  /** The pivots of four systems found and their rows swapped in. */
  method LanesPivot<T>(O: Ops<T>, col: array2<Quad<T>>, x: array2<Quad<T>>, n: nat, k: nat, kk: nat,
                       ghost es: seq<Matrix<T>>)
    requires col != x && col.Length0 == n && col.Length1 == n && x.Length0 == k && x.Length1 == n && kk < n
    requires LanesAt(View(col), View(x), es, n, k)
    modifies col, x
    ensures |es| == 4 && (forall q :: 0 <= q < 4 ==> Shape(es[q], n, n + k))
    ensures LanesAt(View(col), View(x), LanesSwapped(es, n, n + k, kk, O), n, k)
  {
    hide View, SwapEntries, Pivot, LaneOf, Holds;
    PivotColumn(View(col), View(x), es, n, k, kk);
    var p := LanePivots(O, col, kk, es, n + k);
    forall q | 0 <= q < 4 { SwapHolds(LaneOf(View(col), q), LaneOf(View(x), q), es[q], n, k, kk, p.Lane(q)); }
    SwapLanes(col, x, kk, p);
  }

  /** The multipliers of four systems and the updates down every column. */
  method LanesReduce<T>(O: Ops<T>, col: array2<Quad<T>>, x: array2<Quad<T>>, n: nat, k: nat, kk: nat,
                        ghost es: seq<Matrix<T>>)
    requires col != x && col.Length0 == n && col.Length1 == n && x.Length0 == k && x.Length1 == n && kk < n
    requires |es| == 4 && forall q :: 0 <= q < 4 ==> Shape(es[q], n, n + k)
    requires LanesAt(View(col), View(x), LanesSwapped(es, n, n + k, kk, O), n, k)
    modifies col, x
    ensures LanesAt(View(col), View(x), Steps(O, es, n, n + k, kk), n, k)
  {
    hide View, Updated, Divided, Step, Pivot, LaneOf, Holds, LaneOps;
    ghost var c0, x0, ss, rs := View(col), View(x), LanesSwapped(es, n, n + k, kk, O), Steps(O, es, n, n + k, kk);
    var L := LaneOps(O);
    var l := Multipliers(L, col, kk);
    UpdateColumns(L, col, kk + 1, kk, l);
    UpdateColumns(L, x, 0, kk, l);
    forall q | 0 <= q < 4 ensures Holds(LaneOf(View(col), q), LaneOf(View(x), q), rs[q], n, k) {
      LaneStepHolds(O, c0, x0, ss[q], rs[q], n, k, kk, l, q);
    }
  }

  /** One column of four systems. */
  method LanesStep<T>(O: Ops<T>, col: array2<Quad<T>>, x: array2<Quad<T>>, n: nat, k: nat, kk: nat,
                      ghost es: seq<Matrix<T>>)
    requires col != x && col.Length0 == n && col.Length1 == n && x.Length0 == k && x.Length1 == n && kk < n
    requires LanesAt(View(col), View(x), es, n, k)
    modifies col, x
    ensures (forall q :: 0 <= q < 4 ==> Shape(es[q], n, n + k))
            && LanesAt(View(col), View(x), Steps(O, es, n, n + k, kk), n, k)
  {
    hide View, LanesAt, LanesSwapped, Steps;
    LanesPivot(O, col, x, n, k, kk, es);
    LanesReduce(O, col, x, n, k, kk, es);
  }

  lemma PivotColumn<T>(col: seq<seq<Quad<T>>>, x: seq<seq<Quad<T>>>, es: seq<Matrix<T>>, n: nat, k: nat, kk: nat)
    requires LanesAt(col, x, es, n, k) && kk < n
    ensures forall q :: 0 <= q < 4 ==> Shape(es[q], n, n + k) && forall i :: 0 <= i < n ==>
              col[kk][i].Lane(q) == es[q][i][kk]
  {
    forall q | 0 <= q < 4
      ensures Shape(es[q], n, n + k) && forall i :: 0 <= i < n ==> col[kk][i].Lane(q) == es[q][i][kk] {
      assert Holds(LaneOf(col, q), LaneOf(x, q), es[q], n, k);
    }
  }

  /** The matrix of quads the columns are. */
  function FromColumns<T>(col: seq<seq<T>>, x: seq<seq<T>>, n: nat, k: nat): (r: Matrix<T>)
    requires Shape(col, n, n) && Shape(x, k, n)
    ensures Shape(r, n, n + k)
    ensures forall i, j :: 0 <= i < n && 0 <= j < n + k ==> r[i][j] == if j < n then col[j][i] else x[j - n][i]
  {
    seq(n, i requires 0 <= i < n => seq(n + k, j requires 0 <= j < n + k => if j < n then col[j][i] else x[j - n][i]))
  }

  lemma LaneMatrix<T>(col: seq<seq<Quad<T>>>, x: seq<seq<Quad<T>>>, e: Matrix<T>, n: nat, k: nat, q: nat)
    requires Shape(col, n, n) && Shape(x, k, n) && q < 4 && Holds(LaneOf(col, q), LaneOf(x, q), e, n, k)
    ensures LaneOf(FromColumns(col, x, n, k), q) == e
  {
    SameMatrix(LaneOf(FromColumns(col, x, n, k), q), e, n, n + k);
  }

  /** Back substitution lane by lane is the scalar's. */
  lemma {:induction false} RemainderLane<T>(O: Ops<T>, m: Matrix<Quad<T>>, n: nat, w: nat, c: nat, i: nat, upto: nat,
                                            q: nat)
    requires Shape(m, n, w) && n + c < w && i < upto <= n && q < 4
    ensures Shape(LaneOf(m, q), n, w) && Remainder(LaneOps(O), m, n, w, c, i, upto).Lane(q) ==
            Remainder(O, LaneOf(m, q), n, w, c, i, upto)
    decreases n - i, upto
  {
    hide LaneOf, Unknown;
    if upto > i + 1 {
      RemainderLane(O, m, n, w, c, i, upto - 1, q);
      UnknownLane(O, m, n, w, c, upto - 1, q);
    }
  }

  lemma {:induction false} UnknownLane<T>(O: Ops<T>, m: Matrix<Quad<T>>, n: nat, w: nat, c: nat, i: nat, q: nat)
    requires Shape(m, n, w) && n + c < w && i < n && q < 4
    ensures Shape(LaneOf(m, q), n, w) && Unknown(LaneOps(O), m, n, w, c, i).Lane(q) ==
            Unknown(O, LaneOf(m, q), n, w, c, i)
    decreases n - i, n + 1
  {
    hide LaneOf, Remainder;
    RemainderLane(O, m, n, w, c, i, n, q);
  }
}
