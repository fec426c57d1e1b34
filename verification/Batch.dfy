/** A batch of systems: four at a time in lanes where they are small enough, one by one
    otherwise, each system's solutions those of the system solved alone. */
module BatchSolves {
  import opened BlockedSolves
  import opened DenseProducts
  import opened Elimination
  import opened FixedKernels
  import opened Kernels
  import opened PanelKernels

  const LANES: nat := 4
  const FIXED_MAX: nat := 16
  const SOLVE_BATCH_MAX_N: nat := 16
  const SOLVE_BATCH_MAX_K: nat := 4

  /** Solutions kept apart, a matrix of right-hand sides by unknowns per system. */
  ghost predicate Outs<T>(outs: seq<array2<T>>, n: nat, k: nat) {
    && (forall q :: 0 <= q < |outs| ==> outs[q].Length0 == k && outs[q].Length1 == n)
    && (forall p, q :: 0 <= p < q < |outs| ==> outs[p] != outs[q])
  }

  /** The four systems' augmented matrices. */
  function Starts<T>(a: seq<seq<T>>, b: seq<seq<T>>, n: nat, k: nat): (r: seq<Matrix<T>>)
    requires |a| == 4 && |b| == 4 && forall q :: 0 <= q < 4 ==> |a[q]| == n * n && |b[q]| == n * k
    ensures |r| == 4 && forall q :: 0 <= q < 4 ==> r[q] == Augmented(a[q], b[q], n, k)
  {
    seq(4, q requires 0 <= q < 4 => Augmented(a[q], b[q], n, k))
  }

  function Gather<T>(s: seq<seq<T>>, at: nat): (r: Quad<T>)
    requires |s| == 4 && forall q :: 0 <= q < 4 ==> at < |s[q]|
    ensures forall q :: 0 <= q < 4 ==> r.Lane(q) == s[q][at]
  {
    Quad(s[0][at], s[1][at], s[2][at], s[3][at])
  }

  method FillLanes<T>(col: array2<Quad<T>>, x: array2<Quad<T>>, a: seq<seq<T>>, b: seq<seq<T>>, n: nat, k: nat)
    requires |a| == 4 && |b| == 4 && forall q :: 0 <= q < 4 ==> |a[q]| == n * n && |b[q]| == n * k
    requires col != x && col.Length0 == n && col.Length1 == n && x.Length0 == k && x.Length1 == n
    modifies col, x
    ensures LanesAt(View(col), View(x), Starts(a, b, n, k), n, k)
  {
    for i := 0 to n
      invariant forall r, j :: 0 <= r < i && 0 <= j < n ==> col[j, r] == Gather(a, Elimination.At(r, n, j, n))
    {
      for j := 0 to n
        invariant forall r, c :: 0 <= r < i && 0 <= c < n ==> col[c, r] == Gather(a, Elimination.At(r, n, c, n))
        invariant forall c :: 0 <= c < j ==> col[c, i] == Gather(a, Elimination.At(i, n, c, n))
      {
        col[j, i] := Gather(a, Elimination.At(i, n, j, n));
      }
    }
    for c := 0 to k
      invariant forall r, j :: 0 <= r < n && 0 <= j < n ==> col[j, r] == Gather(a, Elimination.At(r, n, j, n))
      invariant forall r, d :: 0 <= r < n && 0 <= d < c ==> x[d, r] == Gather(b, Elimination.At(d, n, r, k))
    {
      for i := 0 to n
        invariant forall r, j :: 0 <= r < n && 0 <= j < n ==> col[j, r] == Gather(a, Elimination.At(r, n, j, n))
        invariant forall r, d :: 0 <= r < n && 0 <= d < c ==> x[d, r] == Gather(b, Elimination.At(d, n, r, k))
        invariant forall r :: 0 <= r < i ==> x[c, r] == Gather(b, Elimination.At(c, n, r, k))
      {
        x[c, i] := Gather(b, Elimination.At(c, n, i, k));
      }
    }
    forall q | 0 <= q < 4 ensures Holds(LaneOf(View(col), q), LaneOf(View(x), q), Augmented(a[q], b[q], n, k), n, k) {
    }
  }

  method StoreLanes<T>(outs: seq<array2<T>>, n: nat, k: nat, c: nat, i: nat, v: Quad<T>)
    requires |outs| == 4 && Outs(outs, n, k) && c < k && i < n
    modifies outs
    ensures forall q, d, r :: 0 <= q < 4 && 0 <= d < k && 0 <= r < n ==>
              outs[q][d, r] == if d == c && r == i then v.Lane(q) else old(outs[q][d, r])
  {
    outs[0][c, i] := v.l0;
    outs[1][c, i] := v.l1;
    outs[2][c, i] := v.l2;
    outs[3][c, i] := v.l3;
  }

  /** One unknown of one right-hand side, those after it found. */
  method OneColumnUnknown<T>(O: Ops<T>, col: array2<T>, x: array2<T>, n: nat, k: nat, c: nat, i: nat,
                             ghost e: Matrix<T>) returns (v: T)
    requires col.Length0 == n && col.Length1 == n && x.Length0 == k && x.Length1 == n && c < k && i < n
             && Shape(e, n, n + k)
    requires forall r, j :: 0 <= r < n && 0 <= j < n ==> col[j, r] == e[r][j]
    requires x[c, i] == e[i][n + c] && forall r :: i < r < n ==> x[c, r] == Unknown(O, e, n, n + k, c, r)
    ensures v == Unknown(O, e, n, n + k, c, i)
  {
    var s := x[c, i];
    for j := i + 1 to n
      invariant s == Remainder(O, e, n, n + k, c, i, j)
    {
      s := O.sub(s, O.mul(col[j, i], x[c, j]));
    }
    v := O.div(s, col[i, i]);
  }

  /** Right-hand side `c`'s unknowns from `i` on are found, in `x` and lane by lane in `outs`. */
  ghost predicate Found<T>(O: Ops<T>, x: Matrix<Quad<T>>, x0: Matrix<Quad<T>>, outs: seq<Matrix<T>>,
                           outs0: seq<Matrix<T>>, n: nat, k: nat, c: nat, i: nat,
                           e: Matrix<Quad<T>>) {
    && Shape(e, n, n + k) && Shape(x, k, n) && Shape(x0, k, n) && |outs| == 4 == |outs0| && c < k && i <= n
    && (forall q :: 0 <= q < 4 ==> Shape(outs[q], k, n) && Shape(outs0[q], k, n))
    && (forall d, r :: 0 <= d < k && 0 <= r < n ==>
          x[d][r] == if d == c && r >= i then Unknown(LaneOps(O), e, n, n + k, c, r) else x0[d][r])
    && (forall q, d, r :: 0 <= q < 4 && 0 <= d < k && 0 <= r < n ==>
          outs[q][d][r] == if d == c && r >= i then Unknown(LaneOps(O), e, n, n + k, c, r).Lane(q) else outs0[q][d][r])
  }

  ghost function Views<T>(outs: seq<array2<T>>): (r: seq<Matrix<T>>)
    reads outs
    ensures |r| == |outs| && forall q :: 0 <= q < |outs| ==> r[q] == View(outs[q])
  {
    seq(|outs|, q requires 0 <= q < |outs| reads outs => View(outs[q]))
  }

  /** Back substitution of one right-hand side of the four systems, each lane's unknowns
      stored as they are found. */
  method BackLanes<T>(O: Ops<T>, col: array2<Quad<T>>, x: array2<Quad<T>>, outs: seq<array2<T>>, n: nat, k: nat,
                      c: nat, ghost e: Matrix<Quad<T>>)
    requires col.Length0 == n && col.Length1 == n && x.Length0 == k && x.Length1 == n && col != x && c < k
             && Shape(e, n, n + k)
    requires forall i, j :: 0 <= i < n && 0 <= j < n ==> col[j, i] == e[i][j]
    requires forall i :: 0 <= i < n ==> x[c, i] == e[i][n + c]
    requires |outs| == 4 && Outs(outs, n, k)
             && forall q :: 0 <= q < 4 ==> (outs[q] as object) != x && (outs[q] as object) != col
    modifies x, outs
    ensures Found(O, View(x), old(View(x)), Views(outs), old(Views(outs)), n, k, c, 0, e)
  {
    ghost var x0, outs0 := View(x), Views(outs);
    hide Unknown, LaneOps;
    for i := n downto 0
      invariant forall r, j :: 0 <= r < n && 0 <= j < n ==> col[j, r] == e[r][j]
      invariant Found(O, View(x), x0, Views(outs), outs0, n, k, c, i, e)
    {
      FoundAt(O, x, x0, Views(outs), outs0, n, k, c, i + 1, e);
      var v := OneColumnUnknown(LaneOps(O), col, x, n, k, c, i, e);
      ghost var x1, outs1 := View(x), Views(outs);
      x[c, i] := v;
      StoreLanes(outs, n, k, c, i, v);
      FoundNext(O, x1, x0, outs1, outs0, n, k, c, i, e, View(x), Views(outs), v);
    }
  }

  lemma FoundAt<T>(O: Ops<T>, x: array2<Quad<T>>, x0: Matrix<Quad<T>>, outs: seq<Matrix<T>>, outs0: seq<Matrix<T>>,
                   n: nat, k: nat, c: nat, i: nat,
                   e: Matrix<Quad<T>>)
    requires Found(O, View(x), x0, outs, outs0, n, k, c, i, e) && x.Length0 == k && x.Length1 == n
    ensures forall d, r :: 0 <= d < k && 0 <= r < n ==>
              x[d, r] == if d == c && r >= i then Unknown(LaneOps(O), e, n, n + k, c, r) else x0[d][r]
  {
    hide Unknown, LaneOps;
  }

  lemma FoundNext<T>(O: Ops<T>, x: Matrix<Quad<T>>, x0: Matrix<Quad<T>>, outs: seq<Matrix<T>>, outs0: seq<Matrix<T>>,
                     n: nat, k: nat, c: nat, i: nat,
                     e: Matrix<Quad<T>>, x1: Matrix<Quad<T>>, outs1: seq<Matrix<T>>, v: Quad<T>)
    requires i < n && Found(O, x, x0, outs, outs0, n, k, c, i + 1, e) && v == Unknown(LaneOps(O), e, n, n + k, c, i)
    requires Shape(x1, k, n) && |outs1| == 4
    requires forall q :: 0 <= q < 4 ==> |outs1[q]| == k && forall d :: 0 <= d < k ==> |outs1[q][d]| == n
    requires forall d, r :: 0 <= d < k && 0 <= r < n ==> x1[d][r] == if d == c && r == i then v else x[d][r]
    requires forall q, d, r :: 0 <= q < 4 && 0 <= d < k && 0 <= r < n ==>
               outs1[q][d][r] == if d == c && r == i then v.Lane(q) else outs[q][d][r]
    ensures Found(O, x1, x0, outs1, outs0, n, k, c, i, e)
  {
    hide Unknown, LaneOps;
  }

  /** Every lane's system at its own elimination. */
  function Eliminations<T>(O: Ops<T>, starts: seq<Matrix<T>>, n: nat, w: nat, kk: nat): (r: seq<Matrix<T>>)
    requires |starts| == 4 && kk <= n <= w && forall q :: 0 <= q < 4 ==> Shape(starts[q], n, w)
    ensures |r| == 4 && forall q :: 0 <= q < 4 ==> r[q] == Eliminated(O, starts[q], n, w, kk)
  {
    seq(4, q requires 0 <= q < 4 => Eliminated(O, starts[q], n, w, kk))
  }

  lemma EliminationsNext<T>(O: Ops<T>, starts: seq<Matrix<T>>, n: nat, w: nat, kk: nat)
    requires |starts| == 4 && kk < n <= w && forall q :: 0 <= q < 4 ==> Shape(starts[q], n, w)
    ensures Steps(O, Eliminations(O, starts, n, w, kk), n, w, kk) == Eliminations(O, starts, n, w, kk + 1)
  {
    hide Step, Eliminated;
    forall q | 0 <= q < 4 { EliminatedNext(O, starts[q], n, w, kk); }
  }

  lemma EliminationsNone<T>(O: Ops<T>, starts: seq<Matrix<T>>, n: nat, w: nat)
    requires |starts| == 4 && n <= w && forall q :: 0 <= q < 4 ==> Shape(starts[q], n, w)
    ensures Eliminations(O, starts, n, w, 0) == starts
  {
    forall q | 0 <= q < 4 { EliminatedNone(O, starts[q], n, w); }
  }

  /** The right-hand sides before `c` are solved, the others as eliminated. */
  ghost predicate Solved<T>(O: Ops<T>, x: Matrix<Quad<T>>, outs: seq<Matrix<T>>, n: nat, k: nat, c: nat,
                            e: Matrix<Quad<T>>) {
    && Shape(e, n, n + k) && Shape(x, k, n) && |outs| == 4 && c <= k
    && (forall q :: 0 <= q < 4 ==> Shape(outs[q], k, n))
    && (forall d, r :: c <= d < k && 0 <= r < n ==> x[d][r] == e[r][n + d])
    && (forall q, d, r :: 0 <= q < 4 && 0 <= d < c && 0 <= r < n ==>
        outs[q][d][r] == Unknown(LaneOps(O), e, n, n + k, d, r).Lane(q))
  }

  lemma SolvedNext<T>(O: Ops<T>, x: Matrix<Quad<T>>, outs: seq<Matrix<T>>, n: nat, k: nat, c: nat, e: Matrix<Quad<T>>,
                      x1: Matrix<Quad<T>>, outs1: seq<Matrix<T>>)
    requires Solved(O, x, outs, n, k, c, e) && c < k && Found(O, x1, x, outs1, outs, n, k, c, 0, e)
    ensures Solved(O, x1, outs1, n, k, c + 1, e)
  {
    hide Unknown, LaneOps;
  }

  lemma SolvedAt<T>(O: Ops<T>, x: array2<Quad<T>>, outs: seq<Matrix<T>>, n: nat, k: nat, c: nat, e: Matrix<Quad<T>>)
    requires x.Length0 == k && x.Length1 == n && Solved(O, View(x), outs, n, k, c, e) && c < k
    ensures forall r :: 0 <= r < n ==> x[c, r] == e[r][n + c]
  {
    hide Unknown, LaneOps;
  }

  lemma SolvedNone<T>(O: Ops<T>, col: Matrix<Quad<T>>, x: Matrix<Quad<T>>, outs: seq<Matrix<T>>, n: nat, k: nat)
    requires Shape(col, n, n) && Shape(x, k, n) && |outs| == 4 && forall q :: 0 <= q < 4 ==> Shape(outs[q], k, n)
    ensures Solved(O, x, outs, n, k, 0, FromColumns(col, x, n, k))
  {
  }

  /** Four systems of `n` unknowns side by side: every lane's solutions are its own system's,
      as the reference leaves them. */
  method SolveLanes<T>(O: Ops<T>, a: seq<seq<T>>, b: seq<seq<T>>, n: nat, k: nat, outs: seq<array2<T>>)
    requires |a| == 4 && |b| == 4 && forall q :: 0 <= q < 4 ==> |a[q]| == n * n && |b[q]| == n * k
    requires |outs| == 4 && Outs(outs, n, k)
    modifies outs
    ensures forall q, c, i :: 0 <= q < 4 && 0 <= c < k && 0 <= i < n ==>
            outs[q][c, i] == Solution(O, a[q], b[q], n, k, c, i)
  {
    hide View, Eliminated, Unknown, Step, Augmented, LanesAt, Solved, Found, LaneOps, FromColumns;
    var col := new Quad<T>[n, n]((_, _) => Splat(O.zero));
    var x := new Quad<T>[k, n]((_, _) => Splat(O.zero));
    ghost var starts, w := Starts(a, b, n, k), n + k;
    FillLanes(col, x, a, b, n, k);
    EliminationsNone(O, starts, n, w);
    for kk := 0 to n
      invariant LanesAt(View(col), View(x), Eliminations(O, starts, n, w, kk), n, k)
    {
      EliminationsNext(O, starts, n, w, kk);
      LanesStep(O, col, x, n, k, kk, Eliminations(O, starts, n, w, kk));
    }
    ghost var es := Eliminations(O, starts, n, w, n);
    ghost var c0, e := View(col), FromColumns(View(col), View(x), n, k);
    ghost var x0 := View(x);
    SolvedNone(O, View(col), View(x), Views(outs), n, k);
    ColumnsAt(col, View(x), n, k);
    for c := 0 to k
      invariant forall i, j :: 0 <= i < n && 0 <= j < n ==> col[j, i] == e[i][j]
      invariant Solved(O, View(x), Views(outs), n, k, c, e)
    {
      SolvedAt(O, x, Views(outs), n, k, c, e);
      ghost var x1, outs1 := View(x), Views(outs);
      BackLanes(O, col, x, outs, n, k, c, e);
      SolvedNext(O, x1, outs1, n, k, c, e, View(x), Views(outs));
    }
    forall q, c, i | 0 <= q < 4 && 0 <= c < k && 0 <= i < n
      ensures outs[q][c, i] == Solution(O, a[q], b[q], n, k, c, i) {
      SolvedLane(O, c0, x0, View(x), outs, n, k, es, q, c, i);
    }
  }

  lemma ColumnsAt<T>(col: array2<T>, x: Matrix<T>, n: nat, k: nat)
    requires col.Length0 == n && col.Length1 == n && Shape(x, k, n)
    ensures forall i, j :: 0 <= i < n && 0 <= j < n ==> col[j, i] == FromColumns(View(col), x, n, k)[i][j]
  {
  }

  lemma SolvedLane<T>(O: Ops<T>, col: Matrix<Quad<T>>, x0: Matrix<Quad<T>>, x: Matrix<Quad<T>>, outs: seq<array2<T>>,
                      n: nat, k: nat,
                      es: seq<Matrix<T>>, q: nat, c: nat, i: nat)
    requires LanesAt(col, x0, es, n, k) && q < 4 && c < k && i < n && |outs| == 4 && Outs(outs, n, k)
    requires Solved(O, x, Views(outs), n, k, k, FromColumns(col, x0, n, k))
    ensures Shape(es[q], n, n + k) && outs[q][c, i] == Unknown(O, es[q], n, n + k, c, i)
  {
    hide Unknown, LaneOps;
    LaneMatrix(col, x0, es[q], n, k, q);
    UnknownLane(O, FromColumns(col, x0, n, k), n, n + k, c, i, q);
  }

  // --- the batch -----------------------------------------------------------------------------------------------

  /** What a system solved alone leaves: a fixed size and a size without panels as the plain
      elimination, a larger one by panels. */
  method SolveOne<T>(O: Ops<T>, a: seq<T>, b: seq<T>, n: nat, k: nat, col: array2<T>, m: array2<T>, ut: array<T>,
                     lrows: array<T>, prod: array<T>, out: array2<T>)
    requires |a| == n * n && |b| == n * k && out.Length0 == k && out.Length1 == n
    requires col.Length0 == n && col.Length1 == n && m.Length0 == n && m.Length1 == n + k && col != out && m != out
    requires ut != lrows && lrows != prod && ut != prod && ut.Length >= LuPanel(n) * (n + k)
             && lrows.Length >= LU_TRAILING_ROWS * LuPanel(n)
    requires LuPanel(n) > 0 ==> prod.Length >= LU_TRAILING_ROWS * (n + k)
    modifies col, m, ut, lrows, prod, out
    ensures forall c, i :: 0 <= c < k && 0 <= i < n ==> out[c, i] == PanelSolution(O, a, b, n, k, LuPanel(n), c, i)
  {
    hide View, Eliminated, Unknown, Augmented, Panels;
    if 1 <= n <= FIXED_MAX {
      SolveFixed(O, a, b, n, k, col, out);
    } else {
      SolveGeneric(O, a, b, n, k, m, ut, lrows, prod, out);
    }
  }

  /** System `c` of a batch kept back to back. */
  function System<T>(a: seq<T>, count: nat, size: nat, c: nat): (r: seq<T>)
    requires count * size <= |a| && c < count
    ensures |r| == size
  { RowAt(a, count, size, c) }

  function Four<T>(a: seq<T>, count: nat, size: nat, c: nat): (r: seq<seq<T>>)
    requires count * size <= |a| && c + LANES <= count
    ensures |r| == LANES && forall q :: 0 <= q < LANES ==> r[q] == System(a, count, size, c + q)
  { seq(LANES, q requires 0 <= q < LANES => System(a, count, size, c + q)) }

  /** The systems before `upto` are solved. */
  ghost predicate Done<T>(O: Ops<T>, a: seq<T>, b: seq<T>, n: nat, k: nat, count: nat, outs: seq<array2<T>>, upto: nat)
    reads outs
  {
    && count * (n * n) <= |a| && count * (n * k) <= |b| && |outs| == count && upto <= count && Outs(outs, n, k)
    && forall s, c, i :: 0 <= s < upto && 0 <= c < k && 0 <= i < n ==>
         outs[s][c, i] == PanelSolution(O, System(a, count, n * n, s), System(b, count, n * k, s), n, k, LuPanel(n),
                                        c, i)
  }

  /** Solutions outside the systems from `s` up to `end` stay. */
  lemma DoneKept<T>(O: Ops<T>, a: seq<T>, b: seq<T>, n: nat, k: nat, count: nat, outs: seq<array2<T>>,
                    was: seq<Matrix<T>>, s: nat, end: nat)
    requires count * (n * n) <= |a| && count * (n * k) <= |b| && |outs| == count && s <= end <= count
             && Outs(outs, n, k)
    requires |was| == count && forall q :: 0 <= q < s ==> View(outs[q]) == was[q]
    requires forall q :: 0 <= q < s ==> |was[q]| == k && forall c :: 0 <= c < k ==> |was[q][c]| == n
    requires forall q, c, i :: 0 <= q < s && 0 <= c < k && 0 <= i < n ==>
               was[q][c][i] == PanelSolution(O, System(a, count, n * n, q), System(b, count, n * k, q), n, k,
                                             LuPanel(n), c, i)
    requires forall q, c, i :: s <= q < end && 0 <= c < k && 0 <= i < n ==>
               outs[q][c, i] == PanelSolution(O, System(a, count, n * n, q), System(b, count, n * k, q), n, k,
                                              LuPanel(n), c, i)
    ensures Done(O, a, b, n, k, count, outs, end)
  {
    hide PanelSolution, System;
    forall q, c, i | 0 <= q < s && 0 <= c < k && 0 <= i < n
      ensures outs[q][c, i] == PanelSolution(O, System(a, count, n * n, q), System(b, count, n * k, q), n, k,
                                             LuPanel(n), c, i) {
      assert View(outs[q])[c][i] == was[q][c][i];
    }
  }

  /** The next four systems, in lanes. */
  method SolveFour<T>(O: Ops<T>, a: seq<T>, b: seq<T>, n: nat, k: nat, count: nat, outs: seq<array2<T>>, s: nat)
    requires Done(O, a, b, n, k, count, outs, s) && s + LANES <= count && 1 <= n <= SOLVE_BATCH_MAX_N
    modifies outs
    ensures Done(O, a, b, n, k, count, outs, s + LANES)
  {
    hide PanelSolution, System, Solution, View;
    ghost var was := Views(outs);
    var four := outs[s..s + LANES];
    Apart(outs, n, k, s);
    SolveLanes(O, Four(a, count, n * n, s), Four(b, count, n * k, s), n, k, four);
    forall q, c, i | s <= q < s + LANES && 0 <= c < k && 0 <= i < n
      ensures outs[q][c, i] == PanelSolution(O, System(a, count, n * n, q), System(b, count, n * k, q), n, k,
                                             LuPanel(n), c, i) {
      assert four[q - s] == outs[q];
      FixedSolution(O, System(a, count, n * n, q), System(b, count, n * k, q), n, k, c, i);
    }
    DoneKept(O, a, b, n, k, count, outs, was, s, s + LANES);
  }

  lemma Apart<T>(outs: seq<array2<T>>, n: nat, k: nat, s: nat)
    requires Outs(outs, n, k) && s + LANES <= |outs|
    ensures Outs(outs[s..s + LANES], n, k) && forall q :: 0 <= q < s ==> outs[q] !in outs[s..s + LANES]
  {
  }

  /** The next system alone. */
  method SolveNext<T>(O: Ops<T>, a: seq<T>, b: seq<T>, n: nat, k: nat, count: nat, outs: seq<array2<T>>, s: nat,
                      col: array2<T>, m: array2<T>, ut: array<T>, lrows: array<T>, prod: array<T>)
    requires Done(O, a, b, n, k, count, outs, s) && s < count
    requires col.Length0 == n && col.Length1 == n && m.Length0 == n && m.Length1 == n + k && col !in outs && m !in outs
    requires ut != lrows && lrows != prod && ut != prod && ut.Length >= LuPanel(n) * (n + k)
             && lrows.Length >= LU_TRAILING_ROWS * LuPanel(n)
    requires LuPanel(n) > 0 ==> prod.Length >= LU_TRAILING_ROWS * (n + k)
    modifies outs[s], col, m, ut, lrows, prod
    ensures Done(O, a, b, n, k, count, outs, s + 1)
  {
    hide PanelSolution, System, View;
    ghost var was := Views(outs);
    SolveOne(O, System(a, count, n * n, s), System(b, count, n * k, s), n, k, col, m, ut, lrows, prod, outs[s]);
    DoneKept(O, a, b, n, k, count, outs, was, s, s + 1);
  }

  /** A batch: in lanes of four while four are left, the sizes allowing; the rest one by one.
      Every system's solutions are those it has alone. */
  method SolveBatch<T>(O: Ops<T>, a: seq<T>, b: seq<T>, n: nat, k: nat, count: nat, outs: seq<array2<T>>,
                       col: array2<T>, m: array2<T>, ut: array<T>, lrows: array<T>, prod: array<T>)
    requires count * (n * n) <= |a| && count * (n * k) <= |b| && |outs| == count && Outs(outs, n, k)
    requires col.Length0 == n && col.Length1 == n && m.Length0 == n && m.Length1 == n + k && col !in outs && m !in outs
    requires ut != lrows && lrows != prod && ut != prod && ut.Length >= LuPanel(n) * (n + k)
             && lrows.Length >= LU_TRAILING_ROWS * LuPanel(n)
    requires LuPanel(n) > 0 ==> prod.Length >= LU_TRAILING_ROWS * (n + k)
    modifies outs, col, m, ut, lrows, prod
    ensures Done(O, a, b, n, k, count, outs, count)
  {
    hide PanelSolution, System, LuPanel;
    var s := 0;
    if 1 <= n <= SOLVE_BATCH_MAX_N && k <= SOLVE_BATCH_MAX_K {
      while s + LANES <= count
        invariant s <= count && Done(O, a, b, n, k, count, outs, s)
      {
        hide Done, Outs;
        SolveFour(O, a, b, n, k, count, outs, s);
        s := s + LANES;
      }
    }
    for c := s to count
      invariant Done(O, a, b, n, k, count, outs, c)
    {
      hide Done, Outs;
      SolveNext(O, a, b, n, k, count, outs, c, col, m, ut, lrows, prod);
    }
  }

  lemma FixedSolution<T>(O: Ops<T>, a: seq<T>, b: seq<T>, n: nat, k: nat, c: nat, i: nat)
    requires |a| == n * n && |b| == n * k && c < k && i < n <= FIXED_MAX
    ensures Solution(O, a, b, n, k, c, i) == PanelSolution(O, a, b, n, k, LuPanel(n), c, i)
  {
    hide Unknown, Eliminated, Augmented;
  }
}
