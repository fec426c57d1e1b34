/** The in-place solvers, each held to the elimination entry by entry over any scalar. */
module Kernels {
  import opened Elimination

  ghost function View<T>(m: array2<T>): (r: Matrix<T>)
    reads m
    ensures Shape(r, m.Length0, m.Length1)
    ensures forall i, j :: 0 <= i < m.Length0 && 0 <= j < m.Length1 ==> r[i][j] == m[i, j]
  {
    seq(m.Length0, i requires 0 <= i < m.Length0 reads m =>
          seq(m.Length1, j requires 0 <= i < m.Length0 && 0 <= j < m.Length1 reads m => m[i, j]))
  }

  lemma SameMatrix<T>(a: Matrix<T>, b: Matrix<T>, n: nat, w: nat)
    requires Shape(a, n, w) && Shape(b, n, w) && forall i, j :: 0 <= i < n && 0 <= j < w ==> a[i][j] == b[i][j]
    ensures a == b
  {
    forall i | 0 <= i < n ensures a[i] == b[i] {}
  }

  // --- the generic elimination ------------------------------------------------------------------

  /** An entry after column `k` is eliminated from the columns before `upto` alone. */
  function ReducedUpto<T>(O: Ops<T>, s: Matrix<T>, n: nat, w: nat, k: nat, upto: nat, i: nat, j: nat): T
    requires Shape(s, n, w) && k < n && k < w && i < n && j < w
  {
    if j < upto then Reduced(O, s, n, w, k, i, j) else s[i][j]
  }

  function StepUpto<T>(O: Ops<T>, m: Matrix<T>, n: nat, w: nat, k: nat, upto: nat): (r: Matrix<T>)
    requires Shape(m, n, w) && k < n && k < w
    ensures Shape(r, n, w)
    ensures var s := Swapped(m, k, Pivot(O, m, n, w, k));
            forall i, j :: 0 <= i < n && 0 <= j < w ==> r[i][j] == ReducedUpto(O, s, n, w, k, upto, i, j)
  {
    var s := Swapped(m, k, Pivot(O, m, n, w, k));
    seq(n, i requires 0 <= i < n => seq(w, j requires 0 <= j < w => ReducedUpto(O, s, n, w, k, upto, i, j)))
  }

  lemma StepWhole<T>(O: Ops<T>, m: Matrix<T>, n: nat, w: nat, k: nat)
    requires Shape(m, n, w) && k < n && k < w
    ensures StepUpto(O, m, n, w, k, w) == Step(O, m, n, w, k)
  {
    hide Pivot;
    SameMatrix(StepUpto(O, m, n, w, k, w), Step(O, m, n, w, k), n, w);
  }

  /** The first row at or below `k` of the largest magnitude in column `k`. */
  method FindPivot<T>(O: Ops<T>, m: array2<T>, k: nat) returns (p: nat)
    requires k < m.Length0 && k < m.Length1
    ensures p == Pivot(O, View(m), m.Length0, m.Length1, k)
  {
    p := k;
    var best := O.mag(m[k, k]);
    for i := k + 1 to m.Length0
      invariant p == PivotUpTo(O, View(m), m.Length0, m.Length1, k, i) && best == O.mag(m[p, k])
    {
      var v := O.mag(m[i, k]);
      if O.gt(v, best) { best, p := v, i; }
    }
  }

  method SwapRows<T>(m: array2<T>, k: nat, p: nat)
    requires k < m.Length0 && p < m.Length0
    modifies m
    ensures View(m) == Swapped(old(View(m)), k, p)
  {
    ghost var was := View(m);
    if p != k {
      for j := 0 to m.Length1
        invariant forall i, c :: 0 <= i < m.Length0 && 0 <= c < m.Length1 ==>
                    m[i, c] == if c < j then Swapped(was, k, p)[i][c] else was[i][c]
      {
        m[k, j], m[p, j] := m[p, j], m[k, j];
      }
    }
    SameMatrix(View(m), Swapped(was, k, p), m.Length0, m.Length1);
  }

  /** Row `i` less its multiplier times row `k`, from column `k + 1` up to `upto`; the
      multiplier takes its place in column `k`. */
  method ReduceRow<T>(O: Ops<T>, m: array2<T>, k: nat, upto: nat, i: nat)
    requires k < i < m.Length0 && k < upto <= m.Length1
    modifies m
    ensures forall r, c :: 0 <= r < m.Length0 && 0 <= c < m.Length1 ==>
              m[r, c] == if r == i then ReducedUpto(O, old(View(m)), m.Length0, m.Length1, k, upto, i, c)
                  else old(m[r, c])
  {
    ghost var was := View(m);
    var l := O.div(m[i, k], m[k, k]);
    m[i, k] := l;
    for j := k + 1 to upto
      invariant forall r, c :: 0 <= r < m.Length0 && 0 <= c < m.Length1 ==>
                  m[r, c] == if r == i
                      then (if c < j then ReducedUpto(O, was, m.Length0, m.Length1, k, upto, i, c) else was[i][c])
                             else was[r][c]
    {
      var t := O.mul(l, m[k, j]);
      m[i, j] := O.sub(m[i, j], t);
    }
  }

  /** One column eliminated from the columns before `upto`: its pivot's row swapped in, the
      multipliers left below it. */
  method EliminateColumn<T>(O: Ops<T>, m: array2<T>, k: nat, upto: nat)
    requires k < m.Length0 && k < upto <= m.Length1
    modifies m
    ensures View(m) == StepUpto(O, old(View(m)), m.Length0, m.Length1, k, upto)
  {
    var n, w := m.Length0, m.Length1;
    ghost var was := View(m);
    var p := FindPivot(O, m, k);
    SwapRows(m, k, p);
    ghost var s := View(m);
    for i := k + 1 to n
      invariant forall r, c :: 0 <= r < n && 0 <= c < w ==>
                  m[r, c] == if r < i then ReducedUpto(O, s, n, w, k, upto, r, c) else s[r][c]
    {
      ghost var before := View(m);
      assert before[k] == s[k] by { forall c | 0 <= c < w ensures before[k][c] == s[k][c] {} }
      assert before[i] == s[i] by { forall c | 0 <= c < w ensures before[i][c] == s[i][c] {} }
      ReduceRow(O, m, k, upto, i);
    }
    SameMatrix(View(m), StepUpto(O, was, n, w, k, upto), n, w);
  }

  /** The matrix beside its right-hand sides, written whole. */
  method Fill<T>(m: array2<T>, a: seq<T>, b: seq<T>, n: nat, k: nat)
    requires |a| == n * n && |b| == n * k && m.Length0 == n && m.Length1 == n + k
    modifies m
    ensures View(m) == Augmented(a, b, n, k)
  {
    for i := 0 to n
      invariant forall r, c :: 0 <= r < i && 0 <= c < n + k ==> m[r, c] == Augmented(a, b, n, k)[r][c]
    {
      for j := 0 to n
        invariant forall r, c :: 0 <= r < i && 0 <= c < n + k ==> m[r, c] == Augmented(a, b, n, k)[r][c]
        invariant forall c :: 0 <= c < j ==> m[i, c] == Augmented(a, b, n, k)[i][c]
      {
        m[i, j] := a[At(i, n, j, n)];
      }
      for c := 0 to k
        invariant forall r, q :: 0 <= r < i && 0 <= q < n + k ==> m[r, q] == Augmented(a, b, n, k)[r][q]
        invariant forall q :: 0 <= q < n + c ==> m[i, q] == Augmented(a, b, n, k)[i][q]
      {
        m[i, n + c] := b[At(c, n, i, k)];
      }
    }
    SameMatrix(View(m), Augmented(a, b, n, k), n, n + k);
  }

  /** One unknown, those after it found. */
  method OneUnknown<T>(O: Ops<T>, m: array2<T>, out: array2<T>, n: nat, k: nat, c: nat, i: nat) returns (v: T)
    requires m.Length0 == n && m.Length1 == n + k && out.Length0 == k && out.Length1 == n && c < k && i < n
    requires forall r :: i < r < n ==> out[c, r] == Unknown(O, View(m), n, n + k, c, r)
    ensures v == Unknown(O, View(m), n, n + k, c, i)
  {
    hide View;
    var s := m[i, n + c];
    for j := i + 1 to n
      invariant s == Remainder(O, View(m), n, n + k, c, i, j)
    {
      var t := O.mul(m[i, j], out[c, j]);
      s := O.sub(s, t);
    }
    v := O.div(s, m[i, i]);
  }

  /** Back substitution: the unknowns of every right-hand side. */
  method BackSubstitute<T>(O: Ops<T>, m: array2<T>, out: array2<T>, n: nat, k: nat)
    requires m.Length0 == n && m.Length1 == n + k && out.Length0 == k && out.Length1 == n && m != out
    modifies out
    ensures View(m) == old(View(m))
    ensures forall c, i :: 0 <= c < k && 0 <= i < n ==> out[c, i] == Unknown(O, View(m), n, n + k, c, i)
  {
    hide Unknown;
    ghost var e := View(m);
    for c := 0 to k
      invariant View(m) == e
      invariant forall q, i :: 0 <= q < c && 0 <= i < n ==> out[q, i] == Unknown(O, e, n, n + k, q, i)
    {
      for i := n downto 0
        invariant View(m) == e
        invariant forall q, r :: 0 <= q < c && 0 <= r < n ==> out[q, r] == Unknown(O, e, n, n + k, q, r)
        invariant forall r :: i <= r < n ==> out[c, r] == Unknown(O, e, n, n + k, c, r)
      {
        var v := OneUnknown(O, m, out, n, k, c, i);
        out[c, i] := v;
      }
    }
  }

  /** The elimination without panels, as the reference runs it. */
  method SolveUnblocked<T>(O: Ops<T>, a: seq<T>, b: seq<T>, n: nat, k: nat, m: array2<T>, out: array2<T>)
    requires |a| == n * n && |b| == n * k && m.Length0 == n && m.Length1 == n + k
    requires out.Length0 == k && out.Length1 == n && m != out
    modifies m, out
    ensures forall c, i :: 0 <= c < k && 0 <= i < n ==> out[c, i] == Solution(O, a, b, n, k, c, i)
  {
    hide View, Eliminated, Unknown, StepUpto, Step, Augmented;
    ghost var start := Augmented(a, b, n, k);
    Fill(m, a, b, n, k);
    EliminatedNone(O, start, n, n + k);
    for kk := 0 to n
      invariant View(m) == Eliminated(O, start, n, n + k, kk)
    {
      StepWhole(O, View(m), n, n + k, kk);
      EliminatedNext(O, start, n, n + k, kk);
      EliminateColumn(O, m, kk, n + k);
    }
    BackSubstitute(O, m, out, n, k);
  }
}
