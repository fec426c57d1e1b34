/** Pivoted elimination of an augmented matrix `[a | b]`: what every solver of the
    repository computes, entry by entry, over any scalar. */
module Elimination {

  /** The operations of a scalar, uninterpreted: `mag` its magnitude, `gt` the strict
      comparison a pivot is chosen by. */
  datatype Ops<!T> = Ops(
    zero: T, add: (T, T) -> T, sub: (T, T) -> T, mul: (T, T) -> T, div: (T, T) -> T, mag: T -> T, gt: (T, T) -> bool)

  type Matrix<T> = seq<seq<T>>

  predicate Shape<T>(m: Matrix<T>, n: nat, w: nat) { |m| == n && forall i :: 0 <= i < n ==> |m[i]| == w }

  /** The first row from `k` up to `i` of the largest magnitude in column `k`. */
  function PivotUpTo<T>(O: Ops<T>, m: Matrix<T>, n: nat, w: nat, k: nat, i: nat): (p: nat)
    requires Shape(m, n, w) && k < i <= n && k < w
    ensures k <= p < i
  {
    if i == k + 1 then k
    else
      var p := PivotUpTo(O, m, n, w, k, i - 1);
      if O.gt(O.mag(m[i - 1][k]), O.mag(m[p][k])) then i - 1 else p
  }

  function Pivot<T>(O: Ops<T>, m: Matrix<T>, n: nat, w: nat, k: nat): (p: nat)
    requires Shape(m, n, w) && k < n && k < w
    ensures k <= p < n
  {
    PivotUpTo(O, m, n, w, k, n)
  }

  /** Rows `k` and `p` swapped. */
  function Swapped<T>(m: Matrix<T>, k: nat, p: nat): (r: Matrix<T>)
    requires k < |m| && p < |m|
    ensures |r| == |m| && forall i :: 0 <= i < |m| ==> r[i] == if i == k then m[p] else if i == p then m[k] else m[i]
  {
    m[k := m[p]][p := m[k]]
  }

  /** One entry after column `k` is eliminated: below the pivot the multiplier, right of it
      the entry less the multiplier times the pivot row's. */
  function Reduced<T>(O: Ops<T>, s: Matrix<T>, n: nat, w: nat, k: nat, i: nat, j: nat): T
    requires Shape(s, n, w) && k < n && k < w && i < n && j < w
  {
    if i <= k || j < k then s[i][j]
    else if j == k then O.div(s[i][k], s[k][k])
    else O.sub(s[i][j], O.mul(O.div(s[i][k], s[k][k]), s[k][j]))
  }

  function Step<T>(O: Ops<T>, m: Matrix<T>, n: nat, w: nat, k: nat): (r: Matrix<T>)
    requires Shape(m, n, w) && k < n && k < w
    ensures Shape(r, n, w)
    ensures var s := Swapped(m, k, Pivot(O, m, n, w, k));
            forall i, j :: 0 <= i < n && 0 <= j < w ==> r[i][j] == Reduced(O, s, n, w, k, i, j)
  {
    var s := Swapped(m, k, Pivot(O, m, n, w, k));
    seq(n, i requires 0 <= i < n => seq(w, j requires 0 <= j < w => Reduced(O, s, n, w, k, i, j)))
  }

  /** The first `k` columns eliminated. */
  function Eliminated<T>(O: Ops<T>, m: Matrix<T>, n: nat, w: nat, k: nat): (r: Matrix<T>)
    requires Shape(m, n, w) && k <= n <= w
    ensures Shape(r, n, w)
  {
    if k == 0 then m else Step(O, Eliminated(O, m, n, w, k - 1), n, w, k - 1)
  }

  /** What is left of a right-hand side entry once the unknowns from `j` on are put in. */
  function Remainder<T>(O: Ops<T>, m: Matrix<T>, n: nat, w: nat, c: nat, i: nat, upto: nat): T
    requires Shape(m, n, w) && n + c < w && i < upto <= n
    decreases n - i, upto
  {
    if upto == i + 1 then m[i][n + c]
    else O.sub(Remainder(O, m, n, w, c, i, upto - 1), O.mul(m[i][upto - 1], Unknown(O, m, n, w, c, upto - 1)))
  }

  /** Back substitution of right-hand side `c` as a recursion: unknown `i` by the later ones. */
  function Unknown<T>(O: Ops<T>, m: Matrix<T>, n: nat, w: nat, c: nat, i: nat): T
    requires Shape(m, n, w) && n + c < w && i < n
    decreases n - i, n + 1
  {
    O.div(Remainder(O, m, n, w, c, i, n), m[i][i])
  }

  /** `[a | b]`: the matrix by rows, then the right-hand sides, each given on its own. */
  function Augmented<T>(a: seq<T>, b: seq<T>, n: nat, k: nat): (m: Matrix<T>)
    requires |a| == n * n && |b| == n * k
    ensures Shape(m, n, n + k)
    ensures forall i, j :: 0 <= i < n && 0 <= j < n ==> At(i, n, j, n) < |a| && m[i][j] == a[At(i, n, j, n)]
    ensures forall i, c :: 0 <= i < n && 0 <= c < k ==> At(c, n, i, k) < |b| && m[i][n + c] == b[At(c, n, i, k)]
  {
    seq(n, i requires 0 <= i < n =>
          seq(n + k, j requires 0 <= j < n + k => if j < n then a[At(i, n, j, n)] else b[At(j - n, n, i, k)]))
  }

  /** Element `j` of row `i` of rows of `w`, of which there are `n`. */
  function At(i: nat, w: nat, j: nat, n: nat): (r: nat)
    requires i < n && j < w
    ensures r < n * w && r < w * n && r == i * w + j
  {
    AtBound(i, w, j, n);
    i * w + j
  }

  lemma {:induction false} AtBound(i: nat, w: nat, j: nat, n: nat)
    requires i < n && j < w
    ensures i * w + j < n * w && n * w == w * n
  {
    assert (i + 1) * w <= n * w;
  }

  /** The solutions of every right-hand side. */
  function Solution<T>(O: Ops<T>, a: seq<T>, b: seq<T>, n: nat, k: nat, c: nat, i: nat): T
    requires |a| == n * n && |b| == n * k && c < k && i < n
  {
    Unknown(O, Eliminated(O, Augmented(a, b, n, k), n, n + k, n), n, n + k, c, i)
  }

  lemma EliminatedNext<T>(O: Ops<T>, m: Matrix<T>, n: nat, w: nat, k: nat)
    requires Shape(m, n, w) && k < n <= w
    ensures Eliminated(O, m, n, w, k + 1) == Step(O, Eliminated(O, m, n, w, k), n, w, k)
  {
  }

  lemma EliminatedNone<T>(O: Ops<T>, m: Matrix<T>, n: nat, w: nat)
    requires Shape(m, n, w) && n <= w
    ensures Eliminated(O, m, n, w, 0) == m
  {
  }
}
