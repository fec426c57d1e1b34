/** A sparse Jacobian: rows that touch few unknowns by one forward sweep an unknown, shared
    between the rows; rows that touch many by one reverse sweep. */
module Jacobians {
  import opened Graphs
  import opened Tangents
  import opened Rules
  import FM = ForwardMode
  import RM = ReverseMode

  /** A row touching this many unknowns takes one reverse sweep. */
  const REVERSE_MIN_TOUCHED: nat := 16

  /** The columns a node's derivative can be nonzero in: those of the symbols it reaches
      through operands that carry one. */
  function Support(g: seq<Node>, col: map<nat, nat>, e: nat): set<nat>
    requires Ok(g) && e < |g|
    decreases e, 1
  {
    assert NodeOk(g[e], e);
    if g[e].Sym? then (if g[e].s in col then {col[g[e].s]} else {})
    else SupportAll(g, col, Carrying(g[e]), e)
  }

  function SupportAll(g: seq<Node>, col: map<nat, nat>, os: seq<nat>, e: nat): set<nat>
    requires Ok(g) && e <= |g| && Below(os, e)
    decreases e, 0, os
  {
    if os == [] then {}
    else
      assert os[0] in os && forall o :: o in os[1..] ==> o in os;
      Support(g, col, os[0]) + SupportAll(g, col, os[1..], e)
  }

  lemma {:induction false} SupportOperand(g: seq<Node>, col: map<nat, nat>, os: seq<nat>, e: nat, c: nat)
    requires Ok(g) && e <= |g| && Below(os, e) && c in os
    ensures c < |g| && Support(g, col, c) <= SupportAll(g, col, os, e)
  {
    assert forall o :: o in os[1..] ==> o in os;
    if c != os[0] { SupportOperand(g, col, os[1..], e, c); }
  }

  /** A node whose support misses a symbol's column does not move with it. */
  lemma {:induction false} Unsupported(g: seq<Node>, col: map<nat, nat>, e: nat, s: nat)
    requires Ok(g) && e < |g| && s in col && col[s] !in Support(g, col, e)
    ensures FM.Unmoved(g, e, s)
    decreases e
  {
    hide FM.Unmoved;
    FM.CarryingBelow(g, e);
    if g[e].Sym? {
      SymStill(g, e, s);
    } else {
      forall c | c in Carrying(g[e]) ensures FM.Unmoved(g, c, s) {
        SupportOperand(g, col, Carrying(g[e]), e, c);
        Unsupported(g, col, c, s);
      }
      RM.InactiveStill(g, e, s);
    }
  }

  lemma SymStill(g: seq<Node>, e: nat, s: nat)
    requires Ok(g) && e < |g| && g[e].Sym? && g[e].s != s
    ensures FM.Unmoved(g, e, s)
  {
    hide Eval, Tan;
    forall p: Point ensures Tan(g, p, s, e) == 0.0 { TanList(g, e, p, s); }
  }

  /** The column of each symbol: a symbol listed twice has its last. */
  method Columns(wrt: seq<nat>) returns (col: map<nat, nat>)
    ensures ColumnsOk(wrt, col)
  {
    col := map[];
    for j := 0 to |wrt|
      invariant forall s :: s in col ==> col[s] < j && wrt[col[s]] == s
      invariant forall k :: 0 <= k < j ==> wrt[k] in col && k <= col[wrt[k]]
    {
      col := col[wrt[j] := j];
    }
  }

  // --- rows ---------------------------------------------------------------------------------------

  type Row = seq<(nat, nat)>

  /** A row's entries are the derivatives by the columns `cols`, in that order. */
  ghost predicate RowIs(h: seq<Node>, row: Row, cols: seq<nat>, r: nat, wrt: seq<nat>)
    requires Ok(h)
  {
    && |row| == |cols|
    && forall a :: 0 <= a < |cols| ==> row[a].0 == cols[a] < |wrt| && Derives(h, row[a].1, r, wrt[cols[a]])
  }

  lemma RowGrown(g: seq<Node>, h: seq<Node>, row: Row, cols: seq<nat>, r: nat, wrt: seq<nat>)
    requires Ok(g) && Grown(g, h) && RowIs(g, row, cols, r, wrt)
    ensures RowIs(h, row, cols, r, wrt)
  {
    hide Derives;
    forall a | 0 <= a < |cols| ensures Derives(h, row[a].1, r, wrt[cols[a]]) {
      DerivesGrown(g, h, row[a].1, r, wrt[cols[a]]);
    }
  }

  /** The last column of its symbol. */
  predicate LastOf(wrt: seq<nat>, j: nat) { j < |wrt| && forall k :: j < k < |wrt| ==> wrt[k] != wrt[j] }

  predicate Listed(row: Row, j: nat) { exists a :: 0 <= a < |row| && row[a].0 == j }

  /** A row of the result: entries by ascending column, each the derivative, none the structural
      zero and all of symbols the residual reaches; what it leaves out is zero. */
  ghost predicate RowOk(h: seq<Node>, row: Row, r: nat, wrt: seq<nat>)
    requires Ok(h)
  {
    && Ordered(row)
    && (forall a :: 0 <= a < |row| ==> r < |h| && row[a].0 < |wrt| && Touches(h, r, wrt[row[a].0]))
    && (forall a :: 0 <= a < |row| ==>
          LastOf(wrt, row[a].0) && Derives(h, row[a].1, r, wrt[row[a].0]) && h[row[a].1] != Const(0.0))
    && (forall j :: 0 <= j < |wrt| && LastOf(wrt, j) && !Listed(row, j) ==> FM.Unmoved(h, r, wrt[j]))
  }

  /** What the columns mean: every symbol's last. */
  ghost predicate ColumnsOk(wrt: seq<nat>, col: map<nat, nat>) {
    && (forall s :: s in col ==> col[s] < |wrt| && wrt[col[s]] == s)
    && (forall j :: 0 <= j < |wrt| ==> wrt[j] in col && j <= col[wrt[j]])
  }

  /** Operand `i` can pass a derivative on: a comparison's cannot, nor a branch's condition. */
  predicate Passes(n: Node, i: nat) { i < |Operands(n)| && !n.Cmp? && (n.Select? ==> i > 0) }

  /** Symbol `s` is reached from `e` through operands that can pass a derivative on. */
  ghost predicate Touches(g: seq<Node>, e: nat, s: nat)
    requires Ok(g) && e < |g|
    decreases e
  {
    assert NodeOk(g[e], e);
    || g[e] == Sym(s)
    || exists i :: 0 <= i < |Operands(g[e])| && Passes(g[e], i) && Operands(g[e])[i] in Operands(g[e])
                   && Touches(g, Operands(g[e])[i], s)
  }

  lemma {:induction false} TouchesGrown(g: seq<Node>, h: seq<Node>, e: nat, s: nat)
    requires Ok(g) && Grown(g, h) && e < |g| && Touches(g, e, s)
    ensures Touches(h, e, s)
    decreases e
  {
    assert NodeOk(g[e], e) && h[e] == g[e];
    if g[e] != Sym(s) {
      var i :| 0 <= i < |Operands(g[e])| && Passes(g[e], i) && Operands(g[e])[i] in Operands(g[e])
               && Touches(g, Operands(g[e])[i], s);
      TouchesGrown(g, h, Operands(g[e])[i], s);
    }
  }

  /** What carries a derivative is what can pass one on. */
  lemma CarryingPasses(n: Node, c: nat)
    ensures c in Carrying(n) <==> exists i :: 0 <= i < |Operands(n)| && Passes(n, i) && Operands(n)[i] == c
  {
    var k := Inert(n);
    if c in Carrying(n) {
      var j :| 0 <= j < |Carrying(n)| && Carrying(n)[j] == c;
      assert Passes(n, j + k) && Operands(n)[j + k] == c;
    }
    if i :| 0 <= i < |Operands(n)| && Passes(n, i) && Operands(n)[i] == c { assert Carrying(n)[i - k] == c; }
  }

  lemma TouchesCarried(g: seq<Node>, e: nat, s: nat)
    requires Ok(g) && e < |g| && !g[e].Sym?
    ensures Below(Carrying(g[e]), e)
    ensures Touches(g, e, s) <==> exists c :: c in Carrying(g[e]) && Touches(g, c, s)
  {
    FM.CarryingBelow(g, e);
    assert NodeOk(g[e], e);
    var n := g[e];
    forall c { CarryingPasses(n, c); }
    hide Passes, Carrying, Operands;
    if Touches(g, e, s) {
      var i :| 0 <= i < |Operands(n)| && Passes(n, i) && Operands(n)[i] in Operands(n) && Touches(g, Operands(n)[i], s);
      assert Operands(n)[i] in Carrying(n);
    }
  }

  /** A support is exactly the columns of the symbols reached so, each symbol's last. */
  lemma {:induction false} SupportIs(g: seq<Node>, wrt: seq<nat>, col: map<nat, nat>, e: nat, j: nat)
    requires Ok(g) && e < |g| && ColumnsOk(wrt, col)
    ensures j in Support(g, col, e) <==> j < |wrt| && col[wrt[j]] == j && Touches(g, e, wrt[j])
    decreases e, 1
  {
    if g[e].Sym? {
    } else {
      FM.CarryingBelow(g, e);
      SupportAllIs(g, wrt, col, Carrying(g[e]), e, j);
      if j < |wrt| { TouchesCarried(g, e, wrt[j]); }
    }
  }

  lemma {:induction false} SupportAllIs(g: seq<Node>, wrt: seq<nat>, col: map<nat, nat>, os: seq<nat>, e: nat, j: nat)
    requires Ok(g) && e <= |g| && Below(os, e) && ColumnsOk(wrt, col)
    ensures j in SupportAll(g, col, os, e) <==>
            j < |wrt| && col[wrt[j]] == j && exists c :: c in os && Touches(g, c, wrt[j])
    decreases e, 0, os
  {
    if os != [] {
      assert os[0] in os && forall o :: o in os[1..] ==> o in os;
      SupportIs(g, wrt, col, os[0], j);
      SupportAllIs(g, wrt, col, os[1..], e, j);
      assert forall c :: c in os <==> c == os[0] || c in os[1..];
    }
  }

  lemma SupportLast(g: seq<Node>, wrt: seq<nat>, col: map<nat, nat>, e: nat, j: nat)
    requires Ok(g) && e < |g| && ColumnsOk(wrt, col) && j in Support(g, col, e)
    ensures LastOf(wrt, j) && col[wrt[j]] == j
  {
    hide Support, Touches;
    SupportIs(g, wrt, col, e, j);
  }

  /** The structural zeros dropped. */
  function Nonzero(h: seq<Node>, row: Row): Row
    requires forall a :: 0 <= a < |row| ==> row[a].1 < |h|
  {
    if row == [] then []
    else
      var n := |row| - 1;
      Nonzero(h, row[..n]) + (if h[row[n].1] == Const(0.0) then [] else [row[n]])
  }

  lemma {:induction false} NonzeroIn(h: seq<Node>, row: Row)
    requires forall a :: 0 <= a < |row| ==> row[a].1 < |h|
    ensures forall x :: x in Nonzero(h, row) ==> x in row && x.1 < |h| && h[x.1] != Const(0.0)
    ensures forall x :: x in row && x.1 < |h| && h[x.1] != Const(0.0) ==> x in Nonzero(h, row)
  {
    if row != [] {
      var n := |row| - 1;
      NonzeroIn(h, row[..n]);
      assert row == row[..n] + [row[n]];
    }
  }

  predicate Ordered(row: Row) { forall a, b :: 0 <= a < b < |row| ==> row[a].0 < row[b].0 }

  lemma {:induction false} NonzeroOrdered(h: seq<Node>, row: Row)
    requires (forall a :: 0 <= a < |row| ==> row[a].1 < |h|) && Ordered(row)
    ensures Ordered(Nonzero(h, row))
  {
    if row != [] {
      var n := |row| - 1;
      NonzeroOrdered(h, row[..n]);
      NonzeroIn(h, row[..n]);
      var front := Nonzero(h, row[..n]);
      forall a | 0 <= a < |front| ensures front[a].0 < row[n].0 {
        assert front[a] in front;
        var k :| 0 <= k < n && row[..n][k] == front[a];
      }
    }
  }

  lemma NonzeroListed(h: seq<Node>, row: Row)
    requires forall a :: 0 <= a < |row| ==> row[a].1 < |h|
    ensures forall k :: 0 <= k < |row| && h[row[k].1] != Const(0.0) ==> Listed(Nonzero(h, row), row[k].0)
  {
    NonzeroIn(h, row);
    var out := Nonzero(h, row);
    forall k | 0 <= k < |row| && h[row[k].1] != Const(0.0) ensures Listed(out, row[k].0) {
      assert row[k] in row;
      var a :| 0 <= a < |out| && out[a] == row[k];
    }
  }

  /** A whole row of a residual, its zeros dropped, is right. */
  lemma {:induction false} RowDone(h: seq<Node>, g: seq<Node>, row: Row, r: nat, wrt: seq<nat>, col: map<nat, nat>)
    requires Ok(g) && Grown(g, h) && r < |g| && ColumnsOk(wrt, col)
    requires RowIs(h, row, RM.Ascending(Support(g, col, r), |wrt|), r, wrt)
    ensures (forall a :: 0 <= a < |row| ==> row[a].1 < |h|) && RowOk(h, Nonzero(h, row), r, wrt)
  {
    hide Derives, FM.Unmoved, Ok, Support, RM.Ascending, LastOf, Nonzero, ColumnsOk, Listed, Touches;
    var cols := RM.Ascending(Support(g, col, r), |wrt|);
    forall a | 0 <= a < |row| ensures row[a].1 < |h| { FM.DerivesAt(h, row[a].1, r, wrt[cols[a]]); }
    NonzeroIn(h, row);
    NonzeroOrdered(h, row);
    NonzeroListed(h, row);
    var out := Nonzero(h, row);
    forall a | 0 <= a < |out|
      ensures LastOf(wrt, out[a].0) && Derives(h, out[a].1, r, wrt[out[a].0]) && h[out[a].1] != Const(0.0)
    {
      assert out[a] in out;
      var k :| 0 <= k < |row| && row[k] == out[a];
      assert cols[k] in cols;
      SupportLast(g, wrt, col, r, cols[k]);
    }
    forall a | 0 <= a < |out| ensures out[a].0 < |wrt| && Touches(h, r, wrt[out[a].0]) {
      assert out[a] in out;
      var k :| 0 <= k < |row| && row[k] == out[a];
      assert cols[k] in cols;
      SupportIs(g, wrt, col, r, cols[k]);
      TouchesGrown(g, h, r, wrt[cols[k]]);
    }
    forall j | 0 <= j < |wrt| && LastOf(wrt, j) && !Listed(out, j) ensures FM.Unmoved(h, r, wrt[j]) {
      if j in cols {
        var k :| 0 <= k < |cols| && cols[k] == j;
        ZeroUnmoved(h, row[k].1, r, wrt[j]);
      } else {
        LastColumn(wrt, col, j);
        Unsupported(g, col, r, wrt[j]);
        UnmovedGrown(g, h, r, wrt[j]);
      }
    }
  }

  lemma LastColumn(wrt: seq<nat>, col: map<nat, nat>, j: nat)
    requires ColumnsOk(wrt, col) && LastOf(wrt, j)
    ensures wrt[j] in col && col[wrt[j]] == j
  {
  }

  lemma ZeroUnmoved(h: seq<Node>, d: nat, r: nat, s: nat)
    requires Ok(h) && Derives(h, d, r, s) && h[d] == Const(0.0)
    ensures FM.Unmoved(h, r, s)
  {
    hide Eval, Tan;
    forall p: Point ensures Tan(h, p, s, r) == 0.0 { ConstIs(h, p, d); }
  }

  lemma UnmovedGrown(g: seq<Node>, h: seq<Node>, e: nat, s: nat)
    requires Ok(g) && Grown(g, h) && FM.Unmoved(g, e, s)
    ensures FM.Unmoved(h, e, s)
  {
    hide Tan;
    forall p: Point ensures Tan(h, p, s, e) == 0.0 { TanGrown(g, h, p, s, e); }
  }

  // --- columns, then the whole ----------------------------------------------------------------------

  /** Residual `i`'s row is taken by a reverse sweep. */
  predicate Reversed(touched: seq<seq<nat>>, i: nat)
    requires i < |touched|
  {
    |touched[i]| >= REVERSE_MIN_TOUCHED
  }

  /** The rows once the columns before `j` are done: the reversed ones whole. */
  ghost predicate RowsAre(h: seq<Node>, rows: seq<Row>, residuals: seq<nat>, wrt: seq<nat>, supports: seq<set<nat>>,
                          touched: seq<seq<nat>>, j: nat)
    requires Ok(h)
  {
    && |rows| == |residuals| == |supports| == |touched|
    && forall i :: 0 <= i < |rows| ==>
         RowIs(h, rows[i], RM.Ascending(supports[i], if Reversed(touched, i) then |wrt| else j), residuals[i], wrt)
  }

  lemma {:induction false} RowsGrown(g: seq<Node>, h: seq<Node>, rows: seq<Row>, residuals: seq<nat>, wrt: seq<nat>,
                                     supports: seq<set<nat>>,
                  touched: seq<seq<nat>>, j: nat)
    requires Ok(g) && Grown(g, h) && RowsAre(g, rows, residuals, wrt, supports, touched, j)
    ensures RowsAre(h, rows, residuals, wrt, supports, touched, j)
  {
    hide RowIs, Ok, RM.Ascending;
    forall i | 0 <= i < |rows|
      ensures RowIs(h, rows[i], RM.Ascending(supports[i], if Reversed(touched, i) then |wrt| else j), residuals[i], wrt)
    {
      RowGrown(g, h, rows[i], RM.Ascending(supports[i], if Reversed(touched, i) then |wrt| else j), residuals[i], wrt);
    }
  }

  /** The forward rows that touch column `j`, in order. */
  function Members(supports: seq<set<nat>>, touched: seq<seq<nat>>, j: nat, n: nat): (r: seq<nat>)
    requires n <= |supports| == |touched|
    ensures forall i: nat :: i in r <==> i < n && !Reversed(touched, i) && j in supports[i]
    ensures forall a, b :: 0 <= a < b < |r| ==> r[a] < r[b]
    ensures forall a :: 0 <= a < |r| ==> r[a] < n
  {
    if n == 0 then [] else
      Members(supports, touched, j, n - 1) + (if !Reversed(touched, n - 1) && j in supports[n - 1] then [n - 1] else [])
  }

  /** An entry of column `j` at the end of a row. */
  lemma RowMore(h: seq<Node>, row: Row, s: set<nat>, j: nat, d: nat, r: nat, wrt: seq<nat>)
    requires Ok(h) && RowIs(h, row, RM.Ascending(s, j), r, wrt) && j in s && j < |wrt| && Derives(h, d, r, wrt[j])
    ensures RowIs(h, row + [(j, d)], RM.Ascending(s, j + 1), r, wrt)
  {
    hide Derives, Ok;
  }

  lemma RowSame(h: seq<Node>, row: Row, s: set<nat>, j: nat, r: nat, wrt: seq<nat>)
    requires Ok(h) && RowIs(h, row, RM.Ascending(s, j), r, wrt) && j !in s
    ensures RowIs(h, row, RM.Ascending(s, j + 1), r, wrt)
  {
    hide Derives, Ok;
  }

  ghost predicate SupportsAre(g: seq<Node>, residuals: seq<nat>, col: map<nat, nat>, supports: seq<set<nat>>)
    requires Ok(g)
  {
    |supports| == |residuals| && forall i :: 0 <= i < |residuals| ==>
        residuals[i] < |g| && supports[i] == Support(g, col, residuals[i])
  }

  lemma PrefixIs(g: seq<Node>, h: seq<Node>)
    requires Ok(g) && Grown(g, h)
    ensures |g| <= |h| && h[..|g|] == g
  {
  }

  /** One sweep by column `j`, shared by the rows listed: each gets the derivative of its
      residual. */
  method ColumnSweep(g: Graph, g0: seq<Node>, members: seq<nat>, residuals: seq<nat>, wrt: seq<nat>,
                     col: map<nat, nat>, j: nat)
    returns (ds: seq<nat>)
    requires g.Valid() && Ok(g0) && Grown(g0, g.nodes) && j < |wrt| && ColumnsOk(wrt, col) && LastOf(wrt, j)
    requires forall m :: 0 <= m < |members| ==> members[m] < |residuals| && residuals[members[m]] < |g0|
    modifies g
    ensures g.Valid() && Grown(old(g.nodes), g.nodes) && |ds| == |members|
    ensures forall m :: 0 <= m < |members| ==> Derives(g.nodes, ds[m], residuals[members[m]], wrt[j])
  {
    hide Derives, FM.Unmoved, Ok, Support;
    var roots := seq(|members|, m requires 0 <= m < |members| => residuals[members[m]]);
    PrefixIs(g0, g.nodes);
    LastColumn(wrt, col, j);
    forall c: nat | c < |g0| && j !in Support(g0, col, c) ensures FM.Unmoved(g0, c, wrt[j]) {
      Unsupported(g0, col, c, wrt[j]);
    }
    var memo;
    NoMemo(g.nodes, wrt[j]);
    ds, memo := FM.Forward(g, roots, wrt[j], map[], |g0|, (c: nat) => Ok(g0) && c < |g0| && j in Support(g0, col, c));
  }

  lemma NoMemo(h: seq<Node>, s: nat)
    requires Ok(h)
    ensures FM.MemoOk(h, map[], s)
  {
  }

  /** The entries of column `j` at the end of the rows that touch it. */
  method GiveOut(rows0: seq<Row>, members: seq<nat>, ds: seq<nat>, j: nat) returns (rows: seq<Row>)
    requires |ds| == |members| && (forall a, b :: 0 <= a < b < |members| ==> members[a] < members[b])
    requires forall a :: 0 <= a < |members| ==> members[a] < |rows0|
    ensures |rows| == |rows0| && forall i :: 0 <= i < |rows| && i !in members ==> rows[i] == rows0[i]
    ensures forall m :: 0 <= m < |members| ==> rows[members[m]] == rows0[members[m]] + [(j, ds[m])]
  {
    rows := rows0;
    for m := 0 to |members|
      invariant |rows| == |rows0| && forall i :: 0 <= i < |rows| && i !in members[..m] ==> rows[i] == rows0[i]
      invariant forall k :: 0 <= k < m ==> rows[members[k]] == rows0[members[k]] + [(j, ds[k])]
    {
      var i := members[m];
      Fresh(members, m);
      assert members[..m + 1] == members[..m] + [i];
      rows := rows[i := rows[i] + [(j, ds[m])]];
    }
    assert members[..|members|] == members;
  }

  /** One column: a sweep over the rows that touch it, each given its entry. */
  method Column(g: Graph, g0: seq<Node>, rows0: seq<Row>, residuals: seq<nat>, wrt: seq<nat>, col: map<nat, nat>,
                supports: seq<set<nat>>, touched: seq<seq<nat>>, j: nat)
    returns (rows: seq<Row>)
    requires g.Valid() && Ok(g0) && Grown(g0, g.nodes) && j < |wrt| && ColumnsOk(wrt, col)
             && SupportsAre(g0, residuals, col, supports)
    requires RowsAre(g.nodes, rows0, residuals, wrt, supports, touched, j)
    modifies g
    ensures g.Valid() && Grown(old(g.nodes), g.nodes)
            && RowsAre(g.nodes, rows, residuals, wrt, supports, touched, j + 1)
  {
    hide RowIs, Derives, FM.Unmoved, Ok, Support, RM.Ascending, LastOf, ColumnsOk, Graph.Valid;
    ghost var was := g.nodes;
    var members := Members(supports, touched, j, |rows0|);
    var ds: seq<nat> := [];
    if members != [] {
      assert members[0] in members;
      SupportLast(g0, wrt, col, residuals[members[0]], j);
      ds := ColumnSweep(g, g0, members, residuals, wrt, col, j);
      RowsGrown(was, g.nodes, rows0, residuals, wrt, supports, touched, j);
    }
    rows := GiveOut(rows0, members, ds, j);
    forall i | 0 <= i < |rows|
      ensures RowIs(g.nodes, rows[i], RM.Ascending(supports[i], if Reversed(touched, i) then |wrt| else j + 1),
                    residuals[i], wrt)
    {
      if i in members {
        var m :| 0 <= m < |members| && members[m] == i;
        RowMore(g.nodes, rows0[i], supports[i], j, ds[m], residuals[i], wrt);
      } else if !Reversed(touched, i) {
        RowSame(g.nodes, rows[i], supports[i], j, residuals[i], wrt);
      }
    }
  }

  lemma Fresh(members: seq<nat>, m: nat)
    requires m < |members| && forall a, b :: 0 <= a < b < |members| ==> members[a] < members[b]
    ensures members[m] !in members[..m]
  {
  }

  function Syms(cols: seq<nat>, wrt: seq<nat>): (r: seq<nat>)
    requires forall a :: 0 <= a < |cols| ==> cols[a] < |wrt|
    ensures |r| == |cols| && forall a :: 0 <= a < |cols| ==> r[a] == wrt[cols[a]]
  {
    seq(|cols|, a requires 0 <= a < |cols| => wrt[cols[a]])
  }

  function Zip(cols: seq<nat>, ds: seq<nat>): (r: Row)
    requires |cols| == |ds|
    ensures |r| == |cols| && forall a :: 0 <= a < |cols| ==> r[a] == (cols[a], ds[a])
  {
    seq(|cols|, a requires 0 <= a < |cols| => (cols[a], ds[a]))
  }

  /** The reversed rows, each one reverse sweep; the others empty yet. */
  method ReverseRows(g: Graph, residuals: seq<nat>, wrt: seq<nat>, supports: seq<set<nat>>, touched: seq<seq<nat>>)
    returns (rows: seq<Row>)
    requires g.Valid() && Below(residuals, |g.nodes|) && |supports| == |residuals| == |touched|
    requires forall i :: 0 <= i < |touched| ==> touched[i] == RM.Ascending(supports[i], |wrt|)
    modifies g
    ensures g.Valid() && Grown(old(g.nodes), g.nodes) && RowsAre(g.nodes, rows, residuals, wrt, supports, touched, 0)
  {
    hide RowIs, Derives, Ok, RM.Ascending;
    ghost var was := g.nodes;
    rows := [];
    for i := 0 to |residuals|
      invariant g.Valid() && Grown(was, g.nodes) && |rows| == i
      invariant forall k :: 0 <= k < i ==>
                  RowIs(g.nodes, rows[k], RM.Ascending(supports[k], if Reversed(touched, k) then |wrt| else 0),
                        residuals[k], wrt)
    {
      ghost var h := g.nodes;
      var row: Row := [];
      assert residuals[i] in residuals;
      if Reversed(touched, i) {
        var ds := RM.Gradient(g, residuals[i], Syms(touched[i], wrt));
        row := Zip(touched[i], ds);
        ZipRow(g.nodes, touched[i], ds, residuals[i], wrt);
      } else {
        EmptyRow(g.nodes, supports[i], residuals[i], wrt);
      }
      forall k | 0 <= k < i
        ensures RowIs(g.nodes, rows[k], RM.Ascending(supports[k], if Reversed(touched, k) then |wrt| else 0),
                      residuals[k], wrt)
      {
        RowLater(h, g.nodes, rows[k], RM.Ascending(supports[k], if Reversed(touched, k) then |wrt| else 0),
                 residuals[k], wrt);
      }
      rows := rows + [row];
    }
  }

  lemma RowLater(g: seq<Node>, h: seq<Node>, row: Row, cols: seq<nat>, r: nat, wrt: seq<nat>)
    requires Ok(g) && (h == g || Grown(g, h)) && RowIs(g, row, cols, r, wrt)
    ensures Ok(h) && RowIs(h, row, cols, r, wrt)
  {
    hide RowIs;
    if h != g { RowGrown(g, h, row, cols, r, wrt); }
  }

  lemma ZipRow(h: seq<Node>, cols: seq<nat>, ds: seq<nat>, r: nat, wrt: seq<nat>)
    requires Ok(h) && |ds| == |cols| && forall a :: 0 <= a < |cols| ==> cols[a] < |wrt|
    requires forall a :: 0 <= a < |cols| ==> Derives(h, ds[a], r, Syms(cols, wrt)[a])
    ensures RowIs(h, Zip(cols, ds), cols, r, wrt)
  {
    hide Derives, Ok;
  }

  lemma EmptyRow(h: seq<Node>, s: set<nat>, r: nat, wrt: seq<nat>)
    requires Ok(h)
    ensures RowIs(h, [], RM.Ascending(s, 0), r, wrt)
  {
  }

  /** The sparse Jacobian of `residuals` by `wrt`. */
  method SparseJacobian(g: Graph, residuals: seq<nat>, wrt: seq<nat>) returns (rows: seq<Row>)
    requires g.Valid() && Below(residuals, |g.nodes|)
    modifies g
    ensures g.Valid() && Grown(old(g.nodes), g.nodes)
    ensures |rows| == |residuals| && forall i :: 0 <= i < |rows| ==> RowOk(g.nodes, rows[i], residuals[i], wrt)
  {
    hide RowIs, RowOk, Derives, FM.Unmoved, Ok, Support, RM.Ascending, LastOf, ColumnsOk, RowsAre;
    var g0 := g.nodes;
    var col := Columns(wrt);
    assert forall i :: 0 <= i < |residuals| ==> residuals[i] in residuals;
    var supports := seq(|residuals|, i requires 0 <= i < |residuals| => Support(g0, col, residuals[i]));
    var touched := seq(|residuals|, i requires 0 <= i < |residuals| => RM.Ascending(supports[i], |wrt|));
    rows := ReverseRows(g, residuals, wrt, supports, touched);
    for j := 0 to |wrt|
      invariant g.Valid() && Grown(g0, g.nodes) && RowsAre(g.nodes, rows, residuals, wrt, supports, touched, j)
    {
      rows := Column(g, g0, rows, residuals, wrt, col, supports, touched, j);
    }
    WholeRows(g.nodes, rows, residuals, wrt, supports, touched);
    rows := Retained(g.nodes, g0, rows, residuals, wrt, col);
  }

  /** Every row without its structural zeros. */
  method Retained(h: seq<Node>, ghost g: seq<Node>, whole: seq<Row>, residuals: seq<nat>, wrt: seq<nat>,
                  ghost col: map<nat, nat>)
    returns (rows: seq<Row>)
    requires Ok(g) && Grown(g, h) && Below(residuals, |g|) && ColumnsOk(wrt, col) && |whole| == |residuals|
    requires forall i :: 0 <= i < |whole| ==>
               residuals[i] < |g|
                   && RowIs(h, whole[i], RM.Ascending(Support(g, col, residuals[i]), |wrt|), residuals[i], wrt)
    ensures |rows| == |whole| && forall i :: 0 <= i < |rows| ==> RowOk(h, rows[i], residuals[i], wrt)
  {
    hide RowIs, RowOk, Ok, Support, RM.Ascending, ColumnsOk;
    rows := [];
    for i := 0 to |whole|
      invariant |rows| == i && forall k :: 0 <= k < i ==> RowOk(h, rows[k], residuals[k], wrt)
    {
      RowDone(h, g, whole[i], residuals[i], wrt, col);
      rows := rows + [Nonzero(h, whole[i])];
    }
  }

  lemma WholeRows(h: seq<Node>, rows: seq<Row>, residuals: seq<nat>, wrt: seq<nat>, supports: seq<set<nat>>,
                  touched: seq<seq<nat>>)
    requires Ok(h) && RowsAre(h, rows, residuals, wrt, supports, touched, |wrt|)
    ensures |rows| == |residuals| == |supports|
    ensures forall i :: 0 <= i < |rows| ==> RowIs(h, rows[i], RM.Ascending(supports[i], |wrt|), residuals[i], wrt)
  {
    hide RowIs, Ok, RM.Ascending;
  }

  // --- what a row leaves out ------------------------------------------------------------------------

  /** What the row leaves out is zero at every point. */
  ghost predicate OmitsZeros(h: seq<Node>, row: Row, r: nat, wrt: seq<nat>)
    requires Ok(h)
  {
    forall j :: 0 <= j < |wrt| && !Listed(row, j) ==> FM.Unmoved(h, r, wrt[j])
  }

  /** Whatever the graph and the residual, every row of the result leaves out zeros only. */
  ghost predicate AlwaysOmitsZeros(wrt: seq<nat>) {
    forall h: seq<Node>, row: Row, r: nat :: Ok(h) && RowOk(h, row, r, wrt) ==> OmitsZeros(h, row, r, wrt)
  }

  predicate EachOnce(wrt: seq<nat>) { forall i, j :: 0 <= i < j < |wrt| ==> wrt[i] != wrt[j] }

  /** Of a symbol listed twice, no row lists the earlier column; in the symbol's own row that
      column's derivative is one, everywhere. */
  lemma RepeatedColumn(h: seq<Node>, row: Row, r: nat, wrt: seq<nat>, i: nat, j: nat)
    requires Ok(h) && i < j < |wrt| && wrt[i] == wrt[j] && RowOk(h, row, r, wrt)
    ensures !Listed(row, i)
    ensures r < |h| && h[r] == Sym(wrt[i]) ==> forall p: Point :: Tan(h, p, wrt[i], r) == 1.0
  {
    hide Tan, Ok;
    forall a | 0 <= a < |row| ensures row[a].0 != i { assert LastOf(wrt, row[a].0); }
    if r < |h| && h[r] == Sym(wrt[i]) {
      forall p: Point ensures Tan(h, p, wrt[i], r) == 1.0 { TanList(h, r, p, wrt[i]); }
    }
  }

  /** Exactly where no symbol is listed twice, what a row leaves out is always zero. */
  lemma OmittedZero(wrt: seq<nat>)
    ensures EachOnce(wrt) <==> AlwaysOmitsZeros(wrt)
  {
    hide FM.Unmoved, Derives, Ok, Tan;
    if EachOnce(wrt) {
      forall j | 0 <= j < |wrt| ensures LastOf(wrt, j) {}
    } else {
      var i: nat, j: nat :| i < j < |wrt| && wrt[i] == wrt[j];
      RepeatedOmits(wrt, i, j);
    }
  }

  /** The graph, the row and the point that show it for a symbol listed twice. */
  lemma RepeatedOmits(wrt: seq<nat>, i: nat, j: nat)
    requires i < j < |wrt| && wrt[i] == wrt[j]
    ensures !AlwaysOmitsZeros(wrt)
  {
    hide Tan, Eval, RowOk;
    var s := wrt[i];
    var h := [Sym(s), Const(1.0)];
    var last := LastFor(wrt, j);
    var row: Row := [(last, 1)];
    OwnRow(h, s, wrt, last);
    RepeatedColumn(h, row, 0, wrt, i, j);
    var p: Point :| true;
    assert Tan(h, p, s, 0) == 1.0;
    assert !FM.Unmoved(h, 0, wrt[i]);
    assert !OmitsZeros(h, row, 0, wrt);
  }

  lemma {:induction false} LastFor(wrt: seq<nat>, j: nat) returns (k: nat)
    requires j < |wrt|
    ensures j <= k && LastOf(wrt, k) && wrt[k] == wrt[j]
    decreases |wrt| - j
  {
    if LastOf(wrt, j) {
      k := j;
    } else {
      var n: nat :| j < n < |wrt| && wrt[n] == wrt[j];
      k := LastFor(wrt, n);
    }
  }

  /** The row of a symbol by itself: one, in the symbol's last column. */
  lemma OwnRow(h: seq<Node>, s: nat, wrt: seq<nat>, last: nat)
    requires h == [Sym(s), Const(1.0)] && LastOf(wrt, last) && wrt[last] == s
    ensures Ok(h) && RowOk(h, [(last, 1)], 0, wrt)
  {
    hide Tan, Eval, FM.Unmoved;
    forall p: Point ensures Eval(h, p, 1) == Tan(h, p, s, 0) {
      TanList(h, 0, p, s);
      ConstIs(h, p, 1);
    }
    assert Derives(h, 1, 0, s);
    assert [(last, 1)][0].0 == last;
    forall k | 0 <= k < |wrt| && LastOf(wrt, k) && !Listed([(last, 1)], k) ensures FM.Unmoved(h, 0, wrt[k]) {
      assert k != last;
      SymStill(h, 0, wrt[k]);
    }
  }
}
