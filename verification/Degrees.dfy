/** How an expression depends on some variables: the polynomial degree along every line, and
    what breaks polynomial structure, found through calls from the classes of arguments. */
module PolynomialDegrees {
  import opened Arenas
  import opened Basics
  import opened Bindings
  import opened CallRewrites
  import opened Rewriting

  const U32_MAX: nat := 0xFFFF_FFFF

  datatype Degree = Finite(d: nat) | Unbounded

  /** Degrees past 32 bits are unbounded. */
  function Checked(d: nat): Degree { if d <= U32_MAX then Finite(d) else Unbounded }

  function Times(a: Degree, b: Degree): Degree { if a.Finite? && b.Finite? then Checked(a.d + b.d) else Unbounded }

  function Plus(a: Degree, b: Degree): Degree {
    if a.Finite? && b.Finite? then Finite(if a.d < b.d then b.d else a.d) else Unbounded
  }

  function Power(a: Degree, n: nat): Degree { if a.Finite? then Checked(a.d * n) else Unbounded }

  /** The classification: the degree, the functions applied to what moves, and what else
      defeats a polynomial. */
  datatype Nonlinearity = Nonlinearity(degree: Degree, transcendental: set<nat>, rational: bool, piecewise: bool,
                                       external: bool) {
    predicate IsConstant() { this == Constant() }
    predicate Flagged() { transcendental != {} || rational || piecewise || external }
    function Absorb(c: Nonlinearity): Nonlinearity {
      Nonlinearity(degree, transcendental + c.transcendental, rational || c.rational, piecewise
                   || c.piecewise, external || c.external)
    }
  }

  function Constant(): Nonlinearity { Nonlinearity(Finite(0), {}, false, false, false) }

  function Pure(d: Degree): Nonlinearity { Nonlinearity(d, {}, false, false, false) }

  /** The operations of the graph. */
  datatype Kind =
    | Neg | Add | Mul | Pow(n: int) | Unary(op: nat) | Binary(op: nat) | Compare(op: nat) | Component(i: nat) | Select
    | Sum | Product | Least | Greatest | Dot

  predicate ArityOk(k: Kind, n: nat) {
    match k
    case Neg => n == 1
    case Pow(_) => n == 1
    case Unary(_) => n == 1
    case Add => n == 2
    case Mul => n == 2
    case Binary(_) => n == 2
    case Compare(_) => n == 2
    case Select => n == 3
    case Dot => n % 2 == 0
    case _ => true
  }

  predicate AllConstant(parts: seq<Nonlinearity>) { forall i :: 0 <= i < |parts| ==> parts[i].IsConstant() }

  function Joined(parts: seq<Nonlinearity>, start: Nonlinearity): (r: Nonlinearity)
    ensures r.degree == start.degree && (start.Flagged() ==> r.Flagged())
    ensures r.Flagged() ==> start.Flagged() || exists i :: 0 <= i < |parts| && parts[i].Flagged()
  {
    if parts == [] then start
    else
      var rest := Joined(parts[..|parts| - 1], start);
      var r := rest.Absorb(parts[|parts| - 1]);
      assert r.Flagged() ==> rest.Flagged() || parts[|parts| - 1].Flagged();
      r
  }

  function SumDegree(parts: seq<Nonlinearity>, n: nat): Degree
    requires n <= |parts|
  { if n == 0 then Finite(0) else Plus(SumDegree(parts, n - 1), parts[n - 1].degree) }

  function ProductDegree(parts: seq<Nonlinearity>, n: nat): Degree
    requires n <= |parts|
  { if n == 0 then Finite(0) else Times(ProductDegree(parts, n - 1), parts[n - 1].degree) }

  function DotDegree(a: seq<Nonlinearity>, b: seq<Nonlinearity>, n: nat): Degree
    requires n <= |a| && n <= |b|
  { if n == 0 then Finite(0) else Plus(DotDegree(a, b, n - 1), Times(a[n - 1].degree, b[n - 1].degree)) }

  /** The class of an operation from its operands' classes. */
  function ClassOf(k: Kind, parts: seq<Nonlinearity>): Nonlinearity {
    if !ArityOk(k, |parts|) then if AllConstant(parts) then Constant() else Pure(Unbounded)
    else
      match k
      case Neg => parts[0]
      case Add => Joined(parts, Pure(Plus(parts[0].degree, parts[1].degree)))
      case Mul => Joined(parts, Pure(Times(parts[0].degree, parts[1].degree)))
      case Pow(n) =>
        if n == 0 || parts[0].IsConstant() then Constant()
        else if n > 0 then parts[0].(degree := Power(parts[0].degree, n))
        else Joined(parts, Pure(Unbounded).(rational := true))
      case Unary(op) => if parts[0].IsConstant()
          then Constant() else Joined(parts, Pure(Unbounded).(transcendental := {op}))
      case Binary(_) => if AllConstant(parts) then Constant() else Joined(parts, Pure(Unbounded))
      case Compare(_) => if AllConstant(parts) then Constant() else Joined(parts, Pure(Unbounded).(piecewise := true))
      case Component(_) => if AllConstant(parts) then Constant() else Joined(parts, Pure(Unbounded).(rational := true))
      case Select =>
        Joined(parts, if parts[0].IsConstant()
               then Pure(Plus(parts[1].degree, parts[2].degree)) else Pure(Unbounded).(piecewise := true))
      case Sum => Joined(parts, Pure(SumDegree(parts, |parts|)))
      case Product => Joined(parts, Pure(ProductDegree(parts, |parts|)))
      case Least => if AllConstant(parts)
          then Joined(parts, Constant()) else Joined(parts, Pure(Unbounded).(piecewise := true))
      case Greatest => if AllConstant(parts)
          then Joined(parts, Constant()) else Joined(parts, Pure(Unbounded).(piecewise := true))
      case Dot => Joined(parts, Pure(DotDegree(parts[..|parts| / 2], parts[|parts| / 2..], |parts| / 2)))
  }

  /** An output of an external body: opaque where an argument moves. */
  function OpaqueOf(parts: seq<Nonlinearity>): Nonlinearity {
    if AllConstant(parts) then Constant() else Joined(parts, Pure(Unbounded).(external := true))
  }

  /** The classes as a scalar the expressions are evaluated in. */
  function ClassWorld(kind: nat -> Kind, zero: nat, fold: (nat, seq<nat>) -> Option<nat>): World<Nonlinearity> {
    World(Constant(), (c: nat) => Constant(), (op: nat, parts: seq<Nonlinearity>) => ClassOf(kind(op), parts),
          (f: nat, k: nat, parts: seq<Nonlinearity>) => OpaqueOf(parts), zero, fold)
  }

  /** Any flag makes the degree unbounded. */
  ghost predicate FlagsOk(c: Nonlinearity) { c.Flagged() ==> c.degree.Unbounded? }

  lemma {:induction false} SumUnbounded(parts: seq<Nonlinearity>, n: nat, i: nat)
    requires i < n <= |parts| && parts[i].degree.Unbounded?
    ensures SumDegree(parts, n).Unbounded? && ProductDegree(parts, n).Unbounded?
    decreases n
  {
    if i < n - 1 { SumUnbounded(parts, n - 1, i); }
  }

  lemma {:induction false} DotUnbounded(a: seq<Nonlinearity>, b: seq<Nonlinearity>, n: nat, i: nat)
    requires i < n <= |a| && n <= |b| && (a[i].degree.Unbounded? || b[i].degree.Unbounded?)
    ensures DotDegree(a, b, n).Unbounded?
    decreases n
  {
    if i < n - 1 { DotUnbounded(a, b, n - 1, i); }
  }

  lemma ClassFlags(k: Kind, parts: seq<Nonlinearity>)
    requires forall i :: 0 <= i < |parts| ==> FlagsOk(parts[i])
    ensures FlagsOk(ClassOf(k, parts)) && FlagsOk(OpaqueOf(parts))
  {
    var c := ClassOf(k, parts);
    if c.Flagged() && ArityOk(k, |parts|) && (k.Add? || k.Mul? || k.Select? || k.Sum? || k.Product? || k.Dot?)
        && c.degree.Finite? {
      FlaggedFrom(k, parts);
    }
  }

  /** A flag of an operation whose degree is finite would be an operand's. */
  lemma FlaggedFrom(k: Kind, parts: seq<Nonlinearity>)
    requires (forall i :: 0 <= i < |parts| ==> FlagsOk(parts[i])) && ArityOk(k, |parts|)
    requires k.Add? || k.Mul? || k.Select? || k.Sum? || k.Product? || k.Dot?
    ensures ClassOf(k, parts).Flagged() ==> ClassOf(k, parts).degree.Unbounded?
  {
    hide Joined;
    if ClassOf(k, parts).Flagged() && (!k.Select? || parts[0].IsConstant()) {
      var i :| 0 <= i < |parts| && parts[i].Flagged();
      if k.Sum? || k.Product? { SumUnbounded(parts, |parts|, i); }
      if k.Dot? {
        DotUnbounded(parts[..|parts| / 2], parts[|parts| / 2..], |parts| / 2, if i < |parts| / 2
                     then i else i - |parts| / 2);
      }
    }
  }

  /** So in every expression, through every call. */
  lemma {:induction false} FlagsUnbounded(kind: nat -> Kind, zero: nat, fold: (nat, seq<nat>) -> Option<nat>,
                                          A: Arena, env: Env<Nonlinearity>, e: nat)
    requires ArenaOk(A) && e < |A.nodes| && forall s :: s in env ==> FlagsOk(env[s])
    ensures FlagsOk(Eval(ClassWorld(kind, zero, fold), A, env, e))
    decreases e
  {
    hide ClassOf, OpaqueOf;
    var W := ClassWorld(kind, zero, fold);
    assert NodeOk(A, e);
    match A.nodes[e]
    case Const(_) =>
    case Symbol(_) =>
    case Op(op, args) =>
      forall i | 0 <= i < |args| ensures args[i] < e && FlagsOk(Eval(W, A, env, args[i])) {
        assert args[i] in A.nodes[e].Operands();
        FlagsUnbounded(kind, zero, fold, A, env, args[i]);
      }
      ClassFlags(kind(op), Evals(W, A, env, args, e));
    case Call(f, out, ctx, list) =>
      FullBelow(A, e);
      var params := A.funcs[f].params;
      var full := FullArgs(ctx, |params|, list);
      forall i | 0 <= i < |full| ensures FlagsOk(Eval(W, A, env, full[i])) {
        FlagsUnbounded(kind, zero, fold, A, env, full[i]);
      }
      var vals := Evals(W, A, env, full, e);
      ClassFlags(Neg, vals);
      var o := A.funcs[f].outputs[out];
      if o.Expr? { FlagsUnbounded(kind, zero, fold, A, BindEnv(env, params, vals), o.e); }
  }

  /** Constants fold to constants: inlining keeps every class. */
  lemma ClassFolds(kind: nat -> Kind, zero: nat, fold: (nat, seq<nat>) -> Option<nat>)
    ensures SoundFolds(ClassWorld(kind, zero, fold))
  {
    var W := ClassWorld(kind, zero, fold);
    forall op: nat, ks: seq<nat> ensures FoldsTo(W, op, ks) { ConstantOp(kind(op), Konsts(W, ks)); }
  }

  lemma ConstantOp(k: Kind, parts: seq<Nonlinearity>)
    requires AllConstant(parts)
    ensures ClassOf(k, parts) == Constant()
  {
    JoinedUnflagged(parts, |parts|, Constant());
    assert parts[..|parts|] == parts;
    DegreesZero(parts, |parts|);
    if k.Dot? && ArityOk(k, |parts|) { DotZero(parts[..|parts| / 2], parts[|parts| / 2..], |parts| / 2); }
  }

  lemma {:induction false} JoinedUnflagged(parts: seq<Nonlinearity>, n: nat, start: Nonlinearity)
    requires n <= |parts| && forall i :: 0 <= i < |parts| ==> !parts[i].Flagged()
    ensures Joined(parts[..n], start) == start
    decreases n
  {
    if n > 0 {
      JoinedUnflagged(parts, n - 1, start);
      assert parts[..n][..n - 1] == parts[..n - 1];
    }
  }

  lemma {:induction false} DegreesZero(parts: seq<Nonlinearity>, n: nat)
    requires AllConstant(parts) && n <= |parts|
    ensures SumDegree(parts, n) == Finite(0) && ProductDegree(parts, n) == Finite(0)
    decreases n
  {
    if n > 0 { DegreesZero(parts, n - 1); }
  }

  lemma {:induction false} DotZero(a: seq<Nonlinearity>, b: seq<Nonlinearity>, n: nat)
    requires AllConstant(a) && AllConstant(b) && n <= |a| && n <= |b|
    ensures DotDegree(a, b, n) == Finite(0)
    decreases n
  {
    if n > 0 { DotZero(a, b, n - 1); }
  }
}
