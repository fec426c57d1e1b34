/** When the classification raises each of its flags: where an operation that breaks polynomial
    structure is applied to something that moves with the variables, and only there. */
module RaisedFlags {
  import opened Arenas
  import opened Basics
  import opened Bindings
  import opened Classification
  import opened Dependence
  import opened Inlining
  import opened PolynomialDegrees
  import opened PolynomialLines
  import Substitutions

  datatype Flag = Transcendental(op: nat) | Rational | Piecewise | Opaque

  predicate Has(c: Nonlinearity, flag: Flag) {
    match flag
    case Transcendental(op) => op in c.transcendental
    case Rational => c.rational
    case Piecewise => c.piecewise
    case Opaque => c.external
  }

  lemma FlaggedHas(c: Nonlinearity)
    ensures c.Flagged() <==> exists flag :: Has(c, flag)
    ensures c.IsConstant() <==> c.degree == Finite(0) && !c.Flagged()
  {
    if c.Flagged() {
      var flag := if c.rational then Rational else if c.piecewise then Piecewise else if c.external then Opaque
        else (var op :| op in c.transcendental; Transcendental(op));
      assert Has(c, flag);
    }
  }

  // --- one operation -------------------------------------------------------------------------------------

  lemma {:induction false} JoinedHas(parts: seq<Nonlinearity>, start: Nonlinearity, flag: Flag)
    ensures Has(Joined(parts, start), flag) <==>
            Has(start, flag) || exists i :: 0 <= i < |parts| && Has(parts[i], flag)
    decreases |parts|
  {
    if parts != [] {
      var init, last := parts[..|parts| - 1], |parts| - 1;
      JoinedHas(init, start, flag);
      assert parts == init + [parts[last]];
    }
  }

  /** Some operand moves. */
  predicate AnyMoves(parts: seq<Nonlinearity>) { exists i :: 0 <= i < |parts| && !parts[i].IsConstant() }

  /** The operations that break polynomial structure, and the operand that has to move. */
  predicate Breaks(k: Kind, parts: seq<Nonlinearity>, flag: Flag)
    requires ArityOk(k, |parts|)
  {
    match flag
    case Transcendental(op) => k == Unary(op) && !parts[0].IsConstant()
    case Rational => ((k.Pow? && k.n < 0) || k.Component?) && AnyMoves(parts)
    case Piecewise =>
      ((k.Compare? || k.Least? || k.Greatest?) && AnyMoves(parts)) || (k.Select? && !parts[0].IsConstant())
    case Opaque => false
  }

  /** An operation's flags are its own and its operands', whatever is raised to the zeroth
      power apart. */
  lemma OpHas(k: Kind, parts: seq<Nonlinearity>, flag: Flag)
    requires ArityOk(k, |parts|) && k != Pow(0)
    ensures Has(ClassOf(k, parts), flag) <==>
            Breaks(k, parts, flag) || exists i :: 0 <= i < |parts| && Has(parts[i], flag)
  {
    if AllConstant(parts) {
      hide ClassOf;
      ConstantOp(k, parts);
      forall i | 0 <= i < |parts| ensures !Has(parts[i], flag) { FlaggedHas(parts[i]); }
    } else {
      hide Joined, SumDegree, ProductDegree, DotDegree, Plus, Times;
      forall start: Nonlinearity { JoinedHas(parts, start, flag); }
    }
  }

  lemma {:induction false} NoneZero(parts: seq<Nonlinearity>, n: nat, i: nat)
    requires i < n <= |parts| && parts[i].degree != Finite(0)
    ensures SumDegree(parts, n) != Finite(0) && ProductDegree(parts, n) != Finite(0)
    decreases n
  {
    if i < n - 1 { NoneZero(parts, n - 1, i); }
  }

  lemma {:induction false} DotNotZero(a: seq<Nonlinearity>, b: seq<Nonlinearity>, n: nat, i: nat)
    requires i < n <= |a| && n <= |b| && (a[i].degree != Finite(0) || b[i].degree != Finite(0))
    ensures DotDegree(a, b, n) != Finite(0)
    decreases n
  {
    if i < n - 1 { DotNotZero(a, b, n - 1, i); }
  }

  /** Nothing but a zeroth power stops what moves. */
  lemma OpMoves(k: Kind, parts: seq<Nonlinearity>)
    requires ArityOk(k, |parts|) && k != Pow(0) && forall i :: 0 <= i < |parts| ==> FlagsOk(parts[i])
    ensures ClassOf(k, parts).IsConstant() <==> AllConstant(parts)
  {
    if AllConstant(parts) {
      ConstantOp(k, parts);
    } else {
      var i :| 0 <= i < |parts| && !parts[i].IsConstant();
      hide Joined;
      FlaggedHas(parts[i]);
      assert parts[i].degree != Finite(0);
      if k.Sum? || k.Product? { NoneZero(parts, |parts|, i); }
      if k.Dot? {
        var h := |parts| / 2;
        DotNotZero(parts[..h], parts[h..], h, if i < h then i else i - h);
      }
      if k.Pow? { PowNotZero(parts[0].degree, k.n); }
    }
  }

  lemma PowNotZero(d: Degree, n: int)
    requires d != Finite(0)
    ensures n > 0 ==> Power(d, n) != Finite(0)
  {
    if n > 0 && d.Finite? { assert d.d * n > 0; }
  }

  // --- every expression ---------------------------------------------------------------------------------

  /** What `e` is computed from: operands, or a call's arguments. */
  ghost function Inputs(A: Arena, e: nat): (r: seq<nat>)
    requires ArenaOk(A) && e < |A.nodes|
    ensures forall i :: 0 <= i < |r| ==> r[i] < e
  {
    assert NodeOk(A, e);
    assert forall i :: 0 <= i < |A.nodes[e].Operands()| ==> A.nodes[e].Operands()[i] in A.nodes[e].Operands();
    if A.nodes[e].Call? then Args(A, e) else A.nodes[e].Operands()
  }

  /** A zeroth power is one and a zero output is zero, whatever they are applied to. */
  ghost predicate Stops(kind: nat -> Kind, A: Arena, e: nat)
    requires ArenaOk(A) && e < |A.nodes|
  {
    assert NodeOk(A, e);
    match A.nodes[e]
    case Op(op, _) => kind(op) == Pow(0)
    case Call(f, out, _, _) => A.funcs[f].outputs[out].Zero?
    case _ => false
  }

  /** `d` is `e` or goes into it. */
  ghost predicate Feeds(kind: nat -> Kind, A: Arena, e: nat, d: nat)
    requires ArenaOk(A) && e < |A.nodes|
    decreases e
  {
    d == e || (!Stops(kind, A, e) && exists i :: 0 <= i < |Inputs(A, e)| && Feeds(kind, A, Inputs(A, e)[i], d))
  }

  /** A variable goes into `e`. */
  ghost predicate Moves(kind: nat -> Kind, A: Arena, vars: set<nat>, e: nat)
    requires ArenaOk(A) && e < |A.nodes|
  { exists d: nat :: d < |A.nodes| && Feeds(kind, A, e, d) && A.nodes[d].Symbol? && A.nodes[d].s in vars }

  ghost predicate SomeMoves(kind: nat -> Kind, A: Arena, vars: set<nat>, e: nat)
    requires ArenaOk(A) && e < |A.nodes|
  { exists i :: 0 <= i < |Inputs(A, e)| && Moves(kind, A, vars, Inputs(A, e)[i]) }

  /** Node `d` breaks polynomial structure: an elementary function of something that moves, a
      negative power or a solution of it, a comparison or an extremum of it or a branch on it,
      or an external function of it. */
  ghost predicate Raises(kind: nat -> Kind, A: Arena, vars: set<nat>, d: nat, flag: Flag)
    requires ArenaOk(A) && d < |A.nodes|
  {
    assert NodeOk(A, d);
    match A.nodes[d]
    case Op(op, args) =>
      (match flag
       case Transcendental(u) => kind(op) == Unary(u) && SomeMoves(kind, A, vars, d)
       case Rational => ((kind(op).Pow? && kind(op).n < 0) || kind(op).Component?) && SomeMoves(kind, A, vars, d)
       case Piecewise =>
         || ((kind(op).Compare? || kind(op).Least? || kind(op).Greatest?) && SomeMoves(kind, A, vars, d))
         || (kind(op).Select? && args != [] && Moves(kind, A, vars, Inputs(A, d)[0]))
       case Opaque => false)
    case Call(f, out, _, _) => flag.Opaque? && A.funcs[f].outputs[out].External? && SomeMoves(kind, A, vars, d)
    case _ => false
  }

  /** Every operation has as many operands as it takes. */
  ghost predicate Formed(kind: nat -> Kind, A: Arena) {
    forall d :: 0 <= d < |A.nodes| && A.nodes[d].Op? ==> ArityOk(kind(A.nodes[d].op), |A.nodes[d].args|)
  }

  lemma OnlyUnder(A: Arena, e: nat, o: nat)
    requires ArenaOk(A) && OnlyExternal(A, e) && o in A.nodes[e].Operands()
    ensures OnlyExternal(A, o) && o < e
  {
    hide CallsBody;
    assert NodeOk(A, e) && Below1(o, e);
    forall d: nat | d < |A.nodes| && Substitutions.Reaches(A, o, d) ensures Substitutions.Reaches(A, e, d) {}
  }

  lemma OnlyBelow(A: Arena, e: nat, i: nat)
    requires ArenaOk(A) && OnlyExternal(A, e) && i < |Inputs(A, e)|
    ensures OnlyExternal(A, Inputs(A, e)[i])
  {
    hide OnlyExternal;
    CallsNoBody(A, e);
    assert NodeOk(A, e);
    var n := A.nodes[e];
    if n.Call? { FullAmong(n.ctx, |A.funcs[n.f].params|, n.list, i); }
    OnlyUnder(A, e, Inputs(A, e)[i]);
  }

  /** Something that goes into `e` raises the flag. */
  ghost predicate Raised(kind: nat -> Kind, A: Arena, vars: set<nat>, e: nat, flag: Flag)
    requires ArenaOk(A) && e < |A.nodes|
  { exists d: nat :: d < |A.nodes| && Feeds(kind, A, e, d) && Raises(kind, A, vars, d, flag) }

  lemma MovesStep(kind: nat -> Kind, A: Arena, vars: set<nat>, e: nat)
    requires ArenaOk(A) && e < |A.nodes|
    ensures Moves(kind, A, vars, e) <==>
            (A.nodes[e].Symbol? && A.nodes[e].s in vars) || (!Stops(kind, A, e) && SomeMoves(kind, A, vars, e))
  {
    hide Inputs;
    if A.nodes[e].Symbol? && A.nodes[e].s in vars { assert Feeds(kind, A, e, e); }
    if !Stops(kind, A, e) && SomeMoves(kind, A, vars, e) {
      var i :| 0 <= i < |Inputs(A, e)| && Moves(kind, A, vars, Inputs(A, e)[i]);
      var d: nat :| d < |A.nodes| && Feeds(kind, A, Inputs(A, e)[i], d) && A.nodes[d].Symbol? && A.nodes[d].s in vars;
      assert Feeds(kind, A, e, d);
    }
  }

  lemma RaisedStep(kind: nat -> Kind, A: Arena, vars: set<nat>, e: nat, flag: Flag)
    requires ArenaOk(A) && e < |A.nodes|
    ensures Raised(kind, A, vars, e, flag) <==>
            || Raises(kind, A, vars, e, flag)
            || (!Stops(kind, A, e)
                && exists i :: 0 <= i < |Inputs(A, e)| && Raised(kind, A, vars, Inputs(A, e)[i], flag))
    ensures Stops(kind, A, e) ==> !Raises(kind, A, vars, e, flag)
  {
    hide Inputs;
    if Raises(kind, A, vars, e, flag) { assert Feeds(kind, A, e, e); }
    if !Stops(kind, A, e) && exists i :: 0 <= i < |Inputs(A, e)| && Raised(kind, A, vars, Inputs(A, e)[i], flag) {
      hide Raises;
      var i :| 0 <= i < |Inputs(A, e)| && Raised(kind, A, vars, Inputs(A, e)[i], flag);
      var d: nat :| d < |A.nodes| && Feeds(kind, A, Inputs(A, e)[i], d) && Raises(kind, A, vars, d, flag);
      assert Feeds(kind, A, e, d);
    }
  }

  lemma OpaqueHas(parts: seq<Nonlinearity>, flag: Flag)
    ensures OpaqueOf(parts).IsConstant() <==> AllConstant(parts)
    ensures Has(OpaqueOf(parts), flag) <==>
            (flag.Opaque? && AnyMoves(parts)) || exists i :: 0 <= i < |parts| && Has(parts[i], flag)
  {
    hide Joined;
    JoinedHas(parts, Pure(Unbounded).(external := true), flag);
    if AllConstant(parts) {
      forall i | 0 <= i < |parts| ensures !Has(parts[i], flag) { FlaggedHas(parts[i]); }
    }
  }

  /** What a class says of `e`. */
  ghost predicate Says(c: Nonlinearity, kind: nat -> Kind, A: Arena, vars: set<nat>, e: nat)
    requires ArenaOk(A) && e < |A.nodes|
  {
    && (c.IsConstant() <==> !Moves(kind, A, vars, e))
    && forall flag :: Has(c, flag) <==> Raised(kind, A, vars, e, flag)
  }

  /** The classes of what goes into `e` say what they should. */
  ghost predicate InputsSay(parts: seq<Nonlinearity>, kind: nat -> Kind, A: Arena, vars: set<nat>, e: nat)
    requires ArenaOk(A) && e < |A.nodes|
  {
    |parts| == |Inputs(A, e)| && forall i :: 0 <= i < |parts| ==> Says(parts[i], kind, A, vars, Inputs(A, e)[i])
  }

  lemma InputsSome(parts: seq<Nonlinearity>, kind: nat -> Kind, A: Arena, vars: set<nat>, e: nat, flag: Flag)
    requires ArenaOk(A) && e < |A.nodes| && InputsSay(parts, kind, A, vars, e)
    ensures AnyMoves(parts) <==> SomeMoves(kind, A, vars, e)
    ensures forall i :: 0 <= i < |parts| ==> (parts[i].IsConstant() <==> !Moves(kind, A, vars, Inputs(A, e)[i]))
    ensures (exists i :: 0 <= i < |parts| && Has(parts[i], flag)) <==>
            exists i :: 0 <= i < |Inputs(A, e)| && Raised(kind, A, vars, Inputs(A, e)[i], flag)
  {
    hide Inputs, Moves, Raised, Has, Nonlinearity.IsConstant;
    forall i | 0 <= i < |parts|
      ensures (parts[i].IsConstant() <==> !Moves(kind, A, vars, Inputs(A, e)[i]))
              && (Has(parts[i], flag) <==> Raised(kind, A, vars, Inputs(A, e)[i], flag)) {
      assert Says(parts[i], kind, A, vars, Inputs(A, e)[i]);
    }
  }

  lemma OpSays(kind: nat -> Kind, A: Arena, vars: set<nat>, e: nat, parts: seq<Nonlinearity>)
    requires ArenaOk(A) && e < |A.nodes| && A.nodes[e].Op? && ArityOk(kind(A.nodes[e].op), |parts|)
    requires InputsSay(parts, kind, A, vars, e) && forall i :: 0 <= i < |parts| ==> FlagsOk(parts[i])
    ensures Says(ClassOf(kind(A.nodes[e].op), parts), kind, A, vars, e)
  {
    hide Moves, Raised, ClassOf, Has, InputsSay, FlagsOk;
    var k := kind(A.nodes[e].op);
    MovesStep(kind, A, vars, e);
    if k == Pow(0) {
      ZerothPower(parts);
    } else {
      OpMoves(k, parts);
      InputsSome(parts, kind, A, vars, e, Rational);
    }
    forall flag ensures Has(ClassOf(k, parts), flag) <==> Raised(kind, A, vars, e, flag) {
      RaisedStep(kind, A, vars, e, flag);
      if k != Pow(0) {
        OpHas(k, parts, flag);
        InputsSome(parts, kind, A, vars, e, flag);
      }
    }
  }

  lemma ZerothPower(parts: seq<Nonlinearity>)
    requires |parts| == 1
    ensures ClassOf(Pow(0), parts).IsConstant() && forall flag :: !Has(ClassOf(Pow(0), parts), flag)
  {
  }

  lemma CallSays(kind: nat -> Kind, A: Arena, vars: set<nat>, e: nat, parts: seq<Nonlinearity>)
    requires ArenaOk(A) && e < |A.nodes| && A.nodes[e].Call? && NodeOk(A, e) && InputsSay(parts, kind, A, vars, e)
    requires A.funcs[A.nodes[e].f].outputs[A.nodes[e].out].External?
    ensures Says(OpaqueOf(parts), kind, A, vars, e)
  {
    hide Moves, Raised, OpaqueOf, Has, AnyMoves, SomeMoves, InputsSay;
    MovesStep(kind, A, vars, e);
    OpaqueHas(parts, Rational);
    InputsSome(parts, kind, A, vars, e, Rational);
    assert AllConstant(parts) <==> !AnyMoves(parts) by { NotAll(parts); }
    forall flag ensures Has(OpaqueOf(parts), flag) <==> Raised(kind, A, vars, e, flag) {
      RaisedStep(kind, A, vars, e, flag);
      OpaqueHas(parts, flag);
      InputsSome(parts, kind, A, vars, e, flag);
    }
  }

  lemma NotAll(parts: seq<Nonlinearity>)
    ensures AllConstant(parts) <==> !AnyMoves(parts)
  {
  }

  lemma ZeroSays(kind: nat -> Kind, A: Arena, vars: set<nat>, e: nat)
    requires ArenaOk(A) && e < |A.nodes| && (A.nodes[e].Const? || Stops(kind, A, e))
    ensures Says(Constant(), kind, A, vars, e)
  {
    hide Moves, Raised;
    MovesStep(kind, A, vars, e);
    forall flag ensures !Raised(kind, A, vars, e, flag) { RaisedStep(kind, A, vars, e, flag); }
  }

  /** With every body inlined, the class of an expression is constant where no variable goes
      into it, and each flag is raised where an operation that breaks polynomial structure goes
      into it, applied to something that moves; both precisely there. */
  lemma {:induction false} FlagsAre(kind: nat -> Kind, zero: nat, fold: (nat, seq<nat>) -> Option<nat>, A: Arena,
                                    vars: set<nat>, e: nat)
    requires ArenaOk(A) && e < |A.nodes| && Formed(kind, A) && OnlyExternal(A, e)
    ensures Says(Eval(ClassWorld(kind, zero, fold), A, LeafClasses(vars), e), kind, A, vars, e)
    decreases e
  {
    hide ClassOf, OpaqueOf, Says, Stops, FlagsOk, OnlyExternal;
    var C, env := ClassWorld(kind, zero, fold), LeafClasses(vars);
    assert NodeOk(A, e);
    forall i | 0 <= i < |Inputs(A, e)|
      ensures Says(Eval(C, A, env, Inputs(A, e)[i]), kind, A, vars, Inputs(A, e)[i])
              && FlagsOk(Eval(C, A, env, Inputs(A, e)[i])) {
      OnlyBelow(A, e, i);
      FlagsAre(kind, zero, fold, A, vars, Inputs(A, e)[i]);
      VariablesFlagNothing(vars);
      FlagsUnbounded(kind, zero, fold, A, env, Inputs(A, e)[i]);
    }
    match A.nodes[e]
    case Const(_) => ZeroSays(kind, A, vars, e);
    case Symbol(s) => SymbolSays(kind, A, vars, e);
    case Op(op, args) =>
      assert args == Inputs(A, e);
      OpSays(kind, A, vars, e, Evals(C, A, env, args, e));
    case Call(f, out, ctx, list) =>
      CallsNoBody(A, e);
      var parts := Evals(C, A, env, Args(A, e), e);
      match A.funcs[f].outputs[out]
      case Zero => ZeroCall(kind, A, vars, e);
      case External(k) => CallSays(kind, A, vars, e, parts);
  }

  lemma VariablesFlagNothing(vars: set<nat>)
    ensures forall s :: s in LeafClasses(vars) ==> FlagsOk(LeafClasses(vars)[s])
  {
  }

  lemma CallsNoBody(A: Arena, e: nat)
    requires ArenaOk(A) && OnlyExternal(A, e)
    ensures e < |A.nodes| && NodeOk(A, e)
    ensures A.nodes[e].Call? ==> !A.funcs[A.nodes[e].f].outputs[A.nodes[e].out].Expr?
  {
    assert Substitutions.Reaches(A, e, e);
    assert NodeOk(A, e);
  }

  lemma ZeroCall(kind: nat -> Kind, A: Arena, vars: set<nat>, e: nat)
    requires ArenaOk(A) && e < |A.nodes| && A.nodes[e].Call? && NodeOk(A, e)
    requires A.funcs[A.nodes[e].f].outputs[A.nodes[e].out].Zero?
    ensures Says(Constant(), kind, A, vars, e)
  {
    hide Says;
    ZeroSays(kind, A, vars, e);
  }

  lemma SymbolSays(kind: nat -> Kind, A: Arena, vars: set<nat>, e: nat)
    requires ArenaOk(A) && e < |A.nodes| && A.nodes[e].Symbol?
    ensures Says(if A.nodes[e].s in vars then Pure(Finite(1)) else Constant(), kind, A, vars, e)
  {
    hide Moves, Raised;
    MovesStep(kind, A, vars, e);
    forall flag ensures !Raised(kind, A, vars, e, flag) { RaisedStep(kind, A, vars, e, flag); }
  }

  // --- a system ----------------------------------------------------------------------------------------

  /** Where no body is called no global of one is. */
  lemma {:induction false} NoGlobals(C: World<Nonlinearity>, A: Arena, env: Env<Nonlinearity>, e: nat)
    requires ArenaOk(A) && OnlyExternal(A, e)
    ensures e < |A.nodes| && GlobalsConstant(C, A, env, e)
    decreases e
  {
    hide OnlyExternal;
    CallsNoBody(A, e);
    var n := A.nodes[e];
    forall i | 0 <= i < |n.Operands()|
      ensures Below1(n.Operands()[i], e) && GlobalsConstant(C, A, env, n.Operands()[i]) {
      OnlyUnder(A, e, n.Operands()[i]);
      NoGlobals(C, A, env, n.Operands()[i]);
    }
  }

  lemma {:induction false} WorstHas(cs: seq<Nonlinearity>, flag: Flag)
    ensures Has(Worst(cs), flag) <==> exists i :: 0 <= i < |cs| && Has(cs[i], flag)
    decreases |cs|
  {
    if cs != [] {
      WorstHas(cs[..|cs| - 1], flag);
      assert cs == cs[..|cs| - 1] + [cs[|cs| - 1]];
    }
  }

  lemma {:induction false} WorstConstant(cs: seq<Nonlinearity>)
    requires forall i :: 0 <= i < |cs| ==> FlagsOk(cs[i])
    ensures FlagsOk(Worst(cs)) && (Worst(cs).IsConstant() <==> AllConstant(cs))
    decreases |cs|
  {
    if cs != [] {
      WorstConstant(cs[..|cs| - 1]);
      FlaggedHas(cs[|cs| - 1]);
      FlaggedHas(Worst(cs[..|cs| - 1]));
      assert cs == cs[..|cs| - 1] + [cs[|cs| - 1]];
    }
  }

  /** The classification of a system of inlined expressions is constant where no variable goes
      into any of them, and each flag is raised where one of them raises it. */
  lemma SystemFlags(kind: nat -> Kind, zero: nat, fold: (nat, seq<nat>) -> Option<nat>, A: Arena, exprs: seq<nat>,
                    vars: set<nat>)
    requires ArenaOk(A) && Formed(kind, A) && forall i :: 0 <= i < |exprs| ==> exprs[i] < |A.nodes|
    requires forall i :: 0 <= i < |exprs| ==> OnlyExternal(A, exprs[i])
    ensures var acc := Worst(ClassesIn(ClassWorld(kind, zero, fold), A, LeafClasses(vars), exprs, |A.nodes|));
            && (acc.IsConstant() <==> forall i :: 0 <= i < |exprs| ==> !Moves(kind, A, vars, exprs[i]))
            && forall flag :: Has(acc, flag) <==>
                 exists i :: 0 <= i < |exprs| && Raised(kind, A, vars, exprs[i], flag)
  {
    hide Worst, Moves, Raised, Has, OnlyExternal, Nonlinearity.IsConstant, FlagsOk;
    var C, env := ClassWorld(kind, zero, fold), LeafClasses(vars);
    var cs := ClassesIn(C, A, env, exprs, |A.nodes|);
    forall i | 0 <= i < |cs|
      ensures FlagsOk(cs[i]) && (cs[i].IsConstant() <==> !Moves(kind, A, vars, exprs[i]))
      ensures forall flag :: Has(cs[i], flag) <==> Raised(kind, A, vars, exprs[i], flag) {
      NoGlobals(C, A, env, exprs[i]);
      ClosedIs(C, A, env, exprs[i]);
      FlagsAre(kind, zero, fold, A, vars, exprs[i]);
      VariablesFlagNothing(vars);
      FlagsUnbounded(kind, zero, fold, A, env, exprs[i]);
    }
    WorstConstant(cs);
    forall flag ensures Has(Worst(cs), flag) <==>
                          exists i :: 0 <= i < |exprs| && Raised(kind, A, vars, exprs[i], flag) {
      WorstHas(cs, flag);
    }
  }
}
