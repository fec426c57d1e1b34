/** Modules as data, and the check that stands between a stored module and the loader. */
module Modules {
  import opened Basics
  import opened Bindings
  import opened Arenas

  const VERSION := 2

  /** A window of the operand pool; its fields are 32 bits wide, and so is the sum of them. */
  type Word = x: int | 0 <= x < 0x1_0000_0000

  datatype Window = Window(start: Word, len: Word) {
    function Length(): nat { len }
    function Past(): int { start + len }
    function End(): Word { (start + len) % 0x1_0000_0000 }
  }

  /** What a list of operands must look like: anything, two halves of one length, or a square
      system with its right-hand side, of which one unknown is asked for. */
  datatype Shape = Plain | Halves | Square(unknown: nat)

  datatype RawNode = Const(c: nat) | Symbol(s: nat) | Inline(op: nat, args: seq<nat>)
    | Listed(op: nat, shape: Shape, l: Window) | Call(o: nat, l: Window)

  /** `body` is the name of the external body the function expects. */
  datatype FunctionData = FunctionData(params: seq<nat>, keeps: seq<bool>, outputs: seq<Output>, outputRoles: seq<nat>,
                                       body: Option<string>)

  /** The bound parameters of a call and the window of their expressions. */
  type RawContext = Option<(seq<nat>, Window)>

  datatype Module = Module(version: nat, nodes: seq<RawNode>, consts: seq<nat>, pool: seq<nat>, symbols: seq<string>,
                           funcs: seq<FunctionData>, callOutputs: seq<(nat, nat)>, contexts: seq<RawContext>)

  datatype ModuleError = OtherVersion | Dangling(node: nat) | BadShape(node: nat) | BadFunction(func: nat)
    | MissingExtern(name: string)

  // --- what passes ------------------------------------------------------------------------------------

  /** Symbol `s` has a node before `i`. */
  ghost predicate Met(m: Module, s: nat, i: nat) { exists j :: 0 <= j < i && j < |m.nodes| && m.nodes[j] == Symbol(s) }

  ghost predicate ParamsMet(m: Module, f: nat, i: nat)
    requires f < |m.funcs|
  { forall k :: 0 <= k < |m.funcs[f].params| ==> Met(m, m.funcs[f].params[k], i) }

  /** The parameters of `f` and of every function before it have nodes before `i`. */
  ghost predicate Ready(m: Module, f: nat, i: nat) { forall g :: 0 <= g <= f && g < |m.funcs| ==> ParamsMet(m, g, i) }

  predicate OutputBefore(o: Output, i: nat) { o.Expr? ==> o.e < i }

  predicate RefersFit(m: Module, f: nat)
    requires f < |m.funcs|
  {
    var fn := m.funcs[f];
    && (forall k :: 0 <= k < |fn.params| ==> fn.params[k] < |m.symbols|)
    && (forall k :: 0 <= k < |fn.outputs| ==> OutputBefore(fn.outputs[k], |m.nodes|))
    && |fn.keeps| <= |fn.params| && |fn.outputRoles| <= |fn.outputs|
  }

  ghost predicate FuncFits(m: Module, f: nat)
    requires f < |m.funcs|
  { RefersFit(m, f) && ParamsMet(m, f, |m.nodes|) }

  /** Each less than the next. */
  predicate AscendingStep(at: seq<nat>) { forall j :: 0 <= j < |at| - 1 ==> at[j] < at[j + 1] }

  /** The bound parameters ascend and exist, and the window of their expressions, added up in
      the width of its fields, ends within the pool. */
  predicate ContextFits(m: Module, f: nat, c: RawContext)
    requires f < |m.funcs|
  {
    c.Some? ==>
      && |c.value.0| == c.value.1.len && AscendingStep(c.value.0)
      && (forall j :: 0 <= j < |c.value.0| ==> c.value.0[j] < |m.funcs[f].params|)
      && c.value.1.End() <= |m.pool|
  }

  predicate CallOutputFits(m: Module, o: nat)
    requires o < |m.callOutputs| == |m.contexts|
  {
    var (f, k) := m.callOutputs[o];
    f < |m.funcs| && k < |m.funcs[f].outputs| && ContextFits(m, f, m.contexts[o])
  }

  predicate ListBefore(m: Module, l: Window, i: nat) {
    l.Past() <= |m.pool| && forall k :: l.start <= k < l.Past() ==> m.pool[k] < i
  }

  function SystemLength(n: nat): nat { n * n + n }

  ghost predicate ShapeFits(shape: Shape, len: nat) {
    match shape
    case Plain => true
    case Halves => len % 2 == 0
    case Square(k) => exists n: nat :: k < n && SystemLength(n) == len
  }

  function BoundCount(c: RawContext): nat { if c.None? then 0 else |c.value.0| }

  ghost predicate CallFits(m: Module, i: nat, o: nat, l: Window)
    requires |m.callOutputs| == |m.contexts| && forall o :: 0 <= o < |m.callOutputs| ==> CallOutputFits(m, o)
  {
    && o < |m.callOutputs| && CallOutputFits(m, o)
    && var (f, k) := m.callOutputs[o];
       && |m.funcs[f].params| == l.Length() + BoundCount(m.contexts[o]) && Ready(m, f, i)
       && forall j :: 0 <= j <= k ==> OutputBefore(m.funcs[f].outputs[j], i)
  }

  ghost predicate NodeFits(m: Module, i: nat)
    requires i < |m.nodes|
    requires |m.callOutputs| == |m.contexts| && forall o :: 0 <= o < |m.callOutputs| ==> CallOutputFits(m, o)
  {
    match m.nodes[i]
    case Const(c) => c < |m.consts|
    case Symbol(s) => s < |m.symbols|
    case Inline(_, args) => forall k :: 0 <= k < |args| ==> args[k] < i
    case Listed(_, shape, l) => ListBefore(m, l, i) && ShapeFits(shape, l.Length())
    case Call(o, l) => ListBefore(m, l, i) && CallFits(m, i, o, l)
  }

  ghost predicate Passes(m: Module) {
    && m.version == VERSION
    && (forall f :: 0 <= f < |m.funcs| ==> FuncFits(m, f))
    && |m.callOutputs| == |m.contexts|
    && (forall o :: 0 <= o < |m.callOutputs| ==> CallOutputFits(m, o))
    && forall i :: 0 <= i < |m.nodes| ==> NodeFits(m, i)
  }

  // --- the check ---------------------------------------------------------------------------------------

  /** `first` holds every symbol's first node. */
  ghost predicate FirstNodes(m: Module, first: seq<Option<nat>>) {
    && |first| == |m.symbols|
    && (forall s :: 0 <= s < |first| && first[s].Some? ==> first[s].value < |m.nodes|)
    && forall s: nat, i: nat :: s < |first| ==> (Met(m, s, i) <==> first[s].Some? && first[s].value < i)
  }

  method SymbolNodes(m: Module) returns (first: seq<Option<nat>>)
    ensures FirstNodes(m, first)
  {
    var slot: array<Option<nat>> := new [|m.symbols|](_ => None);
    for i := 0 to |m.nodes|
      invariant forall s :: 0 <= s < slot.Length && slot[s].Some? ==>
                    slot[s].value < i && m.nodes[slot[s].value] == Symbol(s)
      invariant forall s, j :: 0 <= s < slot.Length && 0 <= j < i && m.nodes[j] == Symbol(s) ==>
                    slot[s].Some? && slot[s].value <= j
    {
      match m.nodes[i] {
        case Symbol(s) =>
          if s < slot.Length && slot[s].None? { slot[s] := Some(i); }
        case _ =>
      }
    }
    first := slot[..];
  }

  ghost predicate AllMet(m: Module, n: nat, i: nat) { forall g :: 0 <= g < n && g < |m.funcs| ==> ParamsMet(m, g, i) }

  lemma NoneMet(m: Module, i: nat)
    ensures AllMet(m, 0, i)
  {
  }

  lemma ReadyNext(m: Module, f: nat, i: nat)
    requires f < |m.funcs|
    ensures AllMet(m, f + 1, i) <==> AllMet(m, f, i) && ParamsMet(m, f, i)
    ensures Ready(m, f, i) <==> AllMet(m, f + 1, i)
  {
    hide ParamsMet;
  }

  ghost predicate SomeMet(m: Module, f: nat, n: nat, i: nat)
    requires f < |m.funcs|
  { forall k :: 0 <= k < n && k < |m.funcs[f].params| ==> Met(m, m.funcs[f].params[k], i) }

  /** Past the first node of the parameter that comes last; nothing where one has no node. */
  method LatestParam(m: Module, f: nat, first: seq<Option<nat>>) returns (r: Option<nat>)
    requires f < |m.funcs| && FirstNodes(m, first)
    requires forall k :: 0 <= k < |m.funcs[f].params| ==> m.funcs[f].params[k] < |m.symbols|
    ensures r.None? <==> !ParamsMet(m, f, |m.nodes|)
    ensures r.Some? ==> r.value <= |m.nodes| && forall i: nat :: ParamsMet(m, f, i) <==> r.value <= i
  {
    hide Met;
    var params := m.funcs[f].params;
    var at: nat := 0;
    for k := 0 to |params|
      invariant at <= |m.nodes|
      invariant forall i: nat :: SomeMet(m, f, k, i) <==> at <= i
    {
      var p := first[params[k]];
      if p.None? {
        assert !Met(m, params[k], |m.nodes|);
        return None;
      }
      at := if at < p.value + 1 then p.value + 1 else at;
      forall i: nat {:trigger SomeMet(m, f, k + 1, i)} ensures SomeMet(m, f, k + 1, i) <==> at <= i {
        assert SomeMet(m, f, k + 1, i) <==> SomeMet(m, f, k, i) && Met(m, params[k], i);
      }
    }
    forall i: nat ensures ParamsMet(m, f, i) <==> at <= i { assert SomeMet(m, f, |params|, i) <==> at <= i; }
    return Some(at);
  }

  /** Per function, the first node at which it and those before it can be defined. */
  method CheckFunctions(m: Module) returns (ready: seq<nat>, bad: Option<ModuleError>)
    ensures bad.None? <==> forall f :: 0 <= f < |m.funcs| ==> FuncFits(m, f)
    ensures bad.Some? ==> bad.value.BadFunction?
    ensures bad.None? ==> |ready| == |m.funcs| && forall f: nat, i: nat :: f < |m.funcs| ==>
                (Ready(m, f, i) <==> ready[f] <= i)
  {
    hide Met, ParamsMet, AllMet, Ready;
    forall i: nat ensures AllMet(m, 0, i) { NoneMet(m, i); }
    var first := SymbolNodes(m);
    var at: nat := 0;
    ready := [];
    for f := 0 to |m.funcs|
      invariant |ready| == f
      invariant forall g :: 0 <= g < f ==> FuncFits(m, g)
      invariant forall i: nat :: AllMet(m, f, i) <==> at <= i
      invariant forall g: nat, i: nat :: g < f ==> (Ready(m, g, i) <==> ready[g] <= i)
    {
      if !RefersFit(m, f) {
        assert !FuncFits(m, f);
        return ready, Some(BadFunction(f));
      }
      var upTo := LatestParam(m, f, first);
      if upTo.None? {
        assert !FuncFits(m, f);
        return ready, Some(BadFunction(f));
      }
      at := if at < upTo.value then upTo.value else at;
      ghost var next := f + 1;
      forall i: nat ensures AllMet(m, next, i) <==> at <= i { ReadyNext(m, f, i); }
      forall i: nat ensures Ready(m, f, i) <==> at <= i { ReadyNext(m, f, i); }
      ready := ready + [at];
    }
    return ready, None;
  }

  /** The largest `n` from `from` on that `len` has room for the system of. */
  function Side(len: nat, from: nat): (n: nat)
    requires SystemLength(from) <= len
    ensures SystemLength(n) <= len < SystemLength(n + 1)
    decreases len - SystemLength(from)
  {
    if SystemLength(from + 1) <= len then Side(len, from + 1) else from
  }

  lemma SideIs(len: nat, n: nat)
    requires SystemLength(n) == len
    ensures Side(len, 0) == n
  {
    hide SystemLength;
    assert SystemLength(0) <= len by { Rising(0, n); }
    var side := Side(len, 0);
    if side < n { Rising(side + 1, n); }
    if n < side { Rising(n, side); }
  }

  lemma {:induction false} Rising(a: nat, b: nat)
    requires a <= b
    ensures SystemLength(a) <= SystemLength(b) && (a < b ==> SystemLength(a) < SystemLength(b))
    decreases b
  {
    if a < b {
      Rising(a, b - 1);
      assert SystemLength(b) == SystemLength(b - 1) + 2 * b;
    }
  }

  method CheckShape(shape: Shape, len: nat) returns (ok: bool)
    ensures ok <==> ShapeFits(shape, len)
  {
    match shape
    case Plain => return true;
    case Halves => return len % 2 == 0;
    case Square(k) =>
      var n := Side(len, 0);
      forall s: nat | SystemLength(s) == len ensures s == n { SideIs(len, s); }
      return n > 0 && SystemLength(n) == len && k < n;
  }

  method CheckCall(m: Module, ready: seq<nat>, i: nat, o: nat, l: Window) returns (bad: Option<ModuleError>)
    requires |m.callOutputs| == |m.contexts| && forall o :: 0 <= o < |m.callOutputs| ==> CallOutputFits(m, o)
    requires |ready| == |m.funcs| && forall f: nat, i: nat :: f < |m.funcs| ==> (Ready(m, f, i) <==> ready[f] <= i)
    ensures bad.None? <==> CallFits(m, i, o, l)
    ensures bad.Some? ==> bad.value in {Dangling(i), BadShape(i)}
  {
    hide Ready;
    if o >= |m.callOutputs| { return Some(Dangling(i)); }
    assert CallOutputFits(m, o);
    var (f, k) := m.callOutputs[o];
    if |m.funcs[f].params| != l.Length() + BoundCount(m.contexts[o]) { return Some(BadShape(i)); }
    if ready[f] > i { return Some(Dangling(i)); }
    var late := exists j :: 0 <= j <= k && !OutputBefore(m.funcs[f].outputs[j], i);
    return if late then Some(Dangling(i)) else None;
  }

  method CheckNode(m: Module, ready: seq<nat>, i: nat) returns (bad: Option<ModuleError>)
    requires i < |m.nodes|
    requires |m.callOutputs| == |m.contexts| && forall o :: 0 <= o < |m.callOutputs| ==> CallOutputFits(m, o)
    requires |ready| == |m.funcs| && forall f: nat, i: nat :: f < |m.funcs| ==> (Ready(m, f, i) <==> ready[f] <= i)
    ensures bad.None? <==> NodeFits(m, i)
    ensures bad.Some? ==> bad.value in {Dangling(i), BadShape(i)}
  {
    hide Ready, CallFits;
    match m.nodes[i]
    case Const(c) => return if c < |m.consts| then None else Some(Dangling(i));
    case Symbol(s) => return if s < |m.symbols| then None else Some(Dangling(i));
    case Inline(_, args) =>
      return if forall k :: 0 <= k < |args| ==> args[k] < i then None else Some(Dangling(i));
    case Listed(_, shape, l) =>
      if !ListBefore(m, l, i) { return Some(Dangling(i)); }
      var ok := CheckShape(shape, l.Length());
      return if ok then None else Some(BadShape(i));
    case Call(o, l) =>
      if !ListBefore(m, l, i) { return Some(Dangling(i)); }
      bad := CheckCall(m, ready, i, o, l);
  }

  /** Passes exactly the modules that fit, and names the first node that does not. */
  method Validate(m: Module) returns (bad: Option<ModuleError>)
    ensures bad.None? <==> Passes(m)
    ensures bad == Some(OtherVersion) <==> m.version != VERSION
    ensures forall i: nat :: bad in {Some(Dangling(i)), Some(BadShape(i))} ==>
                i < |m.nodes| && |m.callOutputs| == |m.contexts|
                && (forall o :: 0 <= o < |m.callOutputs| ==> CallOutputFits(m, o))
                && !NodeFits(m, i) && forall j :: 0 <= j < i ==> NodeFits(m, j)
  {
    hide Met, Ready, CallOutputFits, NodeFits, FuncFits;
    if m.version != VERSION { return Some(OtherVersion); }
    var ready;
    ready, bad := CheckFunctions(m);
    if bad.Some? { return; }
    if |m.contexts| != |m.callOutputs| { return Some(BadFunction(0)); }
    for o := 0 to |m.callOutputs|
      invariant forall p :: 0 <= p < o ==> CallOutputFits(m, p)
    {
      if !CallOutputFits(m, o) { return Some(BadFunction(m.callOutputs[o].0)); }
    }
    for i := 0 to |m.nodes|
      invariant forall j :: 0 <= j < i ==> NodeFits(m, j)
      invariant bad.None?
    {
      bad := CheckNode(m, ready, i);
      if bad.Some? { return; }
    }
  }
}
