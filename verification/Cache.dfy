/** What the emitter's register cache promises about the machine its code runs on,
    as predicates over a snapshot of the cache, the machine and the interpreter. */
module CacheInvariant {
  import opened Basics
  import opened OpStream
  import opened LivenessTables
  import opened Machines

  /** The emitter's fields, the machine after the code emitted so far, and the
      interpreter's slots after the ops emitted so far; `pend` are the slots of calls
      deferred to a stage's last, `kept` what memory held before the chunk in the slots no
      op from its first on writes. */
  datatype Snap<V> = Snap(
    held: seq<Option<Operand>>, dirty: seq<bool>, death: seq<nat>, at: map<Operand, nat>,
    pinned: seq<bool>, m: Mach<V>, env: seq<V>, pend: set<nat>, kept: map<nat, V>)

  /** `d` is no earlier than any read of the value slot `x` holds before op `lp`. */
  ghost predicate Covers(P: Program, x: nat, lp: nat, d: nat) {
    forall q: nat :: LiveRead(P, x, lp, q) ==> q <= d
  }

  /** `d` is no later than any write of slot `x` from op `lp` on. */
  ghost predicate NotPast(P: Program, x: nat, lp: nat, d: nat) {
    forall q: nat :: lp <= q && WriteAt(P, x, q) ==> d <= q
  }

  ghost predicate Unwritten(P: Program, x: nat, from: nat) {
    forall q: nat :: from <= q ==> !WriteAt(P, x, q)
  }

  /** A main phase reads the state slot `x` in memory, its value that before op `lp`. */
  ghost predicate HostRead(P: Program, x: nat, lp: nat, q: nat) {
    lp <= q < |P.ops| && ReadsState(P.ops[q], x) && NoWrite(P, x, lp, q)
  }

  ghost predicate HostLive(P: Program, x: nat, lp: nat) {
    exists q: nat :: HostRead(P, x, lp, q)
  }

  // --- the invariant ---------------------------------------------------------------

  ghost predicate Sizes<V>(w: World<V>, s: Snap<V>) {
    && |s.held| == |s.dirty| == |s.death| == |s.pinned| == w.isa.n
    && |s.env| == w.lay.slots
    && Shaped(w, s.m)
  }

  /** `at` and `held` are inverse. */
  ghost predicate Inverse<V>(w: World<V>, s: Snap<V>)
    requires Sizes(w, s)
  {
    && (forall o :: o in s.at ==> s.at[o] < w.isa.n && s.held[s.at[o]] == Some(o))
    && (forall i :: 0 <= i < w.isa.n && s.held[i].Some? ==> s.held[i].value in s.at && s.at[s.held[i].value] == i)
  }

  /** A held slot's register: its value where something still reads it, and where it
      would be written back; its death covers every read and no later write. */
  ghost predicate SlotReg<V>(P: Program, w: World<V>, s: Snap<V>, lp: nat, i: nat, x: nat)
    requires Sizes(w, s) && i < w.isa.n
  {
    && x < w.lay.slots
    && NotPast(P, x, lp, s.death[i])
    && (if x in s.pend then s.death[i] < lp else Covers(P, x, lp, s.death[i]))
    && (x !in s.pend && Live(P, x, lp) ==> s.m.regs[i] == s.env[x])
    && (s.dirty[i] && s.death[i] >= lp ==> s.m.regs[i] == s.env[x])
  }

  ghost predicate RegInv<V>(P: Program, w: World<V>, s: Snap<V>, lp: nat, i: nat)
    requires Sizes(w, s) && i < w.isa.n
  {
    match s.held[i]
    case None => !s.dirty[i]
    case Some(Input(k)) => !s.dirty[i] && k < |w.inputs| && s.m.regs[i] == w.inputs[k]
    case Some(Slot(x)) => SlotReg(P, w, s, lp, i, x)
  }

  ghost predicate Owed<V>(s: Snap<V>, x: nat) {
    Slot(x) in s.at && s.at[Slot(x)] < |s.dirty| && s.dirty[s.at[Slot(x)]]
  }

  /** A value something still reads is in memory, or in a dirty register. */
  ghost predicate MemInv<V>(P: Program, w: World<V>, s: Snap<V>, lp: nat, x: nat)
    requires Sizes(w, s) && x < w.lay.slots
  {
    && (x !in s.pend ==>
          && (Live(P, x, lp) ==> Owed(s, x) || s.m.work[x] == s.env[x])
          && (HostLive(P, x, lp) ==> s.m.work[x] == s.env[x]))
    && KeptAt(P, s, lp, x)
  }

  /** A slot no op writes is as memory had it before the chunk. */
  ghost predicate KeptAt<V>(P: Program, s: Snap<V>, lp: nat, x: nat)
    requires x < |s.m.work|
  {
    x in s.kept ==> Unwritten(P, x, lp) && x !in s.pend && !Owed(s, x) && s.m.work[x] == s.kept[x]
  }

  ghost predicate Inv<V>(P: Program, w: World<V>, s: Snap<V>, lp: nat) {
    && Sizes(w, s) && Inverse(w, s)
    && (forall i :: 0 <= i < w.isa.n ==> RegInv(P, w, s, lp, i))
    && (forall x :: 0 <= x < w.lay.slots ==> MemInv(P, w, s, lp, x))
  }

  // --- frames ------------------------------------------------------------------------

  /** What one op's steps leave alone: the interpreter, every pinned register, slots in
      memory that agree with the interpreter, the gather area, the result register. */
  ghost predicate Keeps<V>(w: World<V>, a: Snap<V>, b: Snap<V>)
    requires Sizes(w, a) && Sizes(w, b)
  {
    && b.env == a.env && b.pend == a.pend
    && (forall i :: 0 <= i < w.isa.n && a.pinned[i] ==>
          b.pinned[i] && b.held[i] == a.held[i] && b.m.regs[i] == a.m.regs[i])
    && KeepsMem(w, a, b)
    && b.m.regs[w.isa.n] == a.m.regs[w.isa.n]
  }

  /** `Keeps`, the pinned register `d` written. */
  ghost predicate KeepsBut<V>(w: World<V>, a: Snap<V>, b: Snap<V>, d: nat)
    requires Sizes(w, a) && Sizes(w, b)
  {
    && b.env == a.env && b.pend == a.pend
    && (forall i :: 0 <= i < w.isa.n && a.pinned[i] ==>
          b.pinned[i] && b.held[i] == a.held[i] && (i != d ==> b.m.regs[i] == a.m.regs[i]))
    && KeepsMem(w, a, b)
    && b.m.regs[w.isa.n] == a.m.regs[w.isa.n]
  }

  ghost predicate KeepsMem<V>(w: World<V>, a: Snap<V>, b: Snap<V>)
    requires Sizes(w, a) && Sizes(w, b)
  {
    && (forall x :: 0 <= x < w.lay.slots && a.m.work[x] == a.env[x] ==> b.m.work[x] == b.env[x])
    && (forall x :: 0 <= x < w.lay.slots && x in a.pend ==> x in b.pend && b.m.work[x] == a.m.work[x])
    && (forall k :: w.lay.slots <= k < w.lay.Scratch() ==> b.m.work[k] == a.m.work[k])
  }

  lemma KeepsMemSame<V>(w: World<V>, a: Snap<V>, b: Snap<V>)
    requires Sizes(w, a) && Sizes(w, b) && b.env == a.env && b.pend == a.pend && b.m.work == a.m.work
    ensures KeepsMem(w, a, b)
  {
  }

  lemma KeepsMemSelf<V>(w: World<V>, a: Snap<V>)
    requires Sizes(w, a)
    ensures KeepsMem(w, a, a)
  {
  }

  lemma KeepsMemTwice<V>(w: World<V>, a: Snap<V>, b: Snap<V>, c: Snap<V>)
    requires Sizes(w, a) && Sizes(w, b) && Sizes(w, c) && KeepsMem(w, a, b) && (c == b || KeepsMem(w, b, c))
    ensures KeepsMem(w, a, c)
  {
  }

  lemma KeepsTwice<V>(w: World<V>, a: Snap<V>, b: Snap<V>, c: Snap<V>)
    requires Sizes(w, a) && Sizes(w, b) && Sizes(w, c) && Keeps(w, a, b) && Keeps(w, b, c)
    ensures Keeps(w, a, c)
  {
  }

  /** A register written that was free before is no pinned one's loss. */
  lemma KeepsFree<V>(w: World<V>, a: Snap<V>, b: Snap<V>, c: Snap<V>, d: nat)
    requires Sizes(w, a) && Sizes(w, b) && Sizes(w, c) && Keeps(w, a, b) && KeepsBut(w, b, c, d)
    requires d < w.isa.n && !a.pinned[d]
    ensures Keeps(w, a, c)
  {
  }

  lemma KeepsThenBut<V>(w: World<V>, a: Snap<V>, b: Snap<V>, c: Snap<V>, d: nat)
    requires Sizes(w, a) && Sizes(w, b) && Sizes(w, c) && Keeps(w, a, b) && KeepsBut(w, b, c, d)
    ensures KeepsBut(w, a, c, d)
  {
  }

  // --- pins ----------------------------------------------------------------------------

  function Pins(p: seq<bool>): nat {
    if p == [] then 0 else Pins(p[..|p| - 1]) + (if p[|p| - 1] then 1 else 0)
  }

  lemma {:induction false} PinOne(p: seq<bool>, i: nat)
    requires i < |p|
    ensures Pins(p[i := true]) == Pins(p) + (if p[i] then 0 else 1)
  {
    var n := |p| - 1;
    if i == n {
      assert p[i := true][..n] == p[..n];
    } else {
      PinOne(p[..n], i);
      assert p[i := true][..n] == p[..n][i := true];
    }
  }

  lemma {:induction false} NonePinned(p: seq<bool>)
    requires forall i :: 0 <= i < |p| ==> !p[i]
    ensures Pins(p) == 0
  {
    if p != [] { NonePinned(p[..|p| - 1]); }
  }

  lemma {:induction false} AllPinned(p: seq<bool>)
    requires forall i :: 0 <= i < |p| ==> p[i]
    ensures Pins(p) == |p|
  {
    if p != [] { AllPinned(p[..|p| - 1]); }
  }

  // --- liveness facts ------------------------------------------------------------------

  lemma LiveNow(P: Program, x: nat, lp: nat)
    requires lp < |P.ops| && Slot(x) in Operands(P.ops[lp])
    ensures Live(P, x, lp)
  {
    assert LiveRead(P, x, lp, lp);
  }

  lemma HostBack(P: Program, x: nat, lp: nat)
    requires HostLive(P, x, lp + 1) && !WriteAt(P, x, lp)
    ensures HostLive(P, x, lp)
  {
    var q: nat :| HostRead(P, x, lp + 1, q);
    assert HostRead(P, x, lp, q);
  }

  /** What a death means for the value a register takes. */
  lemma DeathBounds(live: Liveness, P: Program, n: nat, x: nat, pos: nat, def: bool)
    requires live.Exact(P, n) && x < n && |P.ops| < END
    ensures var d := live.Death(n, x, pos, def); var lo := if def then pos + 1 else pos;
            Covers(P, x, lo, d) && NotPast(P, x, lo, d)
  {
    DeathExact(live, P, n, x, pos, def);
    var d := live.Death(n, x, pos, def);
    var lo := if def then pos + 1 else pos;
    forall q: nat | LiveRead(P, x, lo, q) ensures q <= d { assert Live(P, x, lo); }
    if Live(P, x, lo) { assert LiveRead(P, x, lo, d); }
  }

  // --- what the invariant says of one register, operand or slot ----------------------------

  lemma RegOf<V>(P: Program, w: World<V>, s: Snap<V>, lp: nat, i: nat)
    requires Sizes(w, s) && Inv(P, w, s, lp) && i < w.isa.n
    ensures RegInv(P, w, s, lp, i)
    ensures s.held[i].Some? ==> s.held[i].value in s.at && s.at[s.held[i].value] == i
  {
  }

  /** A dirty register holds a slot. */
  lemma DirtyOf<V>(P: Program, w: World<V>, s: Snap<V>, lp: nat, i: nat)
    requires Sizes(w, s) && Inv(P, w, s, lp) && i < w.isa.n && s.held[i].Some? && s.dirty[i]
    ensures s.held[i].value.Slot? && s.held[i].value.s < w.lay.slots
  {
    assert RegInv(P, w, s, lp, i);
  }

  lemma AtOf<V>(P: Program, w: World<V>, s: Snap<V>, lp: nat, o: Operand)
    requires Sizes(w, s) && Inv(P, w, s, lp) && o in s.at
    ensures s.at[o] < w.isa.n && s.held[s.at[o]] == Some(o) && RegInv(P, w, s, lp, s.at[o])
  {
  }

  lemma MemOf<V>(P: Program, w: World<V>, s: Snap<V>, lp: nat, x: nat)
    requires Sizes(w, s) && Inv(P, w, s, lp) && x < w.lay.slots && x !in s.pend
    requires Live(P, x, lp) && Slot(x) !in s.at
    ensures s.m.work[x] == s.env[x]
  {
    assert MemInv(P, w, s, lp, x);
  }

  lemma HeldOf<V>(P: Program, w: World<V>, s: Snap<V>, lp: nat, o: Operand)
    requires Sizes(w, s) && Inv(P, w, s, lp) && o in s.at
    requires o.Slot? ==> o.s !in s.pend && Live(P, o.s, lp)
    ensures s.at[o] < w.isa.n && s.held[s.at[o]] == Some(o)
    ensures OperandOk(o, w.lay.slots, |w.inputs|) && s.m.regs[s.at[o]] == Val(s.env, w.inputs, o)
  {
    assert RegInv(P, w, s, lp, s.at[o]);
  }

  // --- transitions -----------------------------------------------------------------------

  /** Dropping a register keeps the invariant: a store is owed only where the register
      still has the interpreter's value, and nothing owed is lost. */
  lemma DropKeeps<V>(P: Program, w: World<V>, a: Snap<V>, b: Snap<V>, lp: nat, i: nat)
    requires Inv(P, w, a, lp) && i < w.isa.n && a.held[i].Some?
    requires b.held == a.held[i := None] && b.dirty == a.dirty[i := false] && b.death == a.death
    requires b.at == map p | p in a.at && p != a.held[i].value :: a.at[p]
    requires b.env == a.env && b.pend == a.pend && b.kept == a.kept && b.pinned == a.pinned && Shaped(w, b.m)
    requires b.m.regs == a.m.regs
    requires if a.dirty[i] && a.death[i] >= lp
             then a.held[i].value.Slot? && a.held[i].value.s < |a.m.work|
                 && b.m.work == a.m.work[a.held[i].value.s := a.m.regs[i]]
             else b.m.work == a.m.work
    ensures Inv(P, w, b, lp) && KeepsMem(w, a, b)
  {
    var o := a.held[i].value;
    assert RegInv(P, w, a, lp, i);
    assert a.at[o] == i;
    forall j | 0 <= j < w.isa.n ensures RegInv(P, w, b, lp, j) {
      assert RegInv(P, w, a, lp, j);
    }
    forall x | 0 <= x < w.lay.slots ensures MemInv(P, w, b, lp, x) {
      assert MemInv(P, w, a, lp, x);
      if Slot(x) == o && x !in a.pend && Live(P, x, lp) {
        var q: nat :| LiveRead(P, x, lp, q);
        assert q <= a.death[i];
      }
    }
  }

  /** `o` held by register `r`, and by no other. */
  function Bound<V>(s: Snap<V>, r: nat, o: Operand, d: nat): Snap<V>
    requires |s.held| == |s.dirty| == |s.death| && r < |s.held|
    requires o in s.at ==> s.at[o] < |s.held|
  {
    var s1 := if o in s.at
              then s.(held := s.held[s.at[o] := None], dirty := s.dirty[s.at[o] := false], at := s.at - {o})
              else s;
    s1.(held := s1.held[r := Some(o)], death := s1.death[r := d], at := s1.at[o := r])
  }

  /** A value loaded: the register holds what the interpreter's slot, or the input, does. */
  lemma LoadKeeps<V>(P: Program, w: World<V>, a: Snap<V>, lp: nat, r: nat, o: Operand, d: nat)
    requires Sizes(w, a) && Inv(P, w, a, lp) && r < w.isa.n && a.held[r].None? && o !in a.at
    requires OperandOk(o, w.lay.slots, |w.inputs|) && a.m.regs[r] == Val(a.env, w.inputs, o)
    requires o.Slot? ==> Covers(P, o.s, lp, d) && NotPast(P, o.s, lp, d)
    requires o.Slot? ==> o.s !in a.pend && Live(P, o.s, lp)
    ensures Inv(P, w, Bound(a, r, o, d), lp)
  {
    var b := Bound(a, r, o, d);
    assert RegInv(P, w, a, lp, r);
    forall j | 0 <= j < w.isa.n ensures RegInv(P, w, b, lp, j) {
      assert RegInv(P, w, a, lp, j);
    }
    forall x | 0 <= x < w.lay.slots ensures MemInv(P, w, b, lp, x) {
      assert MemInv(P, w, a, lp, x);
    }
  }

  ghost predicate WritesOnly(P: Program, lp: nat, x: nat) {
    lp < |P.ops| && forall y: nat :: WriteAt(P, y, lp) <==> y == x
  }

  /** The snapshot once the result in register `r` is slot `x`'s value. */
  function PutSnap<V>(a: Snap<V>, r: nat, x: nat, d: nat): Snap<V>
    requires |a.held| == |a.dirty| == |a.death| && r < |a.held| && r < |a.m.regs| && x < |a.env|
    requires Slot(x) in a.at ==> a.at[Slot(x)] < |a.held|
  {
    var b := Bound(a, r, Slot(x), d);
    b.(dirty := b.dirty[r := true], env := a.env[x := a.m.regs[r]])
  }

  ghost predicate PutOk<V>(P: Program, w: World<V>, a: Snap<V>, lp: nat, r: nat, x: nat, d: nat) {
    && Sizes(w, a) && Inv(P, w, a, lp) && r < w.isa.n && a.held[r].None?
    && x < w.lay.slots && x !in a.pend && WritesOnly(P, lp, x) && !HostLive(P, x, lp + 1)
    && Covers(P, x, lp + 1, d) && NotPast(P, x, lp + 1, d)
  }

  lemma PutReg<V>(P: Program, w: World<V>, a: Snap<V>, lp: nat, r: nat, x: nat, d: nat, j: nat)
    requires PutOk(P, w, a, lp, r, x, d) && j < w.isa.n
    ensures RegInv(P, w, PutSnap(a, r, x, d), lp + 1, j)
  {
    var b := PutSnap(a, r, x, d);
    assert RegInv(P, w, a, lp, j);
    if j != r && b.held[j].Some? && b.held[j].value.Slot? {
      assert b.held[j] == a.held[j];
      SlotRegLater(P, w, a, b, lp, j, b.held[j].value.s);
    }
  }

  lemma PutMem<V>(P: Program, w: World<V>, a: Snap<V>, lp: nat, r: nat, x: nat, d: nat, y: nat)
    requires PutOk(P, w, a, lp, r, x, d) && y < w.lay.slots
    ensures MemInv(P, w, PutSnap(a, r, x, d), lp + 1, y)
  {
    assert MemInv(P, w, a, lp, y);
    if y != x && y !in a.pend { LiveLater(P, y, lp); }
    if y in a.kept {
      assert WriteAt(P, x, lp) && !WriteAt(P, y, lp);
      if Slot(y) in a.at { assert a.held[a.at[Slot(y)]] == Some(Slot(y)); }
    }
  }

  lemma PutInverse<V>(P: Program, w: World<V>, a: Snap<V>, lp: nat, r: nat, x: nat, d: nat)
    requires PutOk(P, w, a, lp, r, x, d)
    ensures Sizes(w, PutSnap(a, r, x, d)) && Inverse(w, PutSnap(a, r, x, d))
  {
    hide RegInv, SlotReg, MemInv, Covers, NotPast, HostLive, WritesOnly;
  }

  /** A result put in its register: the op is done. */
  lemma PutKeeps<V>(P: Program, w: World<V>, a: Snap<V>, lp: nat, r: nat, x: nat, d: nat)
    requires PutOk(P, w, a, lp, r, x, d)
    ensures Inv(P, w, PutSnap(a, r, x, d), lp + 1)
  {
    hide RegInv, MemInv, Bound, Covers, NotPast, HostLive, WritesOnly;
    var b, next := PutSnap(a, r, x, d), lp + 1;
    PutInverse(P, w, a, lp, r, x, d);
    forall j | 0 <= j < w.isa.n ensures RegInv(P, w, b, next, j) { PutReg(P, w, a, lp, r, x, d, j); }
    forall y | 0 <= y < w.lay.slots ensures MemInv(P, w, b, next, y) { PutMem(P, w, a, lp, r, x, d, y); }
  }

  /** What is read after an op that does not write the slot is read before it. */
  lemma LiveLater(P: Program, x: nat, lp: nat)
    requires !WriteAt(P, x, lp)
    ensures Live(P, x, lp + 1) ==> Live(P, x, lp)
    ensures HostLive(P, x, lp + 1) ==> HostLive(P, x, lp)
  {
    if Live(P, x, lp + 1) {
      var q: nat :| LiveRead(P, x, lp + 1, q);
      assert LiveRead(P, x, lp, q);
    }
    if HostLive(P, x, lp + 1) { HostBack(P, x, lp); }
  }

  lemma SlotRegLater<V>(P: Program, w: World<V>, a: Snap<V>, b: Snap<V>, lp: nat, i: nat, x: nat)
    requires Sizes(w, a) && Sizes(w, b) && i < w.isa.n && SlotReg(P, w, a, lp, i, x)
    requires !WriteAt(P, x, lp) && b.env[x] == a.env[x] && b.pend == a.pend
    requires b.m.regs[i] == a.m.regs[i] && b.dirty[i] == a.dirty[i] && b.death[i] == a.death[i]
    ensures SlotReg(P, w, b, lp + 1, i, x)
  {
    LiveLater(P, x, lp);
    var next := lp + 1;
    if x !in a.pend {
      forall q: nat | LiveRead(P, x, next, q) ensures q <= a.death[i] {
        assert LiveRead(P, x, lp, q);
      }
    }
  }

  lemma InvPins<V>(P: Program, w: World<V>, a: Snap<V>, b: Snap<V>, lp: nat)
    requires Sizes(w, a) && Sizes(w, b) && Inv(P, w, a, lp) && b == a.(pinned := b.pinned)
    ensures Inv(P, w, b, lp)
  {
    forall j | 0 <= j < w.isa.n ensures RegInv(P, w, b, lp, j) { assert RegInv(P, w, a, lp, j); }
    forall x | 0 <= x < w.lay.slots ensures MemInv(P, w, b, lp, x) { assert MemInv(P, w, a, lp, x); }
  }

  /** Writing registers that hold nothing keeps the invariant. */
  lemma InvRegs<V>(P: Program, w: World<V>, a: Snap<V>, b: Snap<V>, lp: nat)
    requires Sizes(w, a) && Sizes(w, b) && Inv(P, w, a, lp) && b == a.(m := b.m) && b.m.work == a.m.work
    requires forall i :: 0 <= i < w.isa.n && a.held[i].Some? ==> b.m.regs[i] == a.m.regs[i]
    ensures Inv(P, w, b, lp)
  {
    forall j | 0 <= j < w.isa.n ensures RegInv(P, w, b, lp, j) { assert RegInv(P, w, a, lp, j); }
    forall x | 0 <= x < w.lay.slots ensures MemInv(P, w, b, lp, x) { assert MemInv(P, w, a, lp, x); }
  }

  /** A host call that writes no slot keeps what the saved registers hold. */
  lemma InvClobbered<V>(P: Program, w: World<V>, a: Snap<V>, b: Snap<V>, lp: nat)
    requires Sizes(w, a) && Sizes(w, b) && Inv(P, w, a, lp) && b == a.(m := b.m)
    requires forall i :: 0 <= i < w.isa.n && a.held[i].Some? ==> b.m.regs[i] == a.m.regs[i]
    requires forall x :: 0 <= x < w.lay.slots ==> b.m.work[x] == a.m.work[x]
    ensures Inv(P, w, b, lp)
  {
    forall j | 0 <= j < w.isa.n ensures RegInv(P, w, b, lp, j) { assert RegInv(P, w, a, lp, j); }
    forall x | 0 <= x < w.lay.slots ensures MemInv(P, w, b, lp, x) { assert MemInv(P, w, a, lp, x); }
  }

  /** What a host call that writes the slots `W` leaves of the cache and the machine. */
  ghost predicate HostWrote<V>(w: World<V>, a: Snap<V>, b: Snap<V>, W: iset<nat>)
    requires Sizes(w, a) && Sizes(w, b)
  {
    && b.pend == {} && b.death == a.death && b.kept == a.kept && Inverse(w, b)
    && (forall x :: 0 <= x < w.lay.slots ==>
          if x in W then b.m.work[x] == b.env[x] else b.m.work[x] == a.m.work[x] && b.env[x] == a.env[x])
    && (forall i :: 0 <= i < w.isa.n ==>
          if b.held[i].None? then !b.dirty[i] && (a.held[i].Some? ==> a.held[i].value.Slot? && a.held[i].value.s in W)
          else b.held[i] == a.held[i] && b.dirty[i] == a.dirty[i] && b.m.regs[i] == a.m.regs[i])
  }

  ghost predicate WroteOk<V>(P: Program, w: World<V>, a: Snap<V>, b: Snap<V>, lp: nat, W: iset<nat>) {
    && Sizes(w, a) && Sizes(w, b) && Inv(P, w, a, lp) && HostWrote(w, a, b, W)
    && (forall x: nat :: x in W <==> x in a.pend || WriteAt(P, x, lp))
    && (forall i :: 0 <= i < w.isa.n && b.held[i].Some? && b.held[i].value.Slot? && b.held[i].value.s in W ==>
          !Live(P, b.held[i].value.s, lp + 1))
  }

  lemma WroteReg<V>(P: Program, w: World<V>, a: Snap<V>, b: Snap<V>, lp: nat, W: iset<nat>, i: nat)
    requires WroteOk(P, w, a, b, lp, W) && i < w.isa.n
    ensures RegInv(P, w, b, lp + 1, i)
  {
    hide Inverse, MemInv;
    assert RegInv(P, w, a, lp, i);
    if b.held[i].Some? && b.held[i].value.Slot? {
      var x := b.held[i].value.s;
      assert SlotReg(P, w, a, lp, i, x);
      if x in W {
        NotLiveCovers(P, x, lp + 1, b.death[i]);
        assert b.death[i] <= lp;
      } else {
        SlotRegLater(P, w, a, b.(pend := a.pend), lp, i, x);
      }
    }
  }

  lemma NotLiveCovers(P: Program, x: nat, lp: nat, d: nat)
    requires !Live(P, x, lp)
    ensures Covers(P, x, lp, d)
  {
  }

  lemma WroteMem<V>(P: Program, w: World<V>, a: Snap<V>, b: Snap<V>, lp: nat, W: iset<nat>, x: nat)
    requires WroteOk(P, w, a, b, lp, W) && x < w.lay.slots
    ensures MemInv(P, w, b, lp + 1, x)
  {
    hide RegInv, SlotReg, Live, HostLive;
    assert MemInv(P, w, a, lp, x);
    if x !in W {
      LiveLater(P, x, lp);
      if Owed(a, x) { assert a.held[a.at[Slot(x)]] == Some(Slot(x)); }
    }
  }

  /** After a host call the op is done: what it wrote is in memory. */
  lemma WroteKeeps<V>(P: Program, w: World<V>, a: Snap<V>, b: Snap<V>, lp: nat, W: iset<nat>)
    requires WroteOk(P, w, a, b, lp, W)
    ensures Inv(P, w, b, lp + 1)
  {
    hide RegInv, MemInv, WroteOk, Live, HostLive;
    assert Sizes(w, b) && Inverse(w, b) by { WroteShape(P, w, a, b, lp, W); }
    var next := lp + 1;
    forall i | 0 <= i < w.isa.n ensures RegInv(P, w, b, next, i) { WroteReg(P, w, a, b, lp, W, i); }
    forall x | 0 <= x < w.lay.slots ensures MemInv(P, w, b, next, x) { WroteMem(P, w, a, b, lp, W, x); }
  }

  lemma WroteShape<V>(P: Program, w: World<V>, a: Snap<V>, b: Snap<V>, lp: nat, W: iset<nat>)
    requires WroteOk(P, w, a, b, lp, W)
    ensures Sizes(w, b) && Inverse(w, b)
  {
    hide RegInv, MemInv, Live, Inv;
  }

  /** A call deferred to its stage's last: its block waits. */
  lemma DeferKeeps<V>(P: Program, w: World<V>, a: Snap<V>, b: Snap<V>, lp: nat, W: set<nat>)
    requires Sizes(w, a) && Sizes(w, b) && Inv(P, w, a, lp)
    requires b == a.(env := b.env, pend := a.pend + W)
    requires forall x: nat :: x in W <==> WriteAt(P, x, lp)
    requires forall x :: 0 <= x < w.lay.slots && x !in W ==> b.env[x] == a.env[x]
    ensures Inv(P, w, b, lp + 1)
  {
    var next := lp + 1;
    forall i | 0 <= i < w.isa.n ensures RegInv(P, w, b, next, i) {
      assert RegInv(P, w, a, lp, i);
      if b.held[i].Some? && b.held[i].value.Slot? { DeferReg(P, w, a, b, lp, W, i, b.held[i].value.s); }
    }
    forall x | 0 <= x < w.lay.slots ensures MemInv(P, w, b, next, x) {
      assert MemInv(P, w, a, lp, x);
      if x !in b.pend { LiveLater(P, x, lp); }
    }
  }

  lemma DeferReg<V>(P: Program, w: World<V>, a: Snap<V>, b: Snap<V>, lp: nat, W: set<nat>, i: nat, x: nat)
    requires Sizes(w, a) && Sizes(w, b) && i < w.isa.n && SlotReg(P, w, a, lp, i, x)
    requires b == a.(env := b.env, pend := a.pend + W)
    requires forall x: nat :: x in W <==> WriteAt(P, x, lp)
    requires forall x :: 0 <= x < w.lay.slots && x !in W ==> b.env[x] == a.env[x]
    ensures SlotReg(P, w, b, lp + 1, i, x)
  {
    if x in W {
      assert a.death[i] <= lp;
    } else {
      SlotRegLater(P, w, a, b.(pend := a.pend), lp, i, x);
    }
  }

  lemma KeepsMemAt<V>(w: World<V>, a: Snap<V>, b: Snap<V>, x: nat)
    requires Sizes(w, a) && Sizes(w, b) && KeepsMem(w, a, b) && x < w.lay.slots && a.m.work[x] == a.env[x]
    ensures b.m.work[x] == b.env[x]
  {
  }

  /** A value held clean and still read is in memory. */
  lemma CleanOf<V>(P: Program, w: World<V>, s: Snap<V>, lp: nat, x: nat)
    requires Sizes(w, s) && Inv(P, w, s, lp) && x < w.lay.slots && x !in s.pend && Live(P, x, lp)
    requires Slot(x) in s.at && s.at[Slot(x)] < w.isa.n && !s.dirty[s.at[Slot(x)]]
    ensures s.m.work[x] == s.env[x]
  {
    assert MemInv(P, w, s, lp, x);
  }

  /** A register's value stored, and kept clean. */
  lemma PublishKeeps<V>(P: Program, w: World<V>, a: Snap<V>, b: Snap<V>, lp: nat, i: nat)
    requires Sizes(w, a) && Sizes(w, b) && Inv(P, w, a, lp) && i < w.isa.n && a.held[i].Some? && a.held[i].value.Slot?
    requires a.dirty[i]
    requires var x := a.held[i].value.s;
             && x < w.lay.slots && x !in a.pend && a.m.regs[i] == a.env[x]
             && b.m.regs == a.m.regs && b.m.work == a.m.work[x := a.m.regs[i]]
    requires b == a.(m := b.m, dirty := a.dirty[i := false])
    ensures Inv(P, w, b, lp) && KeepsMem(w, a, b) && b.m.work[a.held[i].value.s] == b.env[a.held[i].value.s]
  {
    forall j | 0 <= j < w.isa.n ensures RegInv(P, w, b, lp, j) { assert RegInv(P, w, a, lp, j); }
    forall y | 0 <= y < w.lay.slots ensures MemInv(P, w, b, lp, y) {
      assert MemInv(P, w, a, lp, y);
      if y != a.held[i].value.s && Owed(a, y) { assert a.held[a.at[Slot(y)]] == Some(Slot(y)); }
    }
  }

  lemma StateOf<V>(P: Program, w: World<V>, s: Snap<V>, lp: nat, x: nat)
    requires Sizes(w, s) && Inv(P, w, s, lp) && x < w.lay.slots && x !in s.pend && HostLive(P, x, lp)
    ensures s.m.work[x] == s.env[x]
  {
    assert MemInv(P, w, s, lp, x);
  }

  lemma InverseOf<V>(P: Program, w: World<V>, s: Snap<V>, lp: nat)
    requires Inv(P, w, s, lp)
    ensures Sizes(w, s) && Inverse(w, s)
  {
  }

  lemma InverseSame<V>(w: World<V>, a: Snap<V>, b: Snap<V>)
    requires Sizes(w, a) && Sizes(w, b) && Inverse(w, a) && b.held == a.held && b.at == a.at
    ensures Inverse(w, b)
  {
  }

  /** With nothing held, what is still read is in memory. */
  lemma Flushed<V>(P: Program, w: World<V>, s: Snap<V>, lp: nat, x: nat)
    requires Sizes(w, s) && Inv(P, w, s, lp) && x < w.lay.slots && s.pend == {}
             && (Live(P, x, lp) || HostLive(P, x, lp))
    requires forall i :: 0 <= i < w.isa.n ==> s.held[i].None?
    ensures s.m.work[x] == s.env[x]
  {
    hide Live, HostLive, RegInv;
    assert MemInv(P, w, s, lp, x);
  }

  lemma KeptOf<V>(P: Program, w: World<V>, s: Snap<V>, lp: nat, x: nat)
    requires Sizes(w, s) && Inv(P, w, s, lp) && x < w.lay.slots && x in s.kept
    ensures s.m.work[x] == s.kept[x]
  {
    assert MemInv(P, w, s, lp, x);
  }
}
