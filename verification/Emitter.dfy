/** Emission of native code for one chunk of a tape. Every method keeps a simulation: what the
    emitted instructions make of memory and registers, against the op-by-op interpreter. Stores
    are left out only where no later op reads the slot. */
module Emission {
  import opened Basics
  import opened Scalars
  import opened OpStream
  import opened LivenessTables
  import opened Machines
  import opened CacheInvariant
  import opened Stages

  /** Registers an op may pin at once and still find a free one. */
  const PIN_ROOM: nat := 11

  /** The least operand count at which a call passes a table instead of gathered values. */
  const GATHER_TABLE: nat := 64

  /** The most terms of an extremum that is emitted inline. */
  const INLINE_MINMAX_MAX: nat := 16

  /** The largest exponent, in absolute value, of a power emitted inline. */
  const POWI_INLINE: nat := 64

  class Emitter<V> {
    const isa: Isa
    const lay: Layout
    /** When each value dies. */
    const live: Liveness
    /** Where in the stream emission stands, and the position of the nearest host call ahead of
        it. */
    var pos: nat
    var nextCall: nat
    /** What each register of the cache holds, if anything. */
    var held: seq<Option<Operand>>
    /** Which registers owe memory a store. */
    var dirty: seq<bool>
    /** Per register, the position past which nothing needs what it holds. */
    var death: seq<nat>
    /** Cache register holding each operand. */
    var at: map<Operand, nat>
    /** Which registers may not be taken until the op is done. */
    var pinned: seq<bool>
    var code: seq<Instr>
    var descs: seq<CallDesc>

    ghost const P: Program
    ghost const w: World<V>
    /** The machine before the chunk, after the code so far, and the interpreter. */
    ghost const m0: Mach<V>
    /** What that memory has in the slots no op from the chunk's first on writes. */
    ghost const kept: map<nat, V>
    ghost var m: Mach<V>
    ghost var env: seq<V>
    ghost var pend: set<nat>
    /** The calls deferred to their stage's last, and the interpreter before the first. */
    ghost var wait: seq<CallDesc>
    ghost var base: seq<V>

    /** An emitter of chunk `start` of the program, its cache empty. */
    constructor (isa: Isa, lay: Layout, live: Liveness, start: nat, ghost P: Program, ghost w: World<V>,
                 ghost m0: Mach<V>, ghost env0: seq<V>)
      requires w.isa == isa && w.lay == lay && isa.Ok() && isa.n >= PIN_ROOM
      requires live.Exact(P, lay.slots) && |P.ops| < END
      requires Shaped(w, m0) && |env0| == lay.slots
      requires forall k :: 0 <= k < |P.ops| ==> OpOk(P.ops[k], lay, |w.inputs|)
      requires forall x :: 0 <= x < lay.slots && (Live(P, x, start) || HostLive(P, x, start)) ==> m0.work[x] == env0[x]
      ensures Valid(start) && pos == start && code == [] && descs == [] && m == m0 && env == env0 && pend == {}
              && wait == [] && base == env0
      ensures this.isa == isa && this.lay == lay && this.live == live
      ensures this.P == P && this.w == w && this.m0 == m0
      ensures forall x :: 0 <= x < lay.slots && Unwritten(P, x, start) ==> x in kept && kept[x] == m0.work[x]
      ensures forall i :: 0 <= i < isa.n ==> !pinned[i]
    {
      this.isa, this.lay, this.live := isa, lay, live;
      this.P, this.w, this.m0 := P, w, m0;
      pos, nextCall := start, END;
      held, dirty := seq(isa.n, _ => None), seq(isa.n, _ => false);
      death, pinned := seq(isa.n, _ => 0), seq(isa.n, _ => false);
      at, code, descs := map[], [], [];
      kept := map x | 0 <= x < lay.slots && Unwritten(P, x, start) :: m0.work[x];
      m, env, pend := m0, env0, {};
      wait, base := [], env0;
    }

    ghost function Now(): Snap<V>
      reads this
    { Snap(held, dirty, death, at, pinned, m, env, pend, kept) }

    /** What does not change while a chunk is emitted. */
    ghost predicate Config() {
      w.isa == isa && w.lay == lay && isa.Ok() && isa.n >= PIN_ROOM && |P.ops| < END
    }

    ghost predicate Tables() {
      && live.Exact(P, lay.slots) && Shaped(w, m0)
      && forall k :: 0 <= k < |P.ops| ==> OpOk(P.ops[k], lay, |w.inputs|)
    }

    /** The machine is what the code so far makes of the one before the chunk. */
    ghost predicate Ran()
      reads this`code, this`m
    {
      && Config() && Tables() && Shaped(w, m)
      && CodeOk(isa, lay, |w.inputs|, code)
      && m == Run(w, code, m0)
    }

    ghost predicate Valid(lp: nat)
      reads this
    {
      Config() && Sizes(w, Now()) && Ran() && Inv(P, w, Now(), lp)
    }

    // --- instructions ------------------------------------------------------------

    method Emit(i: Instr)
      requires Config() && Shaped(w, m) && Ran() && InstrOk(isa, lay, |w.inputs|, i)
      modifies this`code, this`m
      ensures Ran() && code == old(code) + [i] && m == Step(w, i, old(m)) && Shaped(w, m)
    {
      RunAppend(w, code, i, m0);
      code := code + [i];
      m := Step(w, i, m);
    }

    // --- the cache ---------------------------------------------------------------

    /** The store register `i`'s value is owed, if any: memory does not have it and some op
        from the current one on reads it. */
    method WriteBack(i: nat)
      requires Valid(pos) && i < isa.n && held[i].Some?
      modifies this`code, this`m
      ensures Ran() && Shaped(w, m) && m.regs == old(m.regs)
      ensures if dirty[i] && death[i] >= pos
              then held[i].value.Slot? && held[i].value.s < |m.work|
                  && m.work == old(m.work)[held[i].value.s := m.regs[i]]
              else m.work == old(m.work)
    {
      hide Ran, Inv, Run, Tables, RegInv, SlotReg, MemInv, Inverse;
      if dirty[i] && death[i] >= pos {
        DirtyOf(P, w, Now(), pos, i);
        Emit(Store(i, held[i].value.s));
      }
    }

    /** Register `i` emptied; where `WriteBack` owes its value a store, the store is emitted
        first. */
    method DropIndex(i: nat)
      requires Config() && Sizes(w, Now()) && i < isa.n
      requires held[i].Some? ==> Valid(pos)
      modifies this`held, this`dirty, this`at, this`code, this`m
      ensures Sizes(w, Now()) && held[i].None?
      ensures old(held[i]).Some? ==> Valid(pos) && DropFrame(old(Now()), Now(), i)
      ensures old(held[i]).None? ==> Now() == old(Now()) && code == old(code)
    {
      hide Ran, Inv, Run, Tables, RegInv, SlotReg, MemInv, Inverse, KeepsMem, Step, InstrOk;
      if held[i].Some? {
        var o := held[i].value;
        ghost var s0 := Now();
        WriteBack(i);
        held, dirty, at := held[i := None], dirty[i := false], map p | p in at && p != o :: at[p];
        DropKeeps(P, w, s0, Now(), pos, i);
      }
    }

    /** Dropping a register changes that register's entries alone, and no register. */
    ghost predicate DropFrame(a: Snap<V>, b: Snap<V>, i: nat)
      requires Config() && Sizes(w, a) && Sizes(w, b) && i < isa.n
    {
      && (forall j :: 0 <= j < isa.n && j != i ==> b.held[j] == a.held[j] && b.dirty[j] == a.dirty[j])
      && (forall o :: o in b.at ==> o in a.at && a.held[i] != Some(o))
      && b.m.regs == a.m.regs && KeepsMem(w, a, b)
      && b.death == a.death && b.pinned == a.pinned && b.env == a.env && b.pend == a.pend
    }

    /** Register `i` dropped and pinned. */
    method Take(i: nat)
      requires Valid(pos) && i < isa.n && !pinned[i]
      modifies this`held, this`dirty, this`at, this`pinned, this`code, this`m
      ensures Valid(pos) && Took(old(Now()), Now(), i)
    {
      hide Ran, Inv, Run, Tables;
      ghost var a := Now();
      DropIndex(i);
      ghost var b := Now();
      pinned := pinned[i := true];
      InvPins(P, w, b, Now(), pos);
      PinOne(a.pinned, i);
    }

    /** Register `r` is free for the current op, and pinned by it. */
    ghost predicate Took(a: Snap<V>, b: Snap<V>, r: nat)
      requires Config() && Sizes(w, a) && Sizes(w, b)
    {
      && r < isa.n && !a.pinned[r] && b.held[r].None?
      && b.pinned == a.pinned[r := true] && Pins(b.pinned) == Pins(a.pinned) + 1
      && b.death == a.death && Keeps(w, a, b)
      && (forall o :: o in b.at ==> o in a.at)
    }

    /** Whether register `i` is empty, or holds an input or a value nothing reads. */
    predicate Dead(i: nat)
      requires i < |held| && i < |death|
      reads this`held, this`death, this`pos
    {
      match held[i]
      case None => true
      case Some(Input(_)) => true
      case Some(Slot(_)) => death[i] < pos
    }

    method FirstDead(lo: nat, hi: nat) returns (r: Option<nat>)
      requires Sizes(w, Now()) && Config() && lo <= hi <= isa.n
      ensures match r
              case Some(i) => lo <= i < hi && !pinned[i] && Dead(i)
              case None => forall i :: lo <= i < hi && !pinned[i] ==> !Dead(i)
    {
      for i := lo to hi
        invariant forall j :: lo <= j < i && !pinned[j] ==> !Dead(j)
      {
        if !pinned[i] && Dead(i) { return Some(i); }
      }
      return None;
    }

    /** What makes a register the better one to evict: its value is read again later, and
        among equals a clean one. */
    function EvictKey(i: nat): (nat, bool)
      requires i < |held| && i < |dirty| && live.Shape(lay.slots)
      requires held[i].Some? && held[i].value.Slot? ==> held[i].value.s < lay.slots
      reads this`held, this`dirty, this`pos
    {
      (match held[i]
       case Some(Slot(x)) => live.NextRead(lay.slots, x, pos)
       case _ => END,
       !dirty[i])
    }

    static predicate KeyLeq(a: (nat, bool), b: (nat, bool)) {
      a.0 < b.0 || (a.0 == b.0 && (a.1 ==> b.1))
    }

    /** An unpinned register of `lo..hi` that no other there beats by `EvictKey`, or none where
        all are pinned. */
    method Victim(lo: nat, hi: nat) returns (r: Option<nat>)
      requires Valid(pos) && lo <= hi <= isa.n
      ensures live.Shape(lay.slots)
      ensures forall i :: 0 <= i < isa.n && held[i].Some? && held[i].value.Slot? ==> held[i].value.s < lay.slots
      ensures match r
              case Some(i) => lo <= i < hi && !pinned[i] &&
                              forall j :: lo <= j < hi && !pinned[j] ==> KeyLeq(EvictKey(j), EvictKey(i))
              case None => forall j :: lo <= j < hi ==> pinned[j]
    {
      r := None;
      forall i | 0 <= i < isa.n && held[i].Some? && held[i].value.Slot? ensures held[i].value.s < lay.slots {
        RegOf(P, w, Now(), pos, i);
      }
      for i := lo to hi
        invariant r.Some? ==> lo <= r.value < i && !pinned[r.value]
        invariant r.Some? ==> forall j :: lo <= j < i && !pinned[j] ==> KeyLeq(EvictKey(j), EvictKey(r.value))
        invariant r.None? ==> forall j :: lo <= j < i ==> pinned[j]
      {
        if !pinned[i] && (r.None? || KeyLeq(EvictKey(r.value), EvictKey(i))) {
          r := Some(i);
        }
      }
    }

    /** A register no value is lost from, taken and pinned: dead ones come first, those of
        `lo..hi` before the rest, then the best victim. With fewer than all pinned it always
        succeeds. */
    method FreshIn(lo: nat, hi: nat) returns (r: nat)
      requires Valid(pos) && Pins(pinned) < isa.n
      requires (lo == 0 && hi == isa.saved) || (lo == isa.saved && hi == isa.n)
      modifies this`held, this`dirty, this`at, this`pinned, this`code, this`m
      ensures Valid(pos) && Took(old(Now()), Now(), r)
    {
      hide Ran, Inv, Run, Tables;
      var oLo, oHi := if lo == 0 then isa.saved else 0, if lo == 0 then isa.n else isa.saved;
      var d := FirstDead(lo, hi);
      if d.None? { d := FirstDead(oLo, oHi); }
      if d.None? { d := Victim(lo, hi); }
      if d.None? { d := Victim(0, isa.n); }
      if d.None? { AllPinned(pinned); }
      r := d.value;
      Take(r);
    }

    method Fresh() returns (r: nat)
      requires Valid(pos) && Pins(pinned) < isa.n
      modifies this`held, this`dirty, this`at, this`pinned, this`code, this`m
      ensures Valid(pos) && Took(old(Now()), Now(), r)
    {
      hide Valid, Took;
      r := FreshIn(isa.saved, isa.n);
    }

    /** `FreshIn` with its pool chosen by whether a host call comes no later than `d`. */
    method FreshUntil(d: nat) returns (r: nat)
      requires Valid(pos) && Pins(pinned) < isa.n
      modifies this`held, this`dirty, this`at, this`pinned, this`code, this`m
      ensures Valid(pos) && Took(old(Now()), Now(), r)
    {
      hide Valid, Took;
      if isa.saved > 0 && nextCall <= d { r := FreshIn(0, isa.saved); }
      else { r := FreshIn(isa.saved, isa.n); }
    }

    lemma OpGiven(k: nat)
      requires Ran() && k < |P.ops|
      ensures OpOk(P.ops[k], lay, |w.inputs|)
    {
      hide Run, OpOk;
    }

    /** When the value slot `x` holds at the current op dies, written by it (`def`) or not. */
    method DeathOf(x: nat, def: bool) returns (d: nat)
      requires Config() && Ran() && x < lay.slots
      ensures Covers(P, x, if def then pos + 1 else pos, d) && NotPast(P, x, if def then pos + 1 else pos, d)
    {
      hide Run, Covers, NotPast, Live, LiveRead, OpOk;
      d := live.Death(lay.slots, x, pos, def);
      DeathBounds(live, P, lay.slots, x, pos, def);
    }

    method FreshFor(x: nat) returns (r: nat)
      requires Valid(pos) && Pins(pinned) < isa.n && x < lay.slots
      modifies this`held, this`dirty, this`at, this`pinned, this`code, this`m
      ensures Valid(pos) && Took(old(Now()), Now(), r)
    {
      hide Ran, Inv, Run, Tables;
      var d := DeathOf(x, true);
      r := FreshUntil(d);
    }

    /** Register `r` holds operand `o` now, and no other does: a slot rebound to a new
        value drops the old one, dead by the tape's construction, without a write-back. */
    method Bind(r: nat, o: Operand, d: nat)
      requires Config() && Sizes(w, Now()) && Inverse(w, Now()) && r < isa.n && held[r].None?
      modifies this`held, this`dirty, this`at, this`death, this`code, this`m
      ensures Sizes(w, Now()) && code == old(code) && m == old(m)
      ensures old(o in at ==> at[o] < |held|) && Now() == Bound(old(Now()), r, o, d)
    {
      hide Ran, Inv, Run, Tables;
      if o in at {
        var i := at[o];
        at, held, dirty := at - {o}, held[i := None], dirty[i := false];
      }
      DropIndex(r);
      held, death, at := held[r := Some(o)], death[r := d], at[o := r];
    }

    // --- operands and results ------------------------------------------------------

    /** An instruction that computes into register `d`, which holds nothing. */
    method Compute(i: Instr, d: nat)
      requires Valid(pos) && InstrOk(isa, lay, |w.inputs|, i) && Target(i) == Some(d) && d < isa.n && held[d].None?
      modifies this`code, this`m
      ensures Valid(pos) && m == Step(w, i, old(m)) && m.work == old(m.work)
      ensures m.regs[d] == Computed(w, i, old(m))
      ensures forall j :: 0 <= j <= isa.n && j != d ==> m.regs[j] == old(m.regs[j])
      ensures KeepsBut(w, old(Now()), Now(), d)
    {
      hide Ran, Inv, Run, Tables, InstrOk, Computed, KeepsMem, Target;
      ghost var a := Now();
      Emit(i);
      InvRegs(P, w, a, Now(), pos);
      KeepsMemSame(w, a, Now());
    }

    /** The current op reads `o`. */
    ghost predicate ReadsNow(o: Operand)
      reads this`pos, this`pend
    {
      pos < |P.ops| && o in Operands(P.ops[pos]) && (o.Slot? ==> o.s !in pend)
    }

    lemma ReadFacts(o: Operand)
      requires Config() && Ran() && ReadsNow(o)
      ensures OperandOk(o, lay.slots, |w.inputs|)
      ensures o.Slot? ==> o.s !in pend && Live(P, o.s, pos)
    {
      hide Ran, Run, Tables, Live;
      OpGiven(pos);
      if o.Slot? { LiveNow(P, o.s, pos); }
    }

    /** Register `r` holds operand `o`, for the current op to use. */
    ghost predicate Got(a: Snap<V>, b: Snap<V>, r: nat, o: Operand)
      requires Config() && Sizes(w, a) && Sizes(w, b)
    {
      && r < isa.n && b.pinned[r] && b.held[r] == Some(o)
      && OperandOk(o, lay.slots, |w.inputs|) && b.m.regs[r] == Val(b.env, w.inputs, o)
      && Pins(b.pinned) <= Pins(a.pinned) + 1 && Keeps(w, a, b)
      && (forall i :: 0 <= i < isa.n && b.pinned[i] ==> a.pinned[i] || i == r)
    }

    method GetHeld(o: Operand) returns (r: nat)
      requires Valid(pos) && ReadsNow(o) && o in at
      modifies this`pinned
      ensures Valid(pos) && Got(old(Now()), Now(), r, o)
    {
      hide Ran, Run, Tables, Inv, Covers, NotPast, Live, HostLive, LiveRead, ReadsNow;
      ReadFacts(o);
      ghost var a := Now();
      HeldOf(P, w, a, pos, o);
      r := at[o];
      pinned := pinned[r := true];
      PinOne(a.pinned, r);
      InvPins(P, w, a, Now(), pos);
    }

    /** A slot loaded into a register. */
    method GetSlot(x: nat) returns (r: nat)
      requires Valid(pos) && Pins(pinned) < isa.n && ReadsNow(Slot(x)) && Slot(x) !in at
      modifies this`held, this`dirty, this`at, this`death, this`pinned, this`code, this`m
      ensures Valid(pos) && Got(old(Now()), Now(), r, Slot(x))
    {
      hide Ran, Run, Tables, Inv, Covers, NotPast, Live, HostLive, LiveRead, ReadsNow, Step;
      ReadFacts(Slot(x));
      var d := DeathOf(x, false);
      r := FreshUntil(d);
      MemOf(P, w, Now(), pos, x);
      Compute(Load(r, x), r);
      LoadIn(r, Slot(x), d);
    }

    /** Input `k` in a register of its own, held as a clean operand. */
    method GetInput(k: nat) returns (r: nat)
      requires Valid(pos) && Pins(pinned) < isa.n && ReadsNow(Input(k)) && Input(k) !in at
      modifies this`held, this`dirty, this`at, this`death, this`pinned, this`code, this`m
      ensures Valid(pos) && Got(old(Now()), Now(), r, Input(k))
    {
      hide Ran, Run, Tables, Inv, ReadsNow, Step;
      ReadFacts(Input(k));
      r := Fresh();
      Compute(LoadInput(r, k), r);
      LoadIn(r, Input(k), 0);
    }

    /** A pinned register whose value is the interpreter's value of operand `o`, from the cache or
        loaded into it. */
    method Get(o: Operand) returns (r: nat)
      requires Valid(pos) && Pins(pinned) < isa.n && ReadsNow(o)
      modifies this`held, this`dirty, this`at, this`death, this`pinned, this`code, this`m
      ensures Valid(pos) && Got(old(Now()), Now(), r, o)
    {
      hide Valid, Got, ReadsNow;
      if o in at { r := GetHeld(o); }
      else {
        match o
        case Slot(x) => r := GetSlot(x);
        case Input(k) => r := GetInput(k);
      }
    }

    /** The binding of a loaded operand. */
    method LoadIn(r: nat, o: Operand, d: nat)
      requires Valid(pos) && r < isa.n && held[r].None? && pinned[r] && o !in at
      requires OperandOk(o, lay.slots, |w.inputs|) && m.regs[r] == Val(env, w.inputs, o)
      requires o.Slot? ==> Covers(P, o.s, pos, d) && NotPast(P, o.s, pos, d) && o.s !in pend && Live(P, o.s, pos)
      modifies this`held, this`dirty, this`at, this`death, this`code, this`m
      ensures Valid(pos) && held == old(held)[r := Some(o)] && m == old(m) && pinned == old(pinned)
    {
      hide Ran, Run, Tables, CodeOk, Covers, NotPast, Live, HostLive, LiveRead;
      ghost var a := Now();
      LoadKeeps(P, w, a, pos, r, o, d);
      Bind(r, o, d);
    }

    /** Slot `x` of the interpreter takes the value register `r` computed, the cache owing it to
        memory; the invariant moves past the op. */
    method Put(x: nat, r: nat)
      requires Valid(pos) && r < isa.n && held[r].None? && x < lay.slots
      requires WritesOnly(P, pos, x) && x !in pend && !HostLive(P, x, pos + 1)
      modifies this`held, this`dirty, this`at, this`death, this`code, this`m, this`env
      ensures Valid(pos + 1) && env == old(env)[x := old(m.regs[r])] && m == old(m)
    {
      hide Ran, Run, Tables, CodeOk, Covers, NotPast, Live, HostLive, LiveRead, WritesOnly;
      ghost var a := Now();
      var d := DeathOf(x, true);
      PutKeeps(P, w, a, pos, r, x, d);
      Bind(r, Slot(x), d);
      dirty := dirty[r := true];
      env := env[x := m.regs[r]];
    }

    /** Exactly the registers of `keep` stay pinned. */
    method ReleaseExcept(keep: seq<nat>, ghost lp: nat)
      requires Valid(lp) && forall k :: k in keep ==> k < isa.n
      modifies this`pinned
      ensures Valid(lp) && Pins(pinned) <= |keep|
      ensures forall i :: 0 <= i < isa.n ==> (pinned[i] <==> i in keep)
    {
      hide Ran, Inv, Run, Tables;
      ghost var a := Now();
      pinned := PinsOf(keep);
      InvPins(P, w, a, Now(), lp);
    }

    /** Only the registers of `keep` pinned. */
    method PinsOf(keep: seq<nat>) returns (pins: seq<bool>)
      requires forall k :: k in keep ==> k < isa.n
      ensures |pins| == isa.n && Pins(pins) <= |keep| && forall i :: 0 <= i < isa.n ==> (pins[i] <==> i in keep)
    {
      pins := seq(isa.n, _ => false);
      NonePinned(pins);
      for k := 0 to |keep|
        invariant |pins| == isa.n && Pins(pins) <= k
        invariant forall i :: 0 <= i < isa.n ==> (pins[i] <==> i in keep[..k])
      {
        assert keep[k] in keep;
        PinOne(pins, keep[k]);
        pins := pins[keep[k] := true];
      }
      assert keep[..|keep|] == keep;
    }

    method Get2(a: Operand, b: Operand) returns (x: nat, y: nat)
      requires Valid(pos) && Pins(pinned) + 1 < isa.n && ReadsNow(a) && ReadsNow(b)
      modifies this`held, this`dirty, this`at, this`death, this`pinned, this`code, this`m
      ensures Valid(pos) && Keeps(w, old(Now()), Now()) && Pins(pinned) <= Pins(old(pinned)) + 2
      ensures x < isa.n && pinned[x] && held[x] == Some(a) && y < isa.n && pinned[y] && held[y] == Some(b)
      ensures OperandOk(a, lay.slots, |w.inputs|) && m.regs[x] == Val(env, w.inputs, a)
      ensures OperandOk(b, lay.slots, |w.inputs|) && m.regs[y] == Val(env, w.inputs, b)
    {
      hide Ran, Run, Tables, Inv, ReadsNow, Inverse, Pins, KeepsMem;
      ghost var s0 := Now();
      x := Get(a);
      ghost var s1 := Now();
      y := Get(b);
      KeepsTwice(w, s0, s1, Now());
    }

    method Get3(a: Operand, b: Operand, c: Operand) returns (x: nat, y: nat, z: nat)
      requires Valid(pos) && Pins(pinned) + 2 < isa.n && ReadsNow(a) && ReadsNow(b) && ReadsNow(c)
      modifies this`held, this`dirty, this`at, this`death, this`pinned, this`code, this`m
      ensures Valid(pos) && env == old(env) && pend == old(pend) && Pins(pinned) <= Pins(old(pinned)) + 3
      ensures x < isa.n && pinned[x] && y < isa.n && pinned[y] && z < isa.n && pinned[z]
      ensures OperandOk(a, lay.slots, |w.inputs|) && m.regs[x] == Val(env, w.inputs, a)
      ensures OperandOk(b, lay.slots, |w.inputs|) && m.regs[y] == Val(env, w.inputs, b)
      ensures OperandOk(c, lay.slots, |w.inputs|) && m.regs[z] == Val(env, w.inputs, c)
    {
      hide Ran, Run, Tables, Inv, ReadsNow, Inverse, Pins, KeepsMem;
      x, y := Get2(a, b);
      z := Get(c);
    }

    method Const2(a: Bits, b: Bits) returns (x: nat, y: nat)
      requires Valid(pos) && Pins(pinned) + 1 < isa.n
      modifies this`held, this`dirty, this`at, this`pinned, this`code, this`m
      ensures Valid(pos) && Keeps(w, old(Now()), Now()) && Pins(pinned) <= Pins(old(pinned)) + 2
      ensures x != y && x < isa.n && pinned[x] && held[x].None? && !old(pinned)[x] && m.regs[x] == w.A.konst(a)
      ensures y < isa.n && pinned[y] && held[y].None? && !old(pinned)[y] && m.regs[y] == w.A.konst(b)
    {
      hide Ran, Run, Tables, Inv, Inverse, Pins, KeepsMem;
      ghost var s0 := Now();
      x := Const(a);
      ghost var s1 := Now();
      y := Const(b);
      KeepsTwice(w, s0, s1, Now());
    }

    method Const(bits: Bits) returns (r: nat)
      requires Valid(pos) && Pins(pinned) < isa.n
      modifies this`held, this`dirty, this`at, this`pinned, this`code, this`m
      ensures Valid(pos) && Took(old(Now()), Now(), r) && m.regs[r] == w.A.konst(bits)
    {
      hide Ran, Inv, Run, Tables, Inverse, Pins, KeepsMem, Step;
      ghost var s0 := Now();
      r := Fresh();
      ghost var s1 := Now();
      Compute(FConst(r, bits), r);
      KeepsFree(w, s0, s1, Now(), r);
    }

    /** `d = a op o` done: register `d` computed, whatever else is pinned kept. */
    ghost predicate ArithDone(a: Snap<V>, b: Snap<V>, aop: Arith, d: nat, x: V, o: Operand)
      requires Config() && Sizes(w, a) && Sizes(w, b) && d < isa.n
    {
      && KeepsBut(w, a, b, d) && Pins(b.pinned) <= Pins(a.pinned) + 1
      && OperandOk(o, lay.slots, |w.inputs|)
      && b.m.regs[d] == w.A.arith(aop, x, Val(a.env, w.inputs, o))
    }

    method ArithMemory(aop: Arith, d: nat, a: nat, x: nat)
      requires Valid(pos) && ReadsNow(Slot(x)) && isa.memOperands && Slot(x) !in at
      requires d < isa.n && a < isa.n && pinned[d] && pinned[a] && held[d].None?
      modifies this`code, this`m
      ensures Valid(pos) && ArithDone(old(Now()), Now(), aop, d, old(m.regs[a]), Slot(x))
    {
      hide Ran, Run, Tables, Inv, Live, ReadsNow, Inverse, Pins, KeepsMem, Step;
      ReadFacts(Slot(x));
      MemOf(P, w, Now(), pos, x);
      Compute(ArithMem(aop, d, a, x), d);
    }

    method ArithRegister(aop: Arith, d: nat, a: nat, o: Operand)
      requires Valid(pos) && Pins(pinned) < isa.n && ReadsNow(o)
      requires d < isa.n && a < isa.n && pinned[d] && pinned[a] && held[d].None?
      modifies this`held, this`dirty, this`at, this`death, this`pinned, this`code, this`m
      ensures Valid(pos) && ArithDone(old(Now()), Now(), aop, d, old(m.regs[a]), o)
    {
      hide Ran, Run, Tables, Inv, Live, ReadsNow, Inverse, Pins, KeepsMem, Step;
      ghost var s0 := Now();
      var b := Get(o);
      ghost var s1 := Now();
      Compute(ArithRR(aop, d, a, b), d);
      KeepsThenBut(w, s0, s1, Now(), d);
    }

    /** Register `d` gets `a` combined with operand `o`, whichever of the two forms the
        instruction takes. */
    method ArithRm(aop: Arith, d: nat, a: nat, o: Operand)
      requires Valid(pos) && Pins(pinned) < isa.n && ReadsNow(o)
      requires d < isa.n && a < isa.n && pinned[d] && pinned[a] && held[d].None?
      modifies this`held, this`dirty, this`at, this`death, this`pinned, this`code, this`m
      ensures Valid(pos) && ArithDone(old(Now()), Now(), aop, d, old(m.regs[a]), o)
    {
      hide Ran, Run, Tables, Inv, Live, ReadsNow, ArithDone, Inverse, Pins, KeepsMem;
      ReadFacts(o);
      if isa.memOperands && o.Slot? && o !in at {
        var death := DeathOf(o.s, false);
        if death == pos {
          ArithMemory(aop, d, a, o.s);
          return;
        }
      }
      ArithRegister(aop, d, a, o);
    }

    // --- one op ----------------------------------------------------------------------

    /** The state before an op that a host routine does not write: nothing is pinned or
        deferred, and no main phase reads the slot it writes. */
    ghost predicate Ready(op: ROp)
      reads this
    {
      && Valid(pos) && pos < |P.ops| && P.ops[pos] == op && pend == {}
      && (forall i :: 0 <= i < isa.n ==> !pinned[i])
      && (!HostWrites(op) ==> !HostLive(P, op.dst, pos + 1))
    }

    /** The state after it: the interpreter's slots after the op. */
    ghost predicate Done(op: ROp, before: seq<V>)
      reads this
    {
      && Valid(pos + 1) && pend == {}
      && |before| == lay.slots && OpOk(op, lay, |w.inputs|)
      && env == OpEval(w.A, true, lay, before, w.inputs, op)
    }

    lemma ReadyFacts(op: ROp)
      requires Ready(op)
      ensures OpOk(op, lay, |w.inputs|) && Pins(pinned) == 0
      ensures forall o :: o in Operands(op) ==> ReadsNow(o) && OperandOk(o, lay.slots, |w.inputs|)
      ensures !HostWrites(op) ==> op.dst < lay.slots && WritesOnly(P, pos, op.dst)
    {
      hide Ran, Inv, Run, Tables, HostLive;
      OpGiven(pos);
      NonePinned(pinned);
    }

    /** The result of a one-slot op put in place. */
    method Finish(op: ROp, r: nat, ghost before: seq<V>)
      requires Valid(pos) && pos < |P.ops| && P.ops[pos] == op && pend == {} && !HostWrites(op)
      requires !HostLive(P, op.dst, pos + 1) && env == before
      requires OpOk(op, lay, |w.inputs|) && op.dst < lay.slots && WritesOnly(P, pos, op.dst)
      requires r < isa.n && held[r].None? && m.regs[r] == OpVal(w.A, true, env, w.inputs, op)
      modifies this`held, this`dirty, this`at, this`death, this`code, this`m, this`env
      ensures Done(op, before)
    {
      hide Ran, Run, Tables, Inv, OpVal, HostLive, WritesOnly, OpOk;
      Put(op.dst, r);
    }

    method OpConst(op: ROp)
      requires Ready(op) && op.OConst?
      modifies this`held, this`dirty, this`at, this`death, this`pinned, this`code, this`m, this`env
      ensures Done(op, old(env))
    {
      hide Ran, Run, Tables, Inv, HostLive, WritesOnly, OpOk, ReadsNow, Done;
      ReadyFacts(op);
      var r := Const(op.bits);
      Finish(op, r, old(env));
    }

    /** An op of two operands that is one arithmetic instruction. */
    method Bin2(op: ROp, aop: Arith, a: Operand, b: Operand)
      requires Ready(op) && !HostWrites(op) && a in Operands(op) && b in Operands(op)
      requires OpOk(op, lay, |w.inputs|) && OperandOk(a, lay.slots, |w.inputs|) && OperandOk(b, lay.slots, |w.inputs|)
      requires OpVal(w.A, true, env, w.inputs, op) == w.A.arith(aop, Val(env, w.inputs, a), Val(env, w.inputs, b))
      modifies this`held, this`dirty, this`at, this`death, this`pinned, this`code, this`m, this`env
      ensures Done(op, old(env))
    {
      hide Ran, Run, Tables, Inv, HostLive, WritesOnly, OpOk, ReadsNow, OpVal, Done, MemInv, RegInv, Covers, Inverse,
           Pins;
      ReadyFacts(op);
      var x := Get(a);
      var r := FreshFor(op.dst);
      ArithRm(aop, r, x, b);
      Finish(op, r, old(env));
    }

    /** `a * b + c` with two roundings, as the interpreter computes it. */
    method OpMulAdd(op: ROp)
      requires Ready(op) && op.OMulAdd?
      modifies this`held, this`dirty, this`at, this`death, this`pinned, this`code, this`m, this`env
      ensures Done(op, old(env))
    {
      hide Ran, Run, Tables, Inv, HostLive, WritesOnly, OpOk, ReadsNow, Done, Inverse, Pins, KeepsMem, MemInv, RegInv,
           Covers;
      ReadyFacts(op);
      assert op.a in Operands(op) && op.b in Operands(op) && op.c in Operands(op);
      var x := Get(op.a);
      var t := Fresh();
      ArithRm(FMul, t, x, op.b);
      var r := FreshFor(op.dst);
      ArithRm(FAdd, r, t, op.c);
      Finish(op, r, old(env));
    }

    /** An op of one operand that is one instruction. */
    method OpPrim(op: ROp, prim: Prim, a: Operand)
      requires Ready(op) && !HostWrites(op) && a in Operands(op) && OpOk(op, lay, |w.inputs|)
      requires OperandOk(a, lay.slots, |w.inputs|)
      requires OpVal(w.A, true, env, w.inputs, op) == w.A.prim(prim, Val(env, w.inputs, a))
      modifies this`held, this`dirty, this`at, this`death, this`pinned, this`code, this`m, this`env
      ensures Done(op, old(env))
    {
      hide Ran, Run, Tables, Inv, HostLive, WritesOnly, OpOk, ReadsNow, OpVal, Done, Inverse, Pins, KeepsMem, MemInv,
           RegInv, Covers, Step;
      ReadyFacts(op);
      var x := Get(a);
      var r := FreshFor(op.dst);
      Compute(Unop(prim, r, x), r);
      Finish(op, r, old(env));
    }

    /** A comparison's selection into a register of its own. */
    method SelectInto(x: nat, cop: CmpOp, a: nat, b: nat, t: nat, e: nat) returns (r: nat)
      requires Valid(pos) && Pins(pinned) < isa.n && x < lay.slots
      requires a < isa.n && b < isa.n && t < isa.n && e < isa.n
      requires pinned[a] && pinned[b] && pinned[t] && pinned[e]
      modifies this`held, this`dirty, this`at, this`pinned, this`code, this`m
      ensures Valid(pos) && env == old(env) && pend == old(pend) && r < isa.n && held[r].None?
      ensures m.regs[r] == w.A.cmpSelect(cop, old(m.regs[a]), old(m.regs[b]), old(m.regs[t]), old(m.regs[e]))
    {
      hide Ran, Run, Tables, Inv, Inverse, Pins, KeepsMem, Step;
      r := FreshFor(x);
      Compute(CmpSelect(cop, a, b, t, e, r), r);
    }

    /** Two operands and two constants, all pinned. */
    method Get2Const2(a: Operand, b: Operand, p: Bits, q: Bits) returns (x: nat, y: nat, c: nat, d: nat)
      requires Valid(pos) && Pins(pinned) + 3 < isa.n && ReadsNow(a) && ReadsNow(b)
      modifies this`held, this`dirty, this`at, this`death, this`pinned, this`code, this`m
      ensures Valid(pos) && Keeps(w, old(Now()), Now()) && Pins(pinned) <= Pins(old(pinned)) + 4
      ensures x < isa.n && y < isa.n && c < isa.n && d < isa.n && pinned[x] && pinned[y] && pinned[c] && pinned[d]
      ensures OperandOk(a, lay.slots, |w.inputs|) && m.regs[x] == Val(env, w.inputs, a)
      ensures OperandOk(b, lay.slots, |w.inputs|) && m.regs[y] == Val(env, w.inputs, b)
      ensures m.regs[c] == w.A.konst(p) && m.regs[d] == w.A.konst(q)
    {
      hide Ran, Run, Tables, Inv, ReadsNow, Inverse, Pins, KeepsMem;
      ghost var s0 := Now();
      x, y := Get2(a, b);
      ghost var s1 := Now();
      c, d := Const2(p, q);
      KeepsTwice(w, s0, s1, Now());
    }

    method OpCmp(op: ROp)
      requires Ready(op) && op.OCmp?
      modifies this`held, this`dirty, this`at, this`death, this`pinned, this`code, this`m, this`env
      ensures Done(op, old(env))
    {
      hide Ran, Run, Tables, Inv, HostLive, WritesOnly, OpOk, ReadsNow, Done, Inverse, Pins, KeepsMem;
      ReadyFacts(op);
      assert op.a in Operands(op) && op.b in Operands(op);
      var x, y, one, zero := Get2Const2(op.a, op.b, ONE_BITS, ZERO_BITS);
      var r := SelectInto(op.dst, op.cop, x, y, one, zero);
      Finish(op, r, old(env));
    }

    /** A selection by a nonzero condition, into a register of its own. */
    method SelectNzInto(x: nat, c: nat, t: nat, e: nat) returns (r: nat)
      requires Valid(pos) && Pins(pinned) < isa.n && x < lay.slots
      requires c < isa.n && t < isa.n && e < isa.n && pinned[c] && pinned[t] && pinned[e]
      modifies this`held, this`dirty, this`at, this`pinned, this`code, this`m
      ensures Valid(pos) && env == old(env) && pend == old(pend) && r < isa.n && held[r].None?
      ensures m.regs[r] == w.A.selectNz(old(m.regs[c]), old(m.regs[t]), old(m.regs[e]))
    {
      hide Ran, Run, Tables, Inv, Inverse, Pins, KeepsMem, Step;
      r := FreshFor(x);
      Compute(SelectNz(c, t, e, r), r);
    }

    method OpSelect(op: ROp)
      requires Ready(op) && op.OSelect?
      modifies this`held, this`dirty, this`at, this`death, this`pinned, this`code, this`m, this`env
      ensures Done(op, old(env))
    {
      hide Ran, Run, Tables, Inv, HostLive, WritesOnly, OpOk, ReadsNow, Done, Inverse, Pins, KeepsMem, MemInv, RegInv,
           Covers;
      ReadyFacts(op);
      assert op.c in Operands(op) && op.t in Operands(op) && op.e in Operands(op);
      var c, t, e := Get3(op.c, op.t, op.e);
      var r := SelectNzInto(op.dst, c, t, e);
      Finish(op, r, old(env));
    }

    // --- powers ------------------------------------------------------------------------

    /** The value an optional register holds. */
    ghost function RegVal(r: Option<nat>): Option<V>
      requires r.Some? ==> r.value < |m.regs|
      reads this`m
    { match r case None => None case Some(i) => Some(m.regs[i]) }

    /** A power by its products: square and multiply, the products of the reference. */
    method PowiProducts(x: nat, n: int) returns (p: nat)
      requires Valid(pos) && x < isa.n && pinned[x] && Pins(pinned) <= 2 && n != 0
      modifies this`held, this`dirty, this`at, this`death, this`pinned, this`code, this`m
      ensures Valid(pos) && env == old(env) && pend == old(pend) && Pins(pinned) <= 2
      ensures p < isa.n && pinned[p]
      ensures PowiLoop(w.A, old(m.regs[x]), None, AbsNat(n)) == Some(m.regs[p])
    {
      hide Ran, Run, Tables, Inv, Inverse, Pins, KeepsMem;
      var base: nat, acc: Option<nat>, e: nat := x, None, AbsNat(n);
      while e > 0
        invariant Valid(pos) && env == old(env) && pend == old(pend)
        invariant base < isa.n && pinned[base] && Pins(pinned) <= 2
        invariant acc.Some? ==> acc.value < isa.n && pinned[acc.value]
        invariant e > 0 || acc.Some?
        invariant PowiLoop(w.A, m.regs[base], RegVal(acc), e) == PowiLoop(w.A, old(m.regs[x]), None, AbsNat(n))
      {
        base, acc := PowiStep(base, acc, e);
        e := e / 2;
        ReleaseExcept(if acc.Some? then [base, acc.value] else [base], pos);
      }
      p := acc.value;
    }

    /** One bit of the exponent. */
    method PowiStep(base: nat, acc: Option<nat>, e: nat) returns (base': nat, acc': Option<nat>)
      requires Valid(pos) && base < isa.n && pinned[base] && Pins(pinned) <= 2 && e > 0
      requires acc.Some? ==> acc.value < isa.n && pinned[acc.value]
      modifies this`held, this`dirty, this`at, this`death, this`pinned, this`code, this`m
      ensures Valid(pos) && env == old(env) && pend == old(pend)
      ensures base' < isa.n && pinned[base'] && (acc'.Some? ==> acc'.value < isa.n && pinned[acc'.value])
      ensures e / 2 > 0 || acc'.Some?
      ensures PowiLoop(w.A, m.regs[base'], RegVal(acc'), e / 2) == PowiLoop(w.A, old(m.regs[base]), old(RegVal(acc)), e)
    {
      hide Ran, Run, Tables, Inv, Inverse, Pins, KeepsMem;
      base', acc' := base, acc;
      if e % 2 == 1 {
        acc' := PowiTimes(base, acc);
      }
      if e / 2 > 0 {
        base' := Square(base);
      }
    }

    method Square(base: nat) returns (r: nat)
      requires Valid(pos) && base < isa.n && pinned[base] && Pins(pinned) < isa.n
      modifies this`held, this`dirty, this`at, this`pinned, this`code, this`m
      ensures Valid(pos) && Keeps(w, old(Now()), Now())
      ensures r < isa.n && pinned[r] && m.regs[r] == w.A.arith(FMul, old(m.regs[base]), old(m.regs[base]))
    {
      hide Ran, Run, Tables, Inv, Inverse, Pins, KeepsMem, Step;
      ghost var s0 := Now();
      r := Fresh();
      ghost var s1 := Now();
      Compute(ArithRR(FMul, r, base, base), r);
      KeepsFree(w, s0, s1, Now(), r);
    }

    /** The accumulator times the base, the base itself the first time. */
    method PowiTimes(base: nat, acc: Option<nat>) returns (r: Option<nat>)
      requires Valid(pos) && base < isa.n && pinned[base] && Pins(pinned) <= 3
      requires acc.Some? ==> acc.value < isa.n && pinned[acc.value]
      modifies this`held, this`dirty, this`at, this`death, this`pinned, this`code, this`m
      ensures Valid(pos) && env == old(env) && pend == old(pend) && Pins(pinned) <= Pins(old(pinned)) + 1
      ensures r.Some? && r.value < isa.n && pinned[r.value] && pinned[base] && m.regs[base] == old(m.regs[base])
      ensures m.regs[r.value] == match old(RegVal(acc))
                                 case None => old(m.regs[base])
                                 case Some(a) => w.A.arith(FMul, a, old(m.regs[base]))
    {
      hide Ran, Run, Tables, Inv, Inverse, Pins, KeepsMem, Step;
      match acc
      case None => r := Some(base);
      case Some(p) =>
        var f := Fresh();
        Compute(ArithRR(FMul, f, p, base), f);
        r := Some(f);
    }

    /** The product inverted for a negative exponent. */
    method PowiEnd(n: int, p: nat, r: nat)
      requires Valid(pos) && Pins(pinned) < isa.n && p < isa.n && r < isa.n && p != r
      requires pinned[p] && pinned[r] && held[r].None?
      modifies this`held, this`dirty, this`at, this`pinned, this`code, this`m
      ensures Valid(pos) && env == old(env) && pend == old(pend) && held[r].None?
      ensures m.regs[r] == if n < 0 then w.A.arith(FDiv, w.A.konst(ONE_BITS), old(m.regs[p])) else old(m.regs[p])
    {
      hide Ran, Run, Tables, Inv, Inverse, Pins, KeepsMem, Step;
      if n < 0 {
        var one := Const(ONE_BITS);
        Compute(ArithRR(FDiv, r, one, p), r);
      } else {
        Compute(Mov(r, p), r);
      }
    }

    method OpPowiInline(op: ROp)
      requires Ready(op) && op.OPowi? && op.n != 0
      modifies this`held, this`dirty, this`at, this`death, this`pinned, this`code, this`m, this`env
      ensures Done(op, old(env))
    {
      hide Ran, Run, Tables, Inv, HostLive, WritesOnly, OpOk, ReadsNow, Done, Inverse, Pins, KeepsMem, PowiLoop;
      ReadyFacts(op);
      assert op.a in Operands(op);
      var x := Get(op.a);
      var p := PowiProducts(x, op.n);
      var r := FreshFor(op.dst);
      PowiEnd(op.n, p, r);
      Finish(op, r, old(env));
    }

    /** The reciprocal of register `x`, in a register for slot `dst`. */
    method RecipOf(x: nat, dst: nat) returns (r: nat)
      requires Valid(pos) && Pins(pinned) + 1 < isa.n && x < isa.n && pinned[x] && dst < lay.slots
      modifies this`held, this`dirty, this`at, this`pinned, this`code, this`m
      ensures Valid(pos) && env == old(env) && pend == old(pend) && r < isa.n && held[r].None?
      ensures m.regs[r] == w.A.arith(FDiv, w.A.konst(ONE_BITS), old(m.regs[x]))
    {
      hide Ran, Run, Tables, Inv, Inverse, Pins, KeepsMem, Step;
      var one := Const(ONE_BITS);
      r := FreshFor(dst);
      Compute(ArithRR(FDiv, r, one, x), r);
    }

    method OpPowiRecip(op: ROp)
      requires Ready(op) && op.OPowi? && op.n == -1
      modifies this`held, this`dirty, this`at, this`death, this`pinned, this`code, this`m, this`env
      ensures Done(op, old(env))
    {
      hide Ran, Run, Tables, Inv, HostLive, WritesOnly, OpOk, ReadsNow, Done, Inverse, Pins, KeepsMem, Step;
      ReadyFacts(op);
      assert op.a in Operands(op);
      var x := Get(op.a);
      var r := RecipOf(x, op.dst);
      PowiOne(w.A, Val(env, w.inputs, op.a));
      Finish(op, r, old(env));
    }

    // --- folds ---------------------------------------------------------------------------

    /** The terms of a fold: the operands, or for a dot their products. */
    ghost function Terms(xs: seq<Operand>, ys: Option<seq<Operand>>): (r: seq<V>)
      requires |env| == lay.slots && AllOk(xs, lay.slots, |w.inputs|)
      requires ys.Some? ==> |ys.value| == |xs| && AllOk(ys.value, lay.slots, |w.inputs|)
      reads this`env
      ensures |r| == |xs|
    {
      match ys
      case None => Vals(env, w.inputs, xs)
      case Some(bs) => Products(w.A, Vals(env, w.inputs, xs), Vals(env, w.inputs, bs))
    }

    ghost predicate FoldReads(xs: seq<Operand>, ys: Option<seq<Operand>>)
      reads this`pos, this`pend
    {
      && (forall o :: o in xs ==> ReadsNow(o) && OperandOk(o, lay.slots, |w.inputs|))
      && (ys.Some? ==> |ys.value| == |xs| &&
                       forall o :: o in ys.value ==> ReadsNow(o) && OperandOk(o, lay.slots, |w.inputs|))
    }

    lemma FoldOk(xs: seq<Operand>, ys: Option<seq<Operand>>)
      requires FoldReads(xs, ys)
      ensures AllOk(xs, lay.slots, |w.inputs|)
      ensures ys.Some? ==> |ys.value| == |xs| && AllOk(ys.value, lay.slots, |w.inputs|)
    {
    }

    /** Register `d` gets the accumulator folded with the `k`th term. */
    method Term(aop: Arith, d: nat, acc: nat, xs: seq<Operand>, ys: Option<seq<Operand>>, k: nat)
      requires Valid(pos) && Pins(pinned) + 2 < isa.n && FoldReads(xs, ys) && k < |xs|
      requires d < isa.n && acc < isa.n && pinned[d] && pinned[acc] && held[d].None? && held[acc].None?
      modifies this`held, this`dirty, this`at, this`death, this`pinned, this`code, this`m
      ensures Valid(pos) && KeepsBut(w, old(Now()), Now(), d)
      ensures m.regs[d] == w.A.arith(aop, old(m.regs[acc]), Terms(xs, ys)[k])
    {
      hide Ran, Run, Tables, Inv, Inverse, Pins, KeepsMem, ReadsNow;
      assert xs[k] in xs;
      match ys
      case None => ArithRm(aop, d, acc, xs[k]);
      case Some(bs) =>
        assert bs[k] in bs;
        DotTerm(aop, d, acc, xs[k], bs[k]);
    }

    method DotTerm(aop: Arith, d: nat, acc: nat, a: Operand, b: Operand)
      requires Valid(pos) && Pins(pinned) + 2 < isa.n && ReadsNow(a) && ReadsNow(b)
      requires d < isa.n && acc < isa.n && pinned[d] && pinned[acc] && held[d].None? && held[acc].None?
      requires OperandOk(a, lay.slots, |w.inputs|) && OperandOk(b, lay.slots, |w.inputs|)
      modifies this`held, this`dirty, this`at, this`death, this`pinned, this`code, this`m
      ensures Valid(pos) && KeepsBut(w, old(Now()), Now(), d)
      ensures m.regs[d] == w.A.arith(aop, old(m.regs[acc]),
                                     w.A.arith(FMul, Val(env, w.inputs, a), Val(env, w.inputs, b)))
    {
      hide Ran, Run, Tables, Inv, Inverse, Pins, KeepsMem, ReadsNow, Step;
      ghost var s0 := Now();
      var p := ProductOf(a, b);
      ghost var s1 := Now();
      Compute(ArithRR(aop, d, acc, p), d);
      KeepsThenBut(w, s0, s1, Now(), d);
    }

    method ProductOf(a: Operand, b: Operand) returns (p: nat)
      requires Valid(pos) && Pins(pinned) + 2 < isa.n && ReadsNow(a) && ReadsNow(b)
      requires OperandOk(a, lay.slots, |w.inputs|) && OperandOk(b, lay.slots, |w.inputs|)
      modifies this`held, this`dirty, this`at, this`death, this`pinned, this`code, this`m
      ensures Valid(pos) && Keeps(w, old(Now()), Now()) && p < isa.n && !old(pinned)[p] && pinned[p]
      ensures m.regs[p] == w.A.arith(FMul, Val(env, w.inputs, a), Val(env, w.inputs, b))
    {
      hide Ran, Run, Tables, Inv, Inverse, Pins, KeepsMem, ReadsNow;
      ghost var s0 := Now();
      var x := Get(a);
      ghost var s1 := Now();
      p := Fresh();
      ghost var s2 := Now();
      KeepsTwice(w, s0, s1, s2);
      ArithRm(FMul, p, x, b);
      KeepsFree(w, s0, s2, Now(), p);
    }

    /** The four accumulators `acc` after `c` rounds of four terms, the first `k` of them
        one round further. */
    ghost predicate LanesAt(s: Snap<V>, acc: seq<nat>, aop: Arith, ident: V, terms: seq<V>, c: nat, k: nat)
      requires Config() && Sizes(w, s)
    {
      && |acc| == FOLD_LANES && k <= FOLD_LANES && FOLD_LANES * c + (if k > 0 then FOLD_LANES else 0) <= |terms|
      && (forall l :: 0 <= l < FOLD_LANES ==> acc[l] < isa.n && s.pinned[acc[l]] && s.held[acc[l]].None?)
      && (forall l, j :: 0 <= l < j < FOLD_LANES ==> acc[l] != acc[j])
      && (forall l :: 0 <= l < FOLD_LANES ==>
            s.m.regs[acc[l]] == Lane(w.A, aop, ident, terms, l, if l < k then c + 1 else c))
    }

    /** Four accumulators, each the identity. */
    method LaneStart(aop: Arith, bits: Bits, ghost terms: seq<V>) returns (acc: seq<nat>)
      requires Valid(pos) && Pins(pinned) == 0
      modifies this`held, this`dirty, this`at, this`pinned, this`code, this`m
      ensures Valid(pos) && env == old(env) && pend == old(pend) && Pins(pinned) <= 4
      ensures LanesAt(Now(), acc, aop, w.A.konst(bits), terms, 0, 0)
    {
      hide Ran, Run, Tables, Inv, Inverse, Pins, KeepsMem, ReadsNow;
      var a, b := Const2(bits, bits);
      var c, d := Const2(bits, bits);
      acc := [a, b, c, d];
    }

    /** One term into its accumulator. */
    method LaneTerm(aop: Arith, ghost ident: V, acc: seq<nat>, xs: seq<Operand>, ys: Option<seq<Operand>>, c: nat,
                    k: nat)
      requires Valid(pos) && Pins(pinned) <= 4 && FoldReads(xs, ys) && k < FOLD_LANES
               && FOLD_LANES * c + FOLD_LANES <= |xs|
      requires LanesAt(Now(), acc, aop, ident, Terms(xs, ys), c, k)
      modifies this`held, this`dirty, this`at, this`death, this`pinned, this`code, this`m
      ensures Valid(pos) && env == old(env) && pend == old(pend) && Pins(pinned) <= 4
      ensures LanesAt(Now(), acc, aop, ident, Terms(xs, ys), c, k + 1)
    {
      hide Ran, Run, Tables, Inv, Inverse, Pins, KeepsMem, ReadsNow, FoldReads, Terms;
      Term(aop, acc[k], acc[k], xs, ys, FOLD_LANES * c + k);
      ReleaseExcept(acc, pos);
    }

    /** Four accumulators become one, pairwise. */
    method LaneMerge(aop: Arith, ghost ident: V, acc: seq<nat>, ghost terms: seq<V>) returns (s: nat)
      requires Valid(pos) && Pins(pinned) <= 4 && LanesAt(Now(), acc, aop, ident, terms, |terms| / FOLD_LANES, 0)
      modifies this`held, this`dirty, this`at, this`pinned, this`code, this`m
      ensures Valid(pos) && env == old(env) && pend == old(pend) && Pins(pinned) <= 7
      ensures s < isa.n && pinned[s] && held[s].None? && m.regs[s] == Merge(w.A, aop, ident, terms)
    {
      hide Ran, Run, Tables, Inv, Inverse, Pins, KeepsMem, ReadsNow, MemInv, RegInv, Covers, Step;
      ghost var s0 := Now();
      var l := LaneSum(aop, acc[0], acc[1]);
      ghost var s1 := Now();
      var r := LaneSum(aop, acc[2], acc[3]);
      KeepsTwice(w, s0, s1, Now());
      s := LaneSum(aop, l, r);
    }

    /** Two pinned registers combined in a third. */
    method LaneSum(aop: Arith, x: nat, y: nat) returns (s: nat)
      requires Valid(pos) && Pins(pinned) < isa.n && x < isa.n && y < isa.n && pinned[x] && pinned[y]
      modifies this`held, this`dirty, this`at, this`pinned, this`code, this`m
      ensures Valid(pos) && Keeps(w, old(Now()), Now()) && Pins(pinned) == Pins(old(pinned)) + 1
      ensures s < isa.n && pinned[s] && !old(pinned)[s] && held[s].None?
      ensures m.regs[s] == w.A.arith(aop, old(m.regs[x]), old(m.regs[y]))
    {
      hide Ran, Run, Tables, Inv, Inverse, Pins, KeepsMem, Step;
      ghost var s0 := Now();
      s := Fresh();
      ghost var s1 := Now();
      Compute(ArithRR(aop, s, x, y), s);
      KeepsFree(w, s0, s1, Now(), s);
    }

    method FoldLanes(aop: Arith, bits: Bits, xs: seq<Operand>, ys: Option<seq<Operand>>) returns (s: nat)
      requires Valid(pos) && Pins(pinned) == 0 && FoldReads(xs, ys)
      modifies this`held, this`dirty, this`at, this`death, this`pinned, this`code, this`m
      ensures Valid(pos) && env == old(env) && pend == old(pend) && Pins(pinned) <= 7
      ensures s < isa.n && pinned[s] && held[s].None?
      ensures m.regs[s] == Merge(w.A, aop, w.A.konst(bits), Terms(xs, ys))
    {
      hide Ran, Run, Tables, Inv, Inverse, Pins, KeepsMem, ReadsNow, FoldReads, LanesAt, Terms;
      FoldOk(xs, ys);
      ghost var T, ident := Terms(xs, ys), w.A.konst(bits);
      var ch := |xs| / FOLD_LANES;
      var acc := LaneStart(aop, bits, T);
      for c := 0 to ch
        invariant Valid(pos) && env == old(env) && pend == old(pend) && Pins(pinned) <= 4
        invariant FoldReads(xs, ys) && Terms(xs, ys) == T
        invariant LanesAt(Now(), acc, aop, ident, T, c, 0)
      {
        for k := 0 to FOLD_LANES
          invariant Valid(pos) && env == old(env) && pend == old(pend) && Pins(pinned) <= 4
          invariant FoldReads(xs, ys) && Terms(xs, ys) == T
          invariant LanesAt(Now(), acc, aop, ident, T, c, k)
        {
          LaneTerm(aop, ident, acc, xs, ys, c, k);
        }
        LanesNext(Now(), acc, aop, ident, T, c);
      }
      s := LaneMerge(aop, ident, acc, T);
    }

    lemma LanesNext(s: Snap<V>, acc: seq<nat>, aop: Arith, ident: V, terms: seq<V>, c: nat)
      requires Config() && Sizes(w, s) && LanesAt(s, acc, aop, ident, terms, c, FOLD_LANES)
      ensures LanesAt(s, acc, aop, ident, terms, c + 1, 0)
    {
    }

    /** The fold of the terms of `xs` (of their products with `ys`, if given), as `ShortFold`
        defines it. It starts and ends with at most a bounded number of pins however many terms
        there are. */
    method FoldList(aop: Arith, bits: Bits, xs: seq<Operand>, ys: Option<seq<Operand>>) returns (s: nat)
      requires Valid(pos) && Pins(pinned) == 0 && FoldReads(xs, ys)
      modifies this`held, this`dirty, this`at, this`death, this`pinned, this`code, this`m
      ensures Valid(pos) && env == old(env) && pend == old(pend)
      ensures s < isa.n && held[s].None?
      ensures m.regs[s] == ShortFold(w.A, aop, w.A.konst(bits), Terms(xs, ys))
    {
      hide Ran, Run, Tables, Inv, Inverse, Pins, KeepsMem, ReadsNow, FoldReads, Terms, Lane;
      FoldOk(xs, ys);
      ghost var T := Terms(xs, ys);
      var ch := |xs| / FOLD_LANES;
      if ch == 0 { s := Const(bits); } else { s := FoldLanes(aop, bits, xs, ys); }
      s := FoldTail(aop, s, xs, ys, ch * FOLD_LANES);
    }

    /** The terms from `from` on folded in, in order. */
    method FoldTail(aop: Arith, s0: nat, xs: seq<Operand>, ys: Option<seq<Operand>>, from: nat) returns (s: nat)
      requires Valid(pos) && Pins(pinned) <= 7 && FoldReads(xs, ys) && from <= |xs|
      requires s0 < isa.n && pinned[s0] && held[s0].None?
      modifies this`held, this`dirty, this`at, this`death, this`pinned, this`code, this`m
      ensures Valid(pos) && env == old(env) && pend == old(pend) && s < isa.n && held[s].None?
      ensures m.regs[s] == Tail(w.A, aop, old(m.regs[s0]), Terms(xs, ys), from, |xs|)
    {
      hide Ran, Run, Tables, Inv, Inverse, Pins, KeepsMem, ReadsNow, FoldReads, Terms;
      FoldOk(xs, ys);
      ghost var T := Terms(xs, ys);
      s := s0;
      for k := from to |xs|
        invariant Valid(pos) && env == old(env) && pend == old(pend) && Pins(pinned) <= 7
        invariant FoldReads(xs, ys) && Terms(xs, ys) == T
        invariant s < isa.n && pinned[s] && held[s].None?
        invariant m.regs[s] == Tail(w.A, aop, old(m.regs[s0]), T, from, k)
      {
        s := TailTerm(aop, s, xs, ys, k);
      }
    }

    method TailTerm(aop: Arith, s: nat, xs: seq<Operand>, ys: Option<seq<Operand>>, k: nat) returns (s2: nat)
      requires Valid(pos) && Pins(pinned) + 3 < isa.n && FoldReads(xs, ys) && k < |xs|
      requires s < isa.n && pinned[s] && held[s].None?
      modifies this`held, this`dirty, this`at, this`death, this`pinned, this`code, this`m
      ensures Valid(pos) && env == old(env) && pend == old(pend) && Pins(pinned) <= 1
      ensures s2 < isa.n && pinned[s2] && held[s2].None?
      ensures m.regs[s2] == w.A.arith(aop, old(m.regs[s]), Terms(xs, ys)[k])
    {
      hide Ran, Run, Tables, Inv, Inverse, Pins, KeepsMem, ReadsNow, FoldReads, Terms;
      s2 := Fresh();
      Term(aop, s2, s, xs, ys, k);
      ReleaseExcept([s2], pos);
    }

    // --- host calls -------------------------------------------------------------------------

    /** What a host call would clobber is written back where owed, and forgotten. */
    method ClearUnsaved()
      requires Valid(pos)
      modifies this`held, this`dirty, this`at, this`code, this`m
      ensures Valid(pos) && forall i :: isa.saved <= i < isa.n ==> held[i].None?
      ensures m.regs == old(m.regs) && KeepsMem(w, old(Now()), Now())
      ensures forall i :: 0 <= i < isa.saved ==> held[i] == old(held[i])
    {
      hide Ran, Run, Tables, Inv, Inverse, Pins, KeepsMem;
      ghost var s0 := Now();
      KeepsMemSelf(w, s0);
      for i := isa.saved to isa.n
        invariant Valid(pos) && m.regs == s0.m.regs && KeepsMem(w, s0, Now())
        invariant forall j :: isa.saved <= j < i ==> held[j].None?
        invariant forall j :: 0 <= j < isa.saved ==> held[j] == s0.held[j]
      {
        ghost var s1 := Now();
        DropIndex(i);
        KeepsMemTwice(w, s0, s1, Now());
      }
    }

    /** A host routine called on registers or the gather area: its result in its own
        register, the unsaved ones clobbered. */
    method CallHost(i: Instr)
      requires Valid(pos) && InstrOk(isa, lay, |w.inputs|, i) && ScalarHost(i)
      modifies this`held, this`dirty, this`at, this`code, this`m
      ensures Valid(pos) && old(Shaped(w, m))
      ensures i.HostReduce? ==> forall k :: lay.slots <= k < lay.Scratch() ==> m.work[k] == old(m.work[k])
      ensures !i.HostReduce? ==> m.regs[isa.n] == HostResult(w, i, old(m))
      ensures i.HostReduce? ==> m.regs[isa.n] == Extremum(w.A, i.max, old(m.work[i.off..i.off + i.len]))
    {
      hide Ran, Run, Tables, Inv, Inverse, Pins, Extremum, Step, UnaryVal, PowiVal;
      ghost var s0 := Now();
      ClearUnsaved();
      ghost var s1 := Now();
      assert i.HostReduce? ==> s1.m.work[i.off..i.off + i.len] == s0.m.work[i.off..i.off + i.len];
      HostStep(w, i, m);
      Emit(i);
      InvClobbered(P, w, s1, Now(), pos);
    }

    /** A call to the host for one value: it lands in a register that holds nothing, and the
        unsaved registers are emptied before. */
    method CallInto(op: ROp, i: Instr, ghost before: seq<V>)
      requires Valid(pos) && pos < |P.ops| && P.ops[pos] == op && pend == {} && !HostWrites(op)
      requires !HostLive(P, op.dst, pos + 1) && env == before && Pins(pinned) < isa.n
      requires OpOk(op, lay, |w.inputs|) && op.dst < lay.slots && WritesOnly(P, pos, op.dst)
      requires InstrOk(isa, lay, |w.inputs|, i) && ScalarHost(i)
      requires OpVal(w.A, true, env, w.inputs, op) ==
               if i.HostReduce? then Extremum(w.A, i.max, m.work[i.off..i.off + i.len]) else HostResult(w, i, m)
      modifies this`held, this`dirty, this`at, this`death, this`pinned, this`code, this`m, this`env
      ensures Done(op, before)
    {
      hide Ran, Run, Tables, Inv, Inverse, Pins, KeepsMem, OpVal, HostResult, Extremum, HostLive, WritesOnly, OpOk,
           Done, Step;
      CallHost(i);
      var r := FreshFor(op.dst);
      Compute(Mov(r, isa.Result()), r);
      Finish(op, r, before);
    }

    method OpPowiHost(op: ROp)
      requires Ready(op) && op.OPowi?
      modifies this`held, this`dirty, this`at, this`death, this`pinned, this`code, this`m, this`env
      ensures Done(op, old(env))
    {
      hide Ran, Run, Tables, Inv, HostLive, WritesOnly, OpOk, ReadsNow, Done, Inverse, Pins, KeepsMem, PowiLoop;
      ReadyFacts(op);
      assert op.a in Operands(op);
      var x := Get(op.a);
      CallInto(op, HostPowi(x, op.n), old(env));
    }

    method OpBinary(op: ROp)
      requires Ready(op) && op.OBinary?
      modifies this`held, this`dirty, this`at, this`death, this`pinned, this`code, this`m, this`env
      ensures Done(op, old(env))
    {
      hide Ran, Run, Tables, Inv, HostLive, WritesOnly, OpOk, ReadsNow, Done, Inverse, Pins, KeepsMem;
      ReadyFacts(op);
      assert op.a in Operands(op) && op.b in Operands(op);
      var x, y := Get2(op.a, op.b);
      CallInto(op, HostBinary(op.bop, x, y), old(env));
    }

    // --- unary ops ----------------------------------------------------------------------------

    /** Register `r` gets the reference's guarded square root of register `x`. */
    method SqrtInto(x: nat, r: nat)
      requires Valid(pos) && Pins(pinned) + 1 < isa.n && x < isa.n && r < isa.n && x != r
      requires pinned[x] && pinned[r] && held[r].None?
      modifies this`held, this`dirty, this`at, this`pinned, this`code, this`m
      ensures Valid(pos) && env == old(env) && pend == old(pend) && held[r].None?
      ensures m.regs[r] == UnaryVal(w.A, Sqrt, old(m.regs[x]))
    {
      hide Ran, Run, Tables, Inv, Inverse, Pins, KeepsMem, MemInv, RegInv, Covers, Step;
      var zero := Const(ZERO_BITS);
      var s := Fresh();
      Compute(Unop(PSqrt, s, x), s);
      Compute(CmpSelect(Le, x, zero, zero, s, r), r);
    }

    /** The three constants of a sign. */
    method Const3(a: Bits, b: Bits, c: Bits) returns (x: nat, y: nat, z: nat)
      requires Valid(pos) && Pins(pinned) + 2 < isa.n
      modifies this`held, this`dirty, this`at, this`pinned, this`code, this`m
      ensures Valid(pos) && Keeps(w, old(Now()), Now()) && Pins(pinned) <= Pins(old(pinned)) + 3
      ensures x < isa.n && pinned[x] && !old(pinned)[x] && m.regs[x] == w.A.konst(a)
      ensures y < isa.n && pinned[y] && !old(pinned)[y] && m.regs[y] == w.A.konst(b)
      ensures z < isa.n && pinned[z] && !old(pinned)[z] && m.regs[z] == w.A.konst(c)
    {
      hide Ran, Run, Tables, Inv, Inverse, Pins, KeepsMem;
      ghost var s0 := Now();
      x, y := Const2(a, b);
      ghost var s1 := Now();
      z := Const(c);
      KeepsTwice(w, s0, s1, Now());
    }

    /** `x > 0 ? 1 : (x < 0 ? -1 : x)`. */
    method SignInto(x: nat, r: nat)
      requires Valid(pos) && Pins(pinned) + 3 < isa.n && x < isa.n && r < isa.n && x != r
      requires pinned[x] && pinned[r] && held[r].None?
      modifies this`held, this`dirty, this`at, this`pinned, this`code, this`m
      ensures Valid(pos) && env == old(env) && pend == old(pend) && held[r].None?
      ensures m.regs[r] == UnaryVal(w.A, Sign, old(m.regs[x]))
    {
      hide Ran, Run, Tables, Inv, Inverse, Pins, KeepsMem, Step;
      var zero, one, minus := Const3(ZERO_BITS, ONE_BITS, MINUS_ONE_BITS);
      var t := NegativeSign(x, zero, minus);
      Compute(CmpSelect(Gt, x, zero, one, t, r), r);
    }

    /** `x < 0 ? -1 : x`. */
    method NegativeSign(x: nat, zero: nat, minus: nat) returns (t: nat)
      requires Valid(pos) && Pins(pinned) < isa.n && x < isa.n && zero < isa.n && minus < isa.n
      requires pinned[x] && pinned[zero] && pinned[minus]
      modifies this`held, this`dirty, this`at, this`pinned, this`code, this`m
      ensures Valid(pos) && Keeps(w, old(Now()), Now()) && t < isa.n && !old(pinned)[t]
      ensures m.regs[t] == w.A.cmpSelect(Lt, old(m.regs[x]), old(m.regs[zero]), old(m.regs[minus]), old(m.regs[x]))
    {
      hide Ran, Run, Tables, Inv, Inverse, Pins, KeepsMem, Step;
      ghost var s0 := Now();
      t := Fresh();
      ghost var s1 := Now();
      Compute(CmpSelect(Lt, x, zero, minus, x, t), t);
      KeepsFree(w, s0, s1, Now(), t);
    }

    /** Four registers to scratch. */
    method Fresh4(x: nat, r: nat) returns (ts: seq<nat>)
      requires Valid(pos) && Pins(pinned) + 3 < isa.n && x < isa.n && r < isa.n && pinned[x] && pinned[r]
               && held[r].None?
      modifies this`held, this`dirty, this`at, this`pinned, this`code, this`m
      ensures Valid(pos) && env == old(env) && pend == old(pend) && held[r].None? && m.regs[x] == old(m.regs[x])
      ensures forall t :: t in ts ==> t < isa.n && held[t].None? && t != x && t != r
    {
      hide Ran, Run, Tables, Inv, Inverse, Pins, KeepsMem;
      ts := [];
      for k := 0 to 4
        invariant Valid(pos) && env == old(env) && pend == old(pend) && Pins(pinned) <= Pins(old(pinned)) + k
        invariant pinned[x] && pinned[r] && held[r].None? && m.regs[x] == old(m.regs[x])
        invariant forall t :: t in ts ==> t < isa.n && pinned[t] && held[t].None? && t != x && t != r
      {
        var t := Fresh();
        ts := ts + [t];
      }
    }

    /** The exponential or logarithm in the code itself. */
    method ExpLnInto(uop: UnaryOp, x: nat, r: nat)
      requires Valid(pos) && Pins(pinned) + 3 < isa.n && x < isa.n && r < isa.n && x != r
      requires pinned[x] && pinned[r] && held[r].None? && isa.expLnInline && (uop.Exp? || uop.Ln?)
      modifies this`held, this`dirty, this`at, this`pinned, this`code, this`m
      ensures Valid(pos) && env == old(env) && pend == old(pend) && held[r].None?
      ensures m.regs[r] == UnaryVal(w.A, uop, old(m.regs[x]))
    {
      hide Ran, Run, Tables, Inv, Inverse, Pins, KeepsMem;
      var ts := Fresh4(x, r);
      ghost var s0 := Now();
      Emit(ExpLn(uop, r, x, ts));
      InvRegs(P, w, s0, Now(), pos);
    }

    /** The result register `r` of a unary op done inline; false where a host routine has
        to compute it. */
    method UnaryInline(uop: UnaryOp, x: nat, dst: nat) returns (done: bool, r: nat)
      requires Valid(pos) && Pins(pinned) <= 1 && x < isa.n && pinned[x] && dst < lay.slots
      modifies this`held, this`dirty, this`at, this`pinned, this`code, this`m
      ensures Valid(pos) && env == old(env) && pend == old(pend)
      ensures done ==> r < isa.n && held[r].None? && m.regs[r] == UnaryVal(w.A, uop, old(m.regs[x]))
      ensures !done ==> pinned[x] && m.regs[x] == old(m.regs[x]) && Pins(pinned) <= 2
    {
      hide Ran, Run, Tables, Inv, Inverse, Pins, KeepsMem, Step;
      done, r := true, 0;
      match uop
      case Sqrt => r := FreshFor(dst); SqrtInto(x, r);
      case Sign => r := FreshFor(dst); SignInto(x, r);
      case Abs => r := FreshFor(dst); Compute(Unop(PAbs, r, x), r);
      case Floor => done, r := RoundInto(PFloor, x, dst);
      case Ceil => done, r := RoundInto(PCeil, x, dst);
      case Trunc => done, r := RoundInto(PTrunc, x, dst);
      case Exp => done, r := ExpLnWhere(uop, x, dst);
      case Ln => done, r := ExpLnWhere(uop, x, dst);
      case Coded(_) => done := false;
    }

    /** The inline exponential or logarithm, where this machine runs one. */
    method ExpLnWhere(uop: UnaryOp, x: nat, dst: nat) returns (done: bool, r: nat)
      requires Valid(pos) && Pins(pinned) <= 1 && x < isa.n && pinned[x] && dst < lay.slots && (uop.Exp? || uop.Ln?)
      modifies this`held, this`dirty, this`at, this`pinned, this`code, this`m
      ensures Valid(pos) && env == old(env) && pend == old(pend)
      ensures done ==> r < isa.n && held[r].None? && m.regs[r] == UnaryVal(w.A, uop, old(m.regs[x]))
      ensures !done ==> pinned[x] && m.regs[x] == old(m.regs[x]) && Pins(pinned) <= 2
    {
      hide Ran, Run, Tables, Inv, Inverse, Pins, KeepsMem, UnaryVal;
      done, r := isa.expLnInline, 0;
      if done {
        r := FreshFor(dst);
        ExpLnInto(uop, x, r);
      }
    }

    /** A rounding, where the instruction is available. */
    method RoundInto(prim: Prim, x: nat, dst: nat) returns (done: bool, r: nat)
      requires Valid(pos) && Pins(pinned) <= 1 && x < isa.n && pinned[x] && dst < lay.slots
      modifies this`held, this`dirty, this`at, this`pinned, this`code, this`m
      ensures Valid(pos) && env == old(env) && pend == old(pend)
      ensures done ==> r < isa.n && held[r].None? && m.regs[r] == w.A.prim(prim, old(m.regs[x]))
      ensures !done ==> pinned[x] && m.regs[x] == old(m.regs[x]) && Pins(pinned) <= 2
    {
      hide Ran, Run, Tables, Inv, Inverse, Pins, KeepsMem, Step;
      r := FreshFor(dst);
      done := isa.roundOk;
      if done { Compute(Unop(prim, r, x), r); }
    }

    method OpUnary(op: ROp)
      requires Ready(op) && op.OUnary?
      modifies this`held, this`dirty, this`at, this`death, this`pinned, this`code, this`m, this`env
      ensures Done(op, old(env))
    {
      hide Ran, Run, Tables, Inv, HostLive, WritesOnly, OpOk, ReadsNow, Done, Inverse, Pins, KeepsMem, UnaryVal;
      ReadyFacts(op);
      assert op.a in Operands(op);
      var x := Get(op.a);
      var done, r := UnaryInline(op.uop, x, op.dst);
      if done {
        Finish(op, r, old(env));
      } else {
        CallInto(op, HostUnary(op.uop, x), old(env));
      }
    }

    // --- reductions -----------------------------------------------------------------------------

    /** None of the first `n` places from `base` is `i`. */
    ghost static predicate Clear(places: seq<nat>, n: nat, base: nat, i: nat)
      requires n <= |places|
    {
      forall k :: 0 <= k < n ==> i != base + places[k]
    }

    /** Copy operands into the gather area from `off` on, each to its place. */
    method GatherAt(os: seq<Operand>, places: seq<nat>, off: nat)
      requires Valid(pos) && Pins(pinned) == 0 && |places| == |os|
      requires forall o :: o in os ==> ReadsNow(o) && OperandOk(o, lay.slots, |w.inputs|)
      requires forall k :: 0 <= k < |os| ==> off + places[k] < lay.gatherLen
      requires forall j, k :: 0 <= j < k < |os| ==> places[j] != places[k]
      modifies this`held, this`dirty, this`at, this`death, this`pinned, this`code, this`m
      ensures Valid(pos) && env == old(env) && pend == old(pend) && Pins(pinned) == 0
      ensures forall x :: 0 <= x < lay.slots && old(m.work[x] == env[x]) ==> m.work[x] == env[x]
      ensures forall x :: 0 <= x < lay.slots && x in pend ==> m.work[x] == old(m.work[x])
      ensures forall k :: 0 <= k < |os| ==> m.work[lay.slots + off + places[k]] == Val(env, w.inputs, os[k])
      ensures forall i :: lay.slots <= i < lay.Scratch() && Clear(places, |os|, lay.slots + off, i)
                ==> m.work[i] == old(m.work[i])
    {
      hide Ran, Run, Tables, Inv, Inverse, Pins, ReadsNow;
      ghost var s0 := Now();
      for k := 0 to |os|
        invariant Valid(pos) && env == s0.env && pend == s0.pend && Pins(pinned) == 0
        invariant forall o :: o in os ==> ReadsNow(o) && OperandOk(o, lay.slots, |w.inputs|)
        invariant forall x :: 0 <= x < lay.slots && s0.m.work[x] == s0.env[x] ==> m.work[x] == env[x]
        invariant forall x :: 0 <= x < lay.slots && x in pend ==> m.work[x] == s0.m.work[x]
        invariant forall j :: 0 <= j < k ==> m.work[lay.slots + off + places[j]] == Val(env, w.inputs, os[j])
        invariant forall i :: lay.slots <= i < lay.Scratch() && Clear(places, k, lay.slots + off, i)
                    ==> m.work[i] == s0.m.work[i]
      {
        assert os[k] in os;
        GatherOne(os[k], lay.slots + off + places[k]);
      }
    }

    /** One operand into the gather area. */
    method GatherOne(o: Operand, to: nat)
      requires Valid(pos) && Pins(pinned) == 0 && ReadsNow(o) && OperandOk(o, lay.slots, |w.inputs|)
      requires lay.slots <= to < lay.Scratch()
      modifies this`held, this`dirty, this`at, this`death, this`pinned, this`code, this`m
      ensures Valid(pos) && env == old(env) && pend == old(pend) && Pins(pinned) == 0
      ensures forall x :: 0 <= x < lay.slots && old(m.work[x] == env[x]) ==> m.work[x] == env[x]
      ensures forall x :: 0 <= x < lay.slots && x in pend ==> m.work[x] == old(m.work[x])
      ensures m.work[to] == Val(env, w.inputs, o)
      ensures forall i :: lay.slots <= i < lay.Scratch() && i != to ==> m.work[i] == old(m.work[i])
    {
      hide Ran, Run, Tables, Inv, Inverse, ReadsNow;
      var r := Get(o);
      StoreGather(r, to);
      ReleaseExcept([], pos);
    }

    /** A register stored in the gather area. */
    method StoreGather(r: nat, to: nat)
      requires Valid(pos) && r < isa.n && lay.slots <= to < lay.Scratch()
      modifies this`code, this`m
      ensures Valid(pos) && m.regs == old(m.regs) && m.work == old(m.work)[to := m.regs[r]]
    {
      hide Ran, Run, Tables, Inv, Inverse, Pins;
      ghost var s0 := Now();
      Emit(Store(r, to));
      InvClobbered(P, w, s0, Now(), pos);
    }

    /** A min or max as a chain of instructions: the reference's left fold. */
    method OpExtremumInline(op: ROp, max: bool)
      requires Ready(op) && op.OReduce? && op.rop == (if max then Max else Min) && isa.minmax && op.args != []
      modifies this`held, this`dirty, this`at, this`death, this`pinned, this`code, this`m, this`env
      ensures Done(op, old(env))
    {
      hide Ran, Run, Tables, Inv, HostLive, WritesOnly, OpOk, ReadsNow, Done, Inverse, Pins, KeepsMem, Extremum;
      ReadyFacts(op);
      var acc := ExtremumChain(max, op.args);
      Finish(op, acc, old(env));
    }

    method ExtremumChain(max: bool, os: seq<Operand>) returns (acc: nat)
      requires Valid(pos) && Pins(pinned) == 0 && os != [] && isa.minmax
      requires forall o :: o in os ==> ReadsNow(o) && OperandOk(o, lay.slots, |w.inputs|)
      modifies this`held, this`dirty, this`at, this`death, this`pinned, this`code, this`m
      ensures Valid(pos) && env == old(env) && pend == old(pend) && acc < isa.n && held[acc].None?
      ensures m.regs[acc] == Extremum(w.A, max, Vals(env, w.inputs, os))
    {
      hide Ran, Run, Tables, Inv, ReadsNow, Inverse, Pins, KeepsMem;
      ghost var T := Vals(env, w.inputs, os);
      assert os[0] in os;
      acc := ExtremumFirst(os[0]);
      for k := 1 to |os|
        invariant Valid(pos) && env == old(env) && pend == old(pend) && Pins(pinned) <= 2
        invariant forall o :: o in os ==> ReadsNow(o) && OperandOk(o, lay.slots, |w.inputs|)
        invariant acc < isa.n && pinned[acc] && held[acc].None?
        invariant m.regs[acc] == ExtremumUpTo(w.A, max, T, k)
      {
        assert os[k] in os;
        acc := ExtremumTerm(max, acc, os[k]);
      }
    }

    method ExtremumFirst(o: Operand) returns (acc: nat)
      requires Valid(pos) && Pins(pinned) == 0 && ReadsNow(o)
      modifies this`held, this`dirty, this`at, this`death, this`pinned, this`code, this`m
      ensures Valid(pos) && env == old(env) && pend == old(pend) && Pins(pinned) <= 2
      ensures acc < isa.n && pinned[acc] && held[acc].None?
      ensures OperandOk(o, lay.slots, |w.inputs|) && m.regs[acc] == Val(env, w.inputs, o)
    {
      hide Ran, Run, Tables, Inv, ReadsNow, Inverse, Pins, KeepsMem, Step;
      var first := Get(o);
      acc := Fresh();
      Compute(Mov(acc, first), acc);
    }

    method ExtremumTerm(max: bool, acc: nat, o: Operand) returns (r: nat)
      requires Valid(pos) && Pins(pinned) <= 2 && ReadsNow(o) && OperandOk(o, lay.slots, |w.inputs|) && isa.minmax
      requires acc < isa.n && pinned[acc] && held[acc].None?
      modifies this`held, this`dirty, this`at, this`death, this`pinned, this`code, this`m
      ensures Valid(pos) && env == old(env) && pend == old(pend) && Pins(pinned) <= 2
      ensures r < isa.n && pinned[r] && held[r].None?
      ensures m.regs[r] == w.A.extremum(max, old(m.regs[acc]), Val(env, w.inputs, o))
    {
      hide Ran, Run, Tables, Inv, ReadsNow, Inverse, Pins, KeepsMem, Step;
      var t := Get(o);
      r := Fresh();
      Compute(MinMax(max, r, acc, t), r);
      ReleaseExcept([r], pos);
    }

    /** A min or max by the host, its operands in the gather area. */
    method OpExtremumHost(op: ROp, max: bool)
      requires Ready(op) && op.OReduce? && op.rop == (if max then Max else Min)
      modifies this`held, this`dirty, this`at, this`death, this`pinned, this`code, this`m, this`env
      ensures Done(op, old(env))
    {
      hide Ran, Run, Tables, Inv, HostLive, WritesOnly, ReadsNow, Done, Inverse, Pins, KeepsMem, Extremum;
      ReadyFacts(op);
      var n := |op.args|;
      GatherAt(op.args, seq(n, k requires 0 <= k < n => k), 0);
      assert m.work[lay.slots..lay.slots + n] == Vals(env, w.inputs, op.args) by {
        forall k | 0 <= k < n ensures m.work[lay.slots + k] == Val(env, w.inputs, op.args[k]) {
          assert lay.slots + k == lay.slots + 0 + seq(n, j requires 0 <= j < n => j)[k];
        }
      }
      CallInto(op, HostReduce(max, lay.slots, n), old(env));
    }

    method OpFold(op: ROp, aop: Arith, bits: Bits)
      requires Ready(op) && op.OReduce?
      requires (op.rop == Sum && aop == FAdd && bits == ZERO_BITS)
               || (op.rop == Product && aop == FMul && bits == ONE_BITS)
      modifies this`held, this`dirty, this`at, this`death, this`pinned, this`code, this`m, this`env
      ensures Done(op, old(env))
    {
      hide Ran, Run, Tables, Inv, HostLive, WritesOnly, OpOk, ReadsNow, Done, Inverse, Pins, KeepsMem, ShortFold;
      ReadyFacts(op);
      var r := FoldList(aop, bits, op.args, None);
      Finish(op, r, old(env));
    }

    method OpDot(op: ROp)
      requires Ready(op) && op.ODot?
      modifies this`held, this`dirty, this`at, this`death, this`pinned, this`code, this`m, this`env
      ensures Done(op, old(env))
    {
      hide Ran, Run, Tables, Inv, HostLive, WritesOnly, ReadsNow, Done, Inverse, Pins, KeepsMem, ShortFold, Products;
      ReadyFacts(op);
      assert forall o :: o in op.xs ==> o in Operands(op);
      assert forall o :: o in op.ys ==> o in Operands(op);
      var r := FoldList(FAdd, ZERO_BITS, op.xs, Some(op.ys));
      Finish(op, r, old(env));
    }

    // --- calls ------------------------------------------------------------------------------------

    /** A slot's value is in memory. */
    ghost predicate InMemory(o: Operand)
      reads this`m, this`env
    {
      o.Slot? ==> o.s < |env| && o.s < |m.work| && m.work[o.s] == env[o.s]
    }

    /** Afterwards every slot among `os` has its interpreter's value in memory, and nothing memory
        agreed on is lost. */
    method Publish(os: seq<Operand>)
      requires Valid(pos) && forall o :: o in os ==> ReadsNow(o) && OperandOk(o, lay.slots, |w.inputs|)
      modifies this`dirty, this`code, this`m
      ensures Valid(pos) && KeepsMem(w, old(Now()), Now())
      ensures forall o :: o in os ==> InMemory(o)
    {
      hide Ran, Run, Tables, Inv, Inverse, Pins, KeepsMem, ReadsNow;
      ghost var s0 := Now();
      KeepsMemSelf(w, s0);
      for k := 0 to |os|
        invariant Valid(pos) && KeepsMem(w, s0, Now()) && env == s0.env
        invariant forall o :: o in os ==> ReadsNow(o) && OperandOk(o, lay.slots, |w.inputs|)
        invariant forall j :: 0 <= j < k ==> InMemory(os[j])
      {
        assert os[k] in os;
        ghost var s1 := Now();
        PublishOne(os[k]);
        KeepsMemTwice(w, s0, s1, Now());
        forall j | 0 <= j < k && os[j].Slot? ensures InMemory(os[j]) {
          assert os[j] in os;
          KeepsMemAt(w, s1, Now(), os[j].s);
        }
      }
    }

    method PublishOne(o: Operand)
      requires Valid(pos) && ReadsNow(o) && OperandOk(o, lay.slots, |w.inputs|)
      modifies this`dirty, this`code, this`m
      ensures Valid(pos) && KeepsMem(w, old(Now()), Now())
      ensures InMemory(o)
    {
      hide Ran, Run, Tables, Inv, Inverse, Pins, ReadsNow, RegInv, MemInv;
      ReadFacts(o);
      ghost var s0 := Now();
      if o in at {
        HeldOf(P, w, s0, pos, o);
        var i := at[o];
        if dirty[i] {
          DirtyOf(P, w, s0, pos, i);
          Emit(Store(i, o.s));
          dirty := dirty[i := false];
          PublishKeeps(P, w, s0, Now(), pos, i);
        } else if o.Slot? {
          CleanOf(P, w, s0, pos, o.s);
        }
      } else if o.Slot? {
        MemOf(P, w, s0, pos, o.s);
      }
    }

    /** The stage's waiting calls: handed over, their blocks pending. */
    ghost predicate Waiting()
      reads this
    {
      && StageReady(w, m.work, base, wait)
      && env == CallsEval(w.A, w.lay, base, w.inputs, wait)
      && (forall x: nat :: x in pend <==> InBlocks(wait, x))
    }

    /** What a call's host routine gathers, and it can be handed over now. */
    ghost predicate CallNow(c: CallSite)
      reads this
    {
      && Valid(pos) && Waiting() && pos < |P.ops| && P.ops[pos] == OCall(c) && Pins(pinned) == 0
      && OpOk(OCall(c), lay, |w.inputs|)
      && (forall o :: o in c.args ==> ReadsNow(o) && OperandOk(o, lay.slots, |w.inputs|))
      && (forall i :: 0 <= i < |wait| ==> CallsApart(wait[i].call, c))
    }

    /** Handing call `c` over keeps the interpreter, what memory agrees on, the pending slots
        and the gather area outside the call's part. */
    ghost predicate Handing(s0: Snap<V>, c: CallSite)
      requires Config() && Sizes(w, s0) && Sizes(w, Now())
      reads this
    {
      && env == s0.env && pend == s0.pend
      && (forall x :: 0 <= x < lay.slots && s0.m.work[x] == s0.env[x] ==> m.work[x] == env[x])
      && (forall x :: 0 <= x < lay.slots && x in pend ==> m.work[x] == s0.m.work[x])
      && (forall k :: lay.slots <= k < lay.Scratch() &&
            !(lay.slots + c.gatherAt <= k < lay.slots + c.gatherAt + c.nGroups * c.nArgs)
            ==> m.work[k] == s0.m.work[k])
    }

    lemma CallDescOk(c: CallSite, table: bool)
      requires CallNow(c)
      ensures DescOk(lay, |w.inputs|, CallDesc(c, table))
    {
      hide Ran, Run, Tables, Inv, Pins, ReadsNow, Waiting, CallsApart, PlacesApart;
    }

    /** Gathered to their places, the operands are what the host reads, and nothing outside
        the call's part moved. */
    lemma Gathered(s0: Snap<V>, c: CallSite, places: seq<nat>)
      requires Config() && Sizes(w, s0) && Sizes(w, Now()) && DescOk(lay, |w.inputs|, CallDesc(c, false))
      requires |places| == |c.args| && forall k :: 0 <= k < |places| ==> places[k] == Place(c, k)
      requires env == s0.env && pend == s0.pend
      requires forall x :: 0 <= x < lay.slots && s0.m.work[x] == s0.env[x] ==> m.work[x] == env[x]
      requires forall x :: 0 <= x < lay.slots && x in pend ==> m.work[x] == s0.m.work[x]
      requires forall k :: 0 <= k < |c.args| ==>
                 lay.slots + c.gatherAt + places[k] < |m.work| && OperandOk(c.args[k], lay.slots, |w.inputs|) &&
                 m.work[lay.slots + c.gatherAt + places[k]] == Val(env, w.inputs, c.args[k])
      requires forall i :: lay.slots <= i < lay.Scratch() && Clear(places, |c.args|, lay.slots + c.gatherAt, i)
                 ==> m.work[i] == s0.m.work[i]
      ensures Handing(s0, c) && ArgsOf(w, m.work, CallDesc(c, false)) == Vals(env, w.inputs, c.args)
    {
      hide Place, Val;
      forall k | 0 <= k < |c.args| ensures ArgsOf(w, m.work, CallDesc(c, false))[k] == Val(env, w.inputs, c.args[k]) {
        assert m.work[lay.slots + c.gatherAt + places[k]] == Val(env, w.inputs, c.args[k]);
      }
    }

    /** A call's operands in its part of the gather area, each at its place. */
    method GatherArgs(c: CallSite)
      requires CallNow(c)
      modifies this`held, this`dirty, this`at, this`death, this`pinned, this`code, this`m
      ensures Valid(pos) && Pins(pinned) == 0 && Handing(old(Now()), c)
      ensures DescOk(lay, |w.inputs|, CallDesc(c, false))
      ensures ArgsOf(w, m.work, CallDesc(c, false)) == Vals(env, w.inputs, c.args)
    {
      hide Ran, Run, Tables, Inv, Inverse, Pins, ReadsNow, Waiting, CallsApart, Place, Handing, ArgsOf, OpOk, Clear;
      CallDescOk(c, false);
      ghost var s0 := Now();
      var places := seq(|c.args|, k requires 0 <= k < |c.args| => Place(c, k));
      GatherAt(c.args, places, c.gatherAt);
      Gathered(s0, c, places);
    }

    /** A call's operands in memory, for its table. */
    method PublishArgs(c: CallSite)
      requires CallNow(c)
      modifies this`dirty, this`code, this`m
      ensures Valid(pos) && Handing(old(Now()), c)
      ensures DescOk(lay, |w.inputs|, CallDesc(c, true))
      ensures ArgsOf(w, m.work, CallDesc(c, true)) == Vals(env, w.inputs, c.args)
    {
      hide Ran, Run, Tables, Inv, Inverse, Pins, ReadsNow, Waiting, CallsApart, Place;
      Publish(c.args);
      forall k | 0 <= k < |c.args| ensures ArgsOf(w, m.work, CallDesc(c, true))[k] == Val(env, w.inputs, c.args[k]) {
        assert c.args[k] in c.args && InMemory(c.args[k]);
      }
    }

    /** A call's operands where the host will find them: in its part of the gather area, or
        by a table in memory. */
    method HandOver(c: CallSite) returns (d: CallDesc)
      requires CallNow(c)
      modifies this`held, this`dirty, this`at, this`death, this`pinned, this`code, this`m
      ensures Valid(pos) && Pins(pinned) == 0 && Handing(old(Now()), c)
      ensures d == CallDesc(c, |c.args| >= GATHER_TABLE) && DescOk(lay, |w.inputs|, d)
      ensures ArgsOf(w, m.work, d) == Vals(env, w.inputs, c.args)
    {
      hide Valid, Handing, DescOk, ArgsOf, Pins, CallsApart, Waiting;
      d := CallDesc(c, |c.args| >= GATHER_TABLE);
      if d.table { PublishArgs(c); } else { GatherArgs(c); }
    }

    /** The call joins its stage's waiting ones. */
    lemma Joined(s0: Snap<V>, c: CallSite, d: CallDesc)
      requires Config() && Sizes(w, s0) && Sizes(w, Now()) && StageReady(w, s0.m.work, base, wait)
      requires s0.env == CallsEval(w.A, w.lay, base, w.inputs, wait) && Handing(s0, c)
      requires forall x: nat :: x in s0.pend <==> InBlocks(wait, x)
      requires forall i :: 0 <= i < |wait| ==> CallsApart(wait[i].call, c)
      requires d.call == c && DescOk(lay, |w.inputs|, d)
      requires ArgsOf(w, m.work, d) == Vals(env, w.inputs, c.args)
      requires forall x :: 0 <= x < lay.slots && InState(c, x) ==> m.work[x] == env[x]
      ensures StageReady(w, m.work, base, wait + [d])
      ensures CallsEval(w.A, w.lay, base, w.inputs, wait + [d]) == CallEval(w.A, env, w.inputs, c)
    {
      hide Inv, Ran, Run, Tables, HandedOver, CallEval, CallsEval, ArgsOf, Place;
      forall i | 0 <= i < |wait| ensures HandedOver(w, m.work, base, wait[i]) {
        assert CallsApart(wait[i].call, c);
        HandedKept(w, s0, Now(), base, wait, wait[i]);
      }
      assert HandedOver(w, m.work, env, d) by { HandedIs(w, m.work, env, d); }
      HandedJoins(w, m.work, env, base, wait, d);
    }

    /** A main phase's state block is in memory when it is called: nothing pending covers it. */
    lemma StatesInMemory(c: CallSite)
      requires CallNow(c)
      ensures forall x :: 0 <= x < lay.slots && InState(c, x) ==> m.work[x] == env[x]
    {
      hide Ran, Run, Tables, Inv, Live, RegInv;
      forall x | 0 <= x < lay.slots && InState(c, x) ensures m.work[x] == env[x] {
        forall i | 0 <= i < |wait| ensures !InBlock(wait[i].call, x) { assert CallsApart(wait[i].call, c); }
        assert !InBlocks(wait, x);
        assert HostRead(P, x, pos, pos);
        StateOf(P, w, Now(), pos, x);
      }
    }

    /** A call's operands handed over, the call joining its stage. */
    method Join(c: CallSite) returns (d: CallDesc)
      requires CallNow(c)
      modifies this`held, this`dirty, this`at, this`death, this`pinned, this`code, this`m, this`base
      ensures Valid(pos) && env == old(env) && pend == old(pend) && Pins(pinned) == 0
      ensures d.call == c && DescOk(lay, |w.inputs|, d) && |base| == lay.slots
      ensures c.state + StateWidth(c) <= lay.slots
      ensures StageReady(w, m.work, base, wait + [d])
      ensures CallsEval(w.A, w.lay, base, w.inputs, wait + [d]) == CallEval(w.A, env, w.inputs, c)
      ensures DescsOk(lay, |w.inputs|, wait) && env == CallsEval(w.A, lay, base, w.inputs, wait)
      ensures forall x: nat :: x in pend <==> InBlocks(wait, x)
      ensures old(wait) != [] ==> base == old(base)
    {
      hide Ran, Run, Tables, Inv, Inverse, ReadsNow, HandedOver, CallEval, CallsEval, ArgsOf, Place, RegInv,
           CallsApart, Pins;
      assert Waiting();
      if wait == [] {
        NoneWaiting();
        base := env;
      }
      StatesInMemory(c);
      ghost var s0 := Now();
      d := HandOver(c);
      Joined(s0, c, d);
    }

    lemma NoneWaiting()
      requires Config() && Sizes(w, Now()) && Waiting() && wait == []
      ensures env == base && pend == {}
      ensures StageReady(w, m.work, env, []) && CallsEval(w.A, w.lay, env, w.inputs, []) == env
    {
      hide Inv, Ran, Run, Tables;
      forall x: nat ensures x !in pend { assert !InBlocks([], x); }
    }

    /** A call whose host call its stage's last makes: it waits. */
    method OpDeferred(c: CallSite)
      requires CallNow(c) && Suffix(wait, descs)
      modifies this`held, this`dirty, this`at, this`death, this`pinned, this`code, this`m, this`env,
               this`descs, this`base, this`wait, this`pend
      ensures Valid(pos + 1) && Waiting() && env == CallEval(w.A, old(env), w.inputs, c)
      ensures |wait| == |old(wait)| + 1 && wait[..|old(wait)|] == old(wait) && wait[|old(wait)|].call == c
      ensures Suffix(wait, descs)
    {
      hide Ran, Run, Tables, Inv, Inverse, ReadsNow, StageReady, CallEval, CallsEval, CallsApart, DescOk, OpOk;
      ghost var e0 := env;
      var d := Join(c);
      ghost var s0 := Now();
      descs := descs + [d];
      ghost var block := BlockOf(c);
      env := CallEval(w.A, env, w.inputs, c);
      pend := pend + block;
      forall x: nat ensures x in pend <==> InBlocks(wait + [d], x) { BlocksJoin(wait, d, x); }
      DeferStep(s0, c, block);
      wait := wait + [d];
    }

    lemma DeferStep(s0: Snap<V>, c: CallSite, block: set<nat>)
      requires Config() && Sizes(w, s0) && Sizes(w, Now()) && Inv(P, w, s0, pos)
      requires pos < |P.ops| && P.ops[pos] == OCall(c) && OpOk(OCall(c), lay, |w.inputs|)
      requires Now() == s0.(env := env, pend := s0.pend + block) && env == CallEval(w.A, s0.env, w.inputs, c)
      requires forall x: nat :: x in block <==> InBlock(c, x)
      ensures Inv(P, w, Now(), pos + 1)
    {
      hide Inv, Ran, Run, Tables;
      DeferKeeps(P, w, s0, Now(), pos, block);
    }

    ghost static predicate Suffix(wait: seq<CallDesc>, descs: seq<CallDesc>) {
      |wait| <= |descs| && descs[|descs| - |wait|..] == wait
    }

    /** No register holds a slot of `dst .. dst + n` any longer; every other entry of the cache
        stays. */
    method Invalidate(dst: nat, n: nat)
      requires Config() && Sizes(w, Now()) && Inverse(w, Now())
      modifies this`held, this`dirty, this`at
      ensures Sizes(w, Now()) && Inverse(w, Now())
      ensures forall i :: 0 <= i < isa.n ==> DropsOnly(w, old(Now()), Now(), i, dst, n)
      ensures forall x :: dst <= x < dst + n ==> Slot(x) !in at
    {
      hide Ran, Run, Tables, Inv, RegInv, MemInv;
      ghost var s0 := Now();
      for x := dst to dst + n
        invariant Sizes(w, Now()) && Inverse(w, Now())
        invariant forall i :: 0 <= i < isa.n ==> DropsOnly(w, s0, Now(), i, dst, n)
        invariant forall y :: dst <= y < x ==> Slot(y) !in at
      {
        if Slot(x) in at {
          var i := at[Slot(x)];
          ghost var s1 := Now();
          assert DropsOnly(w, s0, s1, i, dst, n);
          at, held, dirty := at - {Slot(x)}, held[i := None], dirty[i := false];
          forall j | 0 <= j < isa.n ensures DropsOnly(w, s0, Now(), j, dst, n) {
            assert DropsOnly(w, s0, s1, j, dst, n);
          }
        }
      }
    }

    /** Every waiting call's outputs invalidated. */
    method InvalidateAll(ds: seq<CallDesc>)
      requires Config() && Sizes(w, Now()) && Inverse(w, Now())
      modifies this`held, this`dirty, this`at
      ensures Sizes(w, Now()) && Inverse(w, Now())
      ensures forall i :: 0 <= i < isa.n ==> DropsIn(w, old(Now()), Now(), i, ds)
      ensures forall j, x :: 0 <= j < |ds| && InOutputs(ds[j].call, x) ==> Slot(x) !in at
    {
      hide Ran, Run, Tables, Inv, RegInv, MemInv, Inverse;
      ghost var s0 := Now();
      for k := 0 to |ds|
        invariant Sizes(w, Now()) && Inverse(w, Now())
        invariant forall i :: 0 <= i < isa.n ==> DropsIn(w, s0, Now(), i, ds)
        invariant forall j, x :: 0 <= j < k && InOutputs(ds[j].call, x) ==> Slot(x) !in at
      {
        ghost var s1 := Now();
        var c := ds[k].call;
        Invalidate(c.dst, c.nGroups * c.nOut);
        InvalidatedMore(w, s0, s1, Now(), ds, k);
        NotAtKept(w, s1, Now(), c.dst, c.nGroups * c.nOut);
      }
    }

    /** How many calls the host runs for a call: itself, or the whole stage of a last one. */
    static function StageCount(c: CallSite): nat {
      match c.stage case Last(n) => n case _ => 1
    }

    /** A call alone, or the last of its stage: the host call for all of them. */
    method OpCallNow(c: CallSite)
      requires CallNow(c) && Suffix(wait, descs) && StatesOk(P) && PlacedBefore()
      requires !c.stage.Deferred? && StageCount(c) == |wait| + 1
      modifies this`held, this`dirty, this`at, this`death, this`pinned, this`code, this`m, this`env,
               this`descs, this`base, this`wait, this`pend
      ensures Valid(pos + 1) && Waiting() && wait == [] && env == CallEval(w.A, old(env), w.inputs, c)
    {
      hide Ran, Run, Tables, Inv, Inverse, StageReady, CallEval, CallsEval, OpOk, StatesOk, KeepsMem, Pins,
           CallsApart, ReadsNow,
           StageEnds, StageRan, CallsBefore, Suffix, RegInv, MemInv;
      var all := StageTable(c);
      ghost var s1 := Now();
      ghost var e := CallEval(w.A, env, w.inputs, c);
      HostStage(all, e);
      ghost var s2 := Now();
      env := e;
      pend := {};
      StageDone(P, w, pos, wait, all, base, s1, e, s2);
      wait := [];
      base := env;
      NoneLeft();
    }

    /** The stage's descriptors, its last call's among them, all handed over. */
    method StageTable(c: CallSite) returns (all: seq<CallDesc>)
      requires CallNow(c) && Suffix(wait, descs) && PlacedBefore()
      requires !c.stage.Deferred? && StageCount(c) == |wait| + 1
      modifies this`held, this`dirty, this`at, this`death, this`pinned, this`code, this`m, this`descs, this`base
      ensures Valid(pos) && env == old(env) && pend == old(pend) && StageReady(w, m.work, base, all)
      ensures AllOk(c.args, |env|, |w.inputs|) && c.state + StateWidth(c) <= lay.slots
      ensures StageEnds(P, w, pos, wait, all, base, Now(), CallEval(w.A, env, w.inputs, c))
              && DescsOk(lay, |w.inputs|, all)
      ensures CallsEval(w.A, lay, base, w.inputs, all) == CallEval(w.A, env, w.inputs, c)
      ensures forall i :: isa.saved <= i < isa.n ==> held[i].None?
    {
      hide Ran, Run, Tables, Inv, Inverse, ReadsNow, StageReady, CallEval, CallsEval, CallsApart, KeepsMem, Pins,
           HandedOver, RegInv, MemInv, InBlocks, Apart, Placed, CallsBefore, Place, PlacesApart, DescOk, StageEnds;
      ghost var env0 := env;
      var d := Join(c);
      descs := descs + [d];
      all := descs[|descs| - StageCount(c)..];
      assert all == wait + [d];
      ghost var s0 := Now();
      ClearUnsaved();
      StageKept(w, s0, Now(), base, wait, all);
      ReadyParts(w, m.work, base, all);
      assert CallsBefore(P, pos, wait);
      EndsOf(P, w, pos, c, wait, all, base, Now());
    }

    /** The waiting calls are the ops right before the current one. */
    ghost predicate PlacedBefore()
      reads this`pos, this`wait
    { CallsBefore(P, pos, wait) }

    lemma NoneLeft()
      requires Config() && Sizes(w, Now()) && wait == [] && base == env && pend == {}
      ensures Waiting()
    {
      hide Inv, Ran, Run, Tables;
      forall x: nat ensures !InBlocks([], x) {}
    }

    /** The host call of a stage, and every register holding what it wrote forgotten. */
    method HostStage(all: seq<CallDesc>, ghost e: seq<V>)
      requires Valid(pos) && StageReady(w, m.work, base, all) && e == CallsEval(w.A, lay, base, w.inputs, all)
      requires forall i :: isa.saved <= i < isa.n ==> held[i].None?
      modifies this`held, this`dirty, this`at, this`code, this`m
      ensures Config() && Sizes(w, Now()) && Ran() && StageRan(w, all, e, old(Now()), Now())
    {
      hide Run, Tables, Inv, Inverse, HandedOver, Apart, CallsEval, RunCalls, Pins, Ran, StageReady, InOutputs,
           DescOk, StageWrote,
           RegInv, MemInv;
      ghost var s1 := Now();
      ReadyParts(w, m.work, base, all);
      StageScratched(w, m, base, all);
      InverseOf(P, w, s1, pos);
      Emit(HostCalls(all));
      HostStageStep(all, e, s1);
      InverseSame(w, s1, Now());
      ghost var s2 := Now();
      InvalidateAll(all);
      RanAfter(w, all, e, s1, s2, Now());
    }

    lemma HostStageStep(all: seq<CallDesc>, e: seq<V>, s1: Snap<V>)
      requires Config() && Sizes(w, Now()) && Sizes(w, s1) && StageReady(w, Scratched(w, s1.m), base, all)
      requires InstrOk(isa, lay, |w.inputs|, HostCalls(all)) && m == Step(w, HostCalls(all), s1.m)
      requires e == CallsEval(w.A, lay, base, w.inputs, all)
      requires forall i :: isa.saved <= i < isa.n ==> s1.held[i].None?
      ensures forall x :: 0 <= x < lay.slots ==> StageWrote(w, all, e, s1, Now(), x)
      ensures forall i :: 0 <= i < isa.n && s1.held[i].Some? ==> m.regs[i] == s1.m.regs[i]
    {
      hide Run, Tables, Inv, Inverse, HandedOver, Apart, CallsEval, RunCalls, Ran, InBlocks;
      assert m.work == RunCalls(w, Scratched(w, s1.m), s1.m.clock, all);
      forall x | 0 <= x < lay.slots ensures StageWrote(w, all, e, s1, Now(), x) {
        ScratchedAt(w, s1.m, x);
        StageRuns(w, Scratched(w, s1.m), s1.m.clock, base, all, x);
      }
    }

    // --- kernels -----------------------------------------------------------------------------------

    /** Whatever of a run of slots the cache still owes to memory, written back. */
    method DropRun(s: nat, n: nat)
      requires Valid(pos) && Pins(pinned) == 0 && s + n <= lay.slots
      requires forall x :: s <= x < s + n ==> ReadsNow(Slot(x))
      modifies this`held, this`dirty, this`at, this`code, this`m
      ensures Valid(pos) && KeepsMem(w, old(Now()), Now())
      ensures forall x :: s <= x < s + n ==> m.work[x] == env[x]
    {
      hide Ran, Run, Tables, Inv, Inverse, Pins, KeepsMem, ReadsNow, RegInv, MemInv;
      ghost var s0 := Now();
      KeepsMemSelf(w, s0);
      for x := s to s + n
        invariant Valid(pos) && KeepsMem(w, s0, Now()) && env == s0.env && pend == s0.pend
        invariant forall y :: s <= y < s + n ==> ReadsNow(Slot(y))
        invariant forall y :: s <= y < x ==> m.work[y] == env[y]
      {
        ghost var s1 := Now();
        if Slot(x) in at {
          AtOf(P, w, s1, pos, Slot(x));
          DropIndex(at[Slot(x)]);
        }
        Dropped(s0, s1, s, x);
      }
    }

    /** A slot no register holds is in memory where the current op reads it. */
    lemma Dropped(s0: Snap<V>, s1: Snap<V>, s: nat, x: nat)
      requires Config() && Sizes(w, Now()) && Ran() && Inv(P, w, Now(), pos) && s <= x < lay.slots
      requires ReadsNow(Slot(x)) && Slot(x) !in at
      requires Sizes(w, s0) && Sizes(w, s1) && KeepsMem(w, s0, s1) && (Now() == s1 || KeepsMem(w, s1, Now()))
      requires forall y :: s <= y < x ==> s1.m.work[y] == s1.env[y]
      ensures KeepsMem(w, s0, Now()) && forall y :: s <= y <= x ==> m.work[y] == env[y]
    {
      hide Ran, Run, Tables, Inv, Inverse, ReadsNow;
      KeepsMemTwice(w, s0, s1, Now());
      ReadFacts(Slot(x));
      MemOf(P, w, Now(), pos, x);
    }

    /** A kernel operand's place: in place, or gathered from `top` on. */
    method DenseArg(d: Dense, len: nat, top: nat) returns (p: PlaceAt, next: nat)
      requires Valid(pos) && Pins(pinned) == 0 && DenseOk(d, len, lay.slots, |w.inputs|)
      requires forall o :: o in DenseSlots(d) ==> ReadsNow(o) && OperandOk(o, lay.slots, |w.inputs|)
      requires top + GatheredLen(d) <= lay.gatherLen
      modifies this`held, this`dirty, this`at, this`death, this`pinned, this`code, this`m
      ensures Valid(pos) && env == old(env) && pend == old(pend) && Pins(pinned) == 0
      ensures next == top + GatheredLen(d) && DenseAt(w, Now(), p, DenseVals(env, w.inputs, d, len), next)
      ensures forall x :: 0 <= x < lay.slots && old(m.work[x] == env[x]) ==> m.work[x] == env[x]
      ensures forall k :: lay.slots <= k < lay.slots + top ==> m.work[k] == old(m.work[k])
    {
      hide Ran, Run, Tables, Inv, Inverse, Pins, ReadsNow, RegInv, MemInv;
      match d
      case DInputs(k) =>
        p, next := InInputs(k, len), top;
      case DRun(s, n) =>
        forall x | s <= x < s + n ensures ReadsNow(Slot(x)) { assert DenseSlots(d)[x - s] == Slot(x); }
        DropRun(s, n);
        p, next := InWork(s, n), top;
        assert m.work[s..s + n] == env[s..s + n];
      case DSlots(list) =>
        GatherList(list, top);
        p, next := InWork(lay.slots + top, len), top + len;
    }

    /** A list of operands gathered in order. */
    method GatherList(os: seq<Operand>, top: nat)
      requires Valid(pos) && Pins(pinned) == 0 && top + |os| <= lay.gatherLen
      requires forall o :: o in os ==> ReadsNow(o) && OperandOk(o, lay.slots, |w.inputs|)
      modifies this`held, this`dirty, this`at, this`death, this`pinned, this`code, this`m
      ensures Valid(pos) && env == old(env) && pend == old(pend) && Pins(pinned) == 0
      ensures m.work[lay.slots + top..lay.slots + top + |os|] == Vals(env, w.inputs, os)
      ensures forall x :: 0 <= x < lay.slots && old(m.work[x] == env[x]) ==> m.work[x] == env[x]
      ensures forall k :: lay.slots <= k < lay.slots + top ==> m.work[k] == old(m.work[k])
    {
      hide Ran, Run, Tables, Inv, Inverse, Pins, ReadsNow;
      var places := seq(|os|, k requires 0 <= k < |os| => k);
      GatherAt(os, places, top);
      forall k | 0 <= k < |os| ensures m.work[lay.slots + top + k] == Val(env, w.inputs, os[k]) {
        assert places[k] == k;
      }
    }

    /** Every operand of a kernel in its place. */
    method DenseArgs(ds: seq<(Dense, nat)>) returns (ps: seq<PlaceAt>)
      requires Valid(pos) && Pins(pinned) == 0 && KernelOk(ds, lay.slots, |w.inputs|)
      requires forall o :: o in KernelSlots(ds) ==> ReadsNow(o) && OperandOk(o, lay.slots, |w.inputs|)
      requires GatheredSum(ds) <= lay.gatherLen
      modifies this`held, this`dirty, this`at, this`death, this`pinned, this`code, this`m
      ensures Valid(pos) && env == old(env) && pend == old(pend) && Pins(pinned) == 0
      ensures |ps| == |ds|
      ensures forall i :: 0 <= i < |ds| ==> DenseAt(w, Now(), ps[i], KernelVals(env, w.inputs, ds)[i], lay.gatherLen)
    {
      hide Ran, Run, Tables, Inv, Inverse, Pins, ReadsNow, DenseAt, DenseVals, KernelOk;
      ps := [];
      var top: nat := 0;
      for i := 0 to |ds|
        invariant Valid(pos) && env == old(env) && pend == old(pend) && Pins(pinned) == 0
        invariant |ps| == i && top + GatheredSum(ds[i..]) == GatheredSum(ds)
        invariant forall o :: o in KernelSlots(ds) ==> ReadsNow(o) && OperandOk(o, lay.slots, |w.inputs|)
        invariant forall j :: 0 <= j < i ==> DenseAt(w, Now(), ps[j], KernelVals(env, w.inputs, ds)[j], top)
      {
        KernelOkAt(w, env, ds, i);
        ghost var s0, top0: nat := Now(), top;
        var p, next: nat := DenseArg(ds[i].0, ds[i].1, top);
        DensesKept(w, s0, Now(), ds, ps, top0, next);
        assert ds[i..][1..] == ds[i + 1..];
        ps, top := ps + [p], next;
      }
      DenseTop(w, Now(), ds, ps, top);
    }

    /** A kernel's host call, and every register holding what it wrote forgotten. */
    method HostKernelCall(k: KernelSite, ps: seq<PlaceAt>, ghost e: seq<V>)
      requires Valid(pos) && KernelOk(k.operands, lay.slots, |w.inputs|) && e == KernelEval(w.A, env, w.inputs, k)
      requires k.dst + KernelWidth(k.kind) <= lay.slots && |ps| == |k.operands|
      requires forall j :: 0 <= j < |ps| ==>
               DenseAt(w, Now(), ps[j], KernelVals(env, w.inputs, k.operands)[j], lay.gatherLen)
      requires forall i :: isa.saved <= i < isa.n ==> held[i].None?
      modifies this`held, this`dirty, this`at, this`code, this`m
      ensures Config() && Sizes(w, Now()) && Ran()
      ensures KernelRan(w, k.dst, KernelWidth(k.kind), e, old(Now()), Now())
    {
      hide Run, Tables, Inv, Inverse, Pins, Ran, KernelVals, KernelOk, RegInv, MemInv, KernelRan, DenseVals,
           DropsOnly, KernelEval;
      ghost var s1 := Now();
      InverseOf(P, w, s1, pos);
      var i := HostKernel(KernelRoutine(k), ps, k.dst, KernelWidth(k.kind));
      assert InstrOk(isa, lay, |w.inputs|, i) by {
        forall p | p in ps ensures PlaceOk(lay, |w.inputs|, p) {
          var j :| 0 <= j < |ps| && ps[j] == p;
          assert DenseAt(w, s1, ps[j], KernelVals(env, w.inputs, k.operands)[j], lay.gatherLen);
        }
      }
      Emit(i);
      KernelStep(w, s1, Now(), k, ps, e);
      InverseSame(w, s1, Now());
      ghost var s2 := Now();
      Invalidate(k.dst, KernelWidth(k.kind));
      KernelAfter(w, k.dst, KernelWidth(k.kind), e, s1, s2, Now());
    }

    /** A kernel op, simulated: the operands placed, the host called, the block's slots dropped
        from the cache. */
    method OpKernel(op: ROp)
      requires Ready(op) && op.OKernel?
      modifies this`held, this`dirty, this`at, this`death, this`pinned, this`code, this`m, this`env
      ensures Done(op, old(env))
    {
      hide Ran, Run, Tables, Inv, ReadsNow, Inverse, Pins, KeepsMem, KernelVals, KernelOk, KernelEval, DenseAt,
           DenseVals,
           KernelRan, RegInv, MemInv, Done, Val;
      ReadyFacts(op);
      var k := op.kernel;
      KernelOkFromOperands(k.operands, lay.slots, |w.inputs|);
      var ps := DenseArgs(k.operands);
      ghost var s0 := Now();
      ClearUnsaved();
      ghost var s1 := Now();
      KernelReadyAfter(w, s0, s1, k, ps);
      ghost var e := KernelEval(w.A, env, w.inputs, k);
      HostKernelCall(k, ps, e);
      ghost var s2 := Now();
      env := e;
      KernelEvalElse(w, s1, k, e);
      KernelDone(P, w, pos, k.dst, KernelWidth(k.kind), e, s1, s2);
      assert s2.(env := e, pend := {}) == Now();
      KernelIs(op, old(env));
    }

    lemma KernelIs(op: ROp, before: seq<V>)
      requires op.OKernel? && Valid(pos + 1) && pend == {} && |before| == lay.slots && OpOk(op, lay, |w.inputs|)
      requires KernelOk(op.kernel.operands, lay.slots, |w.inputs|)
               && env == KernelEval(w.A, before, w.inputs, op.kernel)
      ensures Done(op, before)
    {
      hide Ran, Run, Tables, Inv, KernelEval, KernelOk;
    }

    // --- the stream ------------------------------------------------------------------------------

    method OpPowi(op: ROp)
      requires Ready(op) && op.OPowi?
      modifies this`held, this`dirty, this`at, this`death, this`pinned, this`code, this`m, this`env
      ensures Done(op, old(env))
    {
      hide Ran, Run, Tables, Inv, ReadsNow, Done, PowiVal, HostLive;
      ReadyFacts(op);
      assert op.a in Operands(op);
      if op.n == -1 {
        OpPowiRecip(op);
      } else if op.n == 2 {
        PowiOne(w.A, Val(env, w.inputs, op.a));
        Bin2(op, FMul, op.a, op.a);
      } else if op.n != 0 && AbsNat(op.n) <= POWI_INLINE {
        OpPowiInline(op);
      } else {
        OpPowiHost(op);
      }
    }

    method OpReduce(op: ROp)
      requires Ready(op) && op.OReduce?
      modifies this`held, this`dirty, this`at, this`death, this`pinned, this`code, this`m, this`env
      ensures Done(op, old(env))
    {
      hide Ran, Run, Tables, Inv, ReadsNow, Done, Ready;
      var inline := isa.minmax && 0 < |op.args| <= INLINE_MINMAX_MAX;
      match op.rop
      case Sum => OpFold(op, FAdd, ZERO_BITS);
      case Product => OpFold(op, FMul, ONE_BITS);
      case Min => if inline { OpExtremumInline(op, false); } else { OpExtremumHost(op, false); }
      case Max => if inline { OpExtremumInline(op, true); } else { OpExtremumHost(op, true); }
    }

    /** Every op but a call. */
    method OpInner(op: ROp)
      requires Ready(op) && !op.OCall?
      modifies this`held, this`dirty, this`at, this`death, this`pinned, this`code, this`m, this`env
      ensures Done(op, old(env))
    {
      hide Ran, Run, Tables, Inv, ReadsNow, Done, Ready;
      ReadyFacts(op);
      match op
      case OConst(_, _) => OpConst(op);
      case OAdd(_, a, b) => Bin2(op, FAdd, a, b);
      case OSub(_, a, b) => Bin2(op, FSub, a, b);
      case OMul(_, a, b) => Bin2(op, FMul, a, b);
      case OMulAdd(_, _, _, _) => OpMulAdd(op);
      case ONeg(_, a) => OpPrim(op, PNeg, a);
      case OPowi(_, _, _) => OpPowi(op);
      case OUnary(_, _, _) => OpUnary(op);
      case OBinary(_, _, _, _) => OpBinary(op);
      case OCmp(_, _, _, _) => OpCmp(op);
      case OSelect(_, _, _, _) => OpSelect(op);
      case OReduce(_, _, _) => OpReduce(op);
      case ODot(_, _, _) => OpDot(op);
      case OKernel(_) => OpKernel(op);
    }

    /** Before op `q`: the registers free, the calls waiting those right before it. */
    ghost predicate Between(q: nat)
      reads this
    {
      && Valid(q) && Waiting() && Suffix(wait, descs) && CallsBefore(P, q, wait)
      && q <= |P.ops| && |wait| == Trail(P.ops, q) && Pins(pinned) == 0
      && (forall i :: 0 <= i < isa.n ==> !pinned[i])
    }

    /** What the tape promises of the whole stream. */
    ghost predicate StreamOk() { StagesOk(P.ops) && StatesOk(P) }

    /** Before an op that is no call, no call waits. */
    lemma NoneWaitingAt(op: ROp)
      requires Between(pos) && StreamOk() && pos < |P.ops| && P.ops[pos] == op && !op.OCall?
      ensures wait == [] && Ready(op)
    {
      hide Ran, Run, Tables, Inv, HostLive, Trail, StageReady, CallsEval;
      assert Trail(P.ops, pos) == 0;
      NoneWaiting();
      if !HostWrites(op) { assert WriteAt(P, op.dst, pos); }
    }

    lemma CallReady(c: CallSite)
      requires Between(pos) && StreamOk() && pos < |P.ops| && P.ops[pos] == OCall(c)
      ensures CallNow(c)
      ensures !c.stage.Deferred? ==> StageCount(c) == |wait| + 1
    {
      hide Ran, Run, Tables, Inv, HostLive, StageReady, CallsEval, Trail, CallsApart, StatesOk, OpOk, Live;
      OpGiven(pos);
      OpOkCall(c);
      forall i | 0 <= i < |wait| ensures CallsApart(wait[i].call, c) {
        assert P.ops[pos - |wait| + i] == OCall(wait[i].call);
      }
      forall o | o in c.args ensures ReadsNow(o) {
        if o.Slot? && o.s in pend {
          var i :| 0 <= i < |wait| && InBlock(wait[i].call, o.s);
          Unread(wait[i].call, c, o.s);
        }
      }
    }

    static lemma Unread(c: CallSite, d: CallSite, x: nat)
      requires CallsApart(c, d) && InBlock(c, x)
      ensures Slot(x) !in d.args
    {
    }

    lemma OpOkCall(c: CallSite)
      requires OpOk(OCall(c), lay, |w.inputs|)
      ensures forall o :: o in c.args ==> o in Operands(OCall(c)) && OperandOk(o, lay.slots, |w.inputs|)
    {
    }

    /** A call: it waits for its stage's last, or the host call is made. */
    method OpCall(c: CallSite)
      requires Between(pos) && StreamOk() && pos < |P.ops| && P.ops[pos] == OCall(c)
      modifies this`held, this`dirty, this`at, this`death, this`pinned, this`code, this`m, this`env,
               this`descs, this`base, this`wait, this`pend
      ensures Valid(pos + 1) && Waiting() && Suffix(wait, descs) && CallsBefore(P, pos + 1, wait)
      ensures |wait| == Trail(P.ops, pos + 1)
      ensures |old(env)| == lay.slots && OpOk(OCall(c), lay, |w.inputs|)
      ensures env == OpEval(w.A, true, lay, old(env), w.inputs, OCall(c))
    {
      hide Ran, Run, Tables, Inv, HostLive, StageReady, CallsEval, CallsApart, StatesOk, StagesOk, ReadsNow, CallEval;
      CallReady(c);
      if c.stage.Deferred? {
        ghost var before := wait;
        OpDeferred(c);
        forall k | 0 <= k < |wait| ensures P.ops[pos + 1 - |wait| + k] == OCall(wait[k].call) {
          if k < |before| { assert wait[k] == before[k]; assert P.ops[pos - |before| + k] == OCall(before[k].call); }
        }
      } else {
        OpCallNow(c);
      }
    }

    /** An op that is no call. */
    method OpAlone(op: ROp)
      requires Between(pos) && StreamOk() && pos < |P.ops| && P.ops[pos] == op && !op.OCall?
      modifies this`held, this`dirty, this`at, this`death, this`pinned, this`code, this`m, this`env, this`base
      ensures Valid(pos + 1) && Waiting() && Suffix(wait, descs) && CallsBefore(P, pos + 1, wait)
      ensures |wait| == Trail(P.ops, pos + 1)
      ensures |old(env)| == lay.slots && OpOk(op, lay, |w.inputs|)
      ensures env == OpEval(w.A, true, lay, old(env), w.inputs, op)
    {
      hide Ran, Run, Tables, Inv, StatesOk, StagesOk, OpOk, OpEval, StageReady, CallsEval, ReadsNow, HostLive, Waiting;
      NoneWaitingAt(op);
      OpInner(op);
      base := env;
      NoneLeft();
    }

    /** One op: the interpreter's step, and the cache ready for the next. */
    method Op(op: ROp)
      requires Between(pos) && StreamOk() && pos < |P.ops| && P.ops[pos] == op
      modifies this`held, this`dirty, this`at, this`death, this`pinned, this`code, this`m, this`env,
               this`descs, this`base, this`wait, this`pend
      ensures Between(pos + 1)
      ensures |old(env)| == lay.slots && OpOk(op, lay, |w.inputs|)
              && env == OpEval(w.A, true, lay, old(env), w.inputs, op)
    {
      hide Ran, Run, Tables, Inv, StatesOk, StagesOk, OpOk, OpEval, StageReady, CallsEval, ReadsNow, Suffix,
           CallsBefore, Trail;
      if op.OCall? { OpCall(op.call); } else { OpAlone(op); }
      ReleaseExcept([], pos + 1);
    }

    lemma Start()
      requires Valid(pos) && pend == {} && wait == [] && base == env && pos <= |P.ops| && Trail(P.ops, pos) == 0
      requires forall i :: 0 <= i < isa.n ==> !pinned[i]
      ensures Between(pos)
    {
      hide Ran, Run, Tables, Inv, Trail;
      NoneLeft();
      NonePinned(pinned);
    }

    /** On to op `p`. */
    method Seek(p: nat, next: nat)
      requires Between(p)
      modifies this`pos, this`nextCall
      ensures Between(p) && pos == p && nextCall == next
    {
      hide Ran, Run, Tables, Inv, StageReady, CallsEval, Trail;
      pos, nextCall := p, next;
    }

    /** Past the chunk: what a later op reads is written back, and the cache is empty. */
    method Flush()
      requires Between(pos) && Trail(P.ops, pos) == 0
      modifies this`held, this`dirty, this`at, this`code, this`m
      ensures Valid(pos) && env == old(env)
      ensures CodeOk(isa, lay, |w.inputs|, code) && m == Run(w, code, m0)
      ensures forall x :: 0 <= x < lay.slots && (Live(P, x, pos) || HostLive(P, x, pos)) ==> m.work[x] == env[x]
      ensures forall x :: 0 <= x < lay.slots && x in kept ==> m.work[x] == kept[x]
    {
      hide Run, Tables, Inv, Inverse, Pins, KeepsMem, RegInv, MemInv, StageReady, CallsEval;
      NoneWaiting();
      for i := 0 to isa.n
        invariant Valid(pos) && env == old(env) && pend == {} && pos == old(pos)
        invariant forall j :: 0 <= j < i ==> held[j].None?
      {
        DropIndex(i);
      }
      forall x | 0 <= x < lay.slots && (Live(P, x, pos) || HostLive(P, x, pos)) ensures m.work[x] == env[x] {
        Flushed(P, w, Now(), pos, x);
      }
      forall x | 0 <= x < lay.slots && x in kept ensures m.work[x] == kept[x] { KeptOf(P, w, Now(), pos, x); }
    }
  }

  // --- chunks --------------------------------------------------------------------------------------

  /** Whether an op calls a host routine. */
  predicate CallsHost(isa: Isa, op: ROp) {
    match op
    case OUnary(_, u, _) => u.Coded? || ((u.Exp? || u.Ln?) && !isa.expLnInline)
    case OBinary(_, _, _, _) => true
    case OPowi(_, _, n) => n == 0 || AbsNat(n) > POWI_INLINE
    case OReduce(_, r, args) => (r.Min? || r.Max?) && !(isa.minmax && 0 < |args| <= INLINE_MINMAX_MAX)
    case OCall(_) => true
    case OKernel(_) => true
    case _ => false
  }

  /** `n` is the index in the stream of the first op from `k` on that calls a host routine,
      or `END` if none does. */
  ghost predicate NextCallIs(isa: Isa, ops: seq<ROp>, start: nat, k: nat, n: nat) {
    && start + k <= n
    && (n != END ==> n < start + |ops| && CallsHost(isa, ops[n - start]))
    && (forall j :: k <= j < |ops| && start + j < n ==> !CallsHost(isa, ops[j]))
  }

  lemma NextCallBack(isa: Isa, ops: seq<ROp>, start: nat, k: nat, after: nat)
    requires k < |ops| && start + |ops| < END && NextCallIs(isa, ops, start, k + 1, after)
    ensures NextCallIs(isa, ops, start, k, if CallsHost(isa, ops[k]) then start + k else after)
  {
    hide CallsHost;
  }

  /** The position of the next host call, for every op of the chunk and its end. */
  method NextCalls(isa: Isa, ops: seq<ROp>, start: nat) returns (next: seq<nat>)
    requires start + |ops| < END
    ensures |next| == |ops| + 1
    ensures forall k :: 0 <= k <= |ops| ==> NextCallIs(isa, ops, start, k, next[k])
  {
    var table := new nat[|ops| + 1](_ => END);
    assert NextCallIs(isa, ops, start, |ops|, END);
    hide NextCallIs, CallsHost;
    for k := |ops| downto 0
      invariant forall i :: k <= i <= |ops| ==> NextCallIs(isa, ops, start, i, table[i])
    {
      var after := table[k + 1];
      NextCallBack(isa, ops, start, k, after);
      table[k] := if CallsHost(isa, ops[k]) then start + k else after;
    }
    next := table[..];
  }

  /** The code of one chunk of the stream: from a memory that agrees with the interpreter's
      slots `env` before the chunk's first op to one that agrees with it after the last. */
  method EmitChunk<V>(isa: Isa, lay: Layout, live: Liveness, ops: seq<ROp>, start: nat,
                      ghost P: Program, ghost w: World<V>, ghost m0: Mach<V>, ghost env: seq<V>)
    returns (code: seq<Instr>, descs: seq<CallDesc>)
    requires w.isa == isa && w.lay == lay && isa.Ok() && isa.n >= PIN_ROOM
    requires live.Exact(P, lay.slots) && ProgramOk(P, lay, |w.inputs|)
    requires start + |ops| <= |P.ops| && ops == P.ops[start..start + |ops|]
    requires Trail(P.ops, start) == 0 && Trail(P.ops, start + |ops|) == 0
    requires Shaped(w, m0) && |env| == lay.slots && Agrees(P, lay, m0.work, env, start)
    ensures CodeOk(isa, lay, |w.inputs|, code)
    ensures forall i :: 0 <= i < |ops| ==> OpOk(ops[i], lay, |w.inputs|)
    ensures Agrees(P, lay, Run(w, code, m0).work, Interp(w.A, true, lay, env, w.inputs, ops, |ops|), start + |ops|)
    ensures Untouched(P, lay, m0.work, Run(w, code, m0).work, start)
  {
    hide Interp, Run, OpOk, OpEval, StagesOk, StatesOk, Live, HostLive, Trail, CallsHost, Emitter.Ran,
         Emitter.Between, Inv,
         Unwritten;
    forall i | 0 <= i < |ops| ensures OpOk(ops[i], lay, |w.inputs|) { assert ops[i] == P.ops[start + i]; }
    var next := NextCalls(isa, ops, start);
    var e := new Emitter(isa, lay, live, start, P, w, m0, env);
    ghost var kept := e.kept;
    e.Start();
    InterpNone(w.A, lay, env, w.inputs, ops);
    for k := 0 to |ops|
      invariant e.isa == isa && e.lay == lay && e.live == live && e.P == P && e.w == w && e.m0 == m0 && e.kept == kept
      invariant e.Between(start + k)
      invariant e.env == Interp(w.A, true, lay, env, w.inputs, ops, k)
      invariant fresh(e)
    {
      e.Seek(start + k, next[k]);
      e.Op(ops[k]);
      InterpNext(w.A, lay, env, w.inputs, ops, k);
    }
    e.Seek(start + |ops|, next[|ops|]);
    e.Flush();
    code, descs := e.code, e.descs;
  }
}
