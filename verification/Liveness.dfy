/** Tables answering, for a slot and a position in the stream, where the next read is and where
    the value there dies; proved exact against the op stream itself. */
module LivenessTables {
  import opened OpStream

  /** Reads of the program's outputs happen after every op. */
  const END: nat := 0xFFFF_FFFF

  /** The program: its ops, and the slots read after them. */
  datatype Program = Program(ops: seq<ROp>, outputs: seq<nat>)

  ghost predicate ReadAt(P: Program, s: nat, q: nat) {
    || (q < |P.ops| && Slot(s) in Operands(P.ops[q]))
    || (q == END && s in P.outputs)
  }

  ghost predicate WriteAt(P: Program, s: nat, q: nat) {
    q < |P.ops| && WritesSlot(P.ops[q], s)
  }

  ghost predicate NoWrite(P: Program, s: nat, from: nat, to: nat) {
    forall q: nat :: from <= q < to ==> !WriteAt(P, s, q)
  }

  /** Op `q` (or the end) reads the value slot `s` holds before op `from`. */
  ghost predicate LiveRead(P: Program, s: nat, from: nat, q: nat) {
    from <= q && ReadAt(P, s, q) && NoWrite(P, s, from, q)
  }

  /** The value slot `s` holds before op `from` is still read. */
  ghost predicate Live(P: Program, s: nat, from: nat) {
    exists q: nat :: LiveRead(P, s, from, q)
  }

  // --- events --------------------------------------------------------------------

  datatype Event = Event(slot: nat, pos: nat)

  /** The slots among operands, in order. */
  function SlotsOf(os: seq<Operand>): seq<nat> {
    if os == [] then []
    else match os[0]
         case Slot(s) => [s] + SlotsOf(os[1..])
         case Input(_) => SlotsOf(os[1..])
  }

  function At(slots: seq<nat>, pos: nat): (r: seq<Event>)
    ensures |r| == |slots|
  {
    seq(|slots|, i requires 0 <= i < |slots| => Event(slots[i], pos))
  }

  function Block(dst: nat, n: nat): seq<nat> { seq(n, i requires 0 <= i < n => dst + i) }

  /** The events of a stream whose op `i` touches the slots `lists[i]`, up to op `n`. */
  function Stream(lists: seq<seq<nat>>, n: nat): seq<Event>
    requires n <= |lists|
  {
    if n == 0 then [] else Stream(lists, n - 1) + At(lists[n - 1], n - 1)
  }

  function ReadLists(ops: seq<ROp>): (r: seq<seq<nat>>)
    ensures |r| == |ops|
  {
    seq(|ops|, i requires 0 <= i < |ops| => SlotsOf(Operands(ops[i])))
  }

  function WriteLists(ops: seq<ROp>): (r: seq<seq<nat>>)
    ensures |r| == |ops|
  {
    seq(|ops|, i requires 0 <= i < |ops| => Block(Dst(ops[i]), Width(ops[i])))
  }

  /** The positions of slot `s`'s events, in order. */
  function Positions(ev: seq<Event>, s: nat): seq<nat> {
    if ev == [] then []
    else
      var last := |ev| - 1;
      Positions(ev[..last], s) + (if ev[last].slot == s then [ev[last].pos] else [])
  }

  lemma PositionsGrow(ev: seq<Event>, k: nat, s: nat)
    requires k < |ev|
    ensures Positions(ev[..k + 1], s) == Positions(ev[..k], s) + (if ev[k].slot == s then [ev[k].pos] else [])
  {
    assert ev[..k + 1][..k] == ev[..k];
  }

  lemma {:induction false} PositionsPrefix(ev: seq<Event>, k: nat, s: nat)
    requires k <= |ev|
    ensures |Positions(ev[..k], s)| <= |Positions(ev, s)|
    decreases |ev| - k
  {
    if k == |ev| {
      assert ev[..k] == ev;
    } else {
      PositionsGrow(ev, k, s);
      PositionsPrefix(ev, k + 1, s);
    }
  }

  lemma {:induction false} PositionsConcat(a: seq<Event>, b: seq<Event>, s: nat)
    ensures Positions(a + b, s) == Positions(a, s) + Positions(b, s)
    decreases |b|
  {
    if b == [] {
      assert a + b == a;
    } else {
      var last := |b| - 1;
      assert (a + b)[..|a + b| - 1] == a + b[..last];
      PositionsConcat(a, b[..last], s);
    }
  }

  lemma {:induction false} PositionsMember(ev: seq<Event>, s: nat, q: nat)
    ensures q in Positions(ev, s) <==> Event(s, q) in ev
  {
    if ev != [] {
      var last := |ev| - 1;
      PositionsMember(ev[..last], s, q);
      assert ev == ev[..last] + [ev[last]];
    }
  }

  predicate Ascending(xs: seq<nat>) {
    forall i, j :: 0 <= i < j < |xs| ==> xs[i] <= xs[j]
  }

  // --- the tables ------------------------------------------------------------------

  ghost predicate SlotsIn(ev: seq<Event>, n: nat) { forall i :: 0 <= i < |ev| ==> ev[i].slot < n }

  /** How many events are of slots below `s`. */
  function Before(ev: seq<Event>, s: nat): nat {
    if s == 0 then 0 else Before(ev, s - 1) + |Positions(ev, s - 1)|
  }

  lemma {:induction false} BeforeGrows(ev: seq<Event>, s: nat, t: nat)
    requires s <= t
    ensures Before(ev, s) <= Before(ev, t)
    decreases t - s
  {
    if s < t { BeforeGrows(ev, s, t - 1); }
  }

  lemma OffsetsGrow(start: seq<nat>, n: nat, ev: seq<Event>, s: nat)
    requires Offsets(start, n, ev) && s <= n
    ensures start[s] <= start[n]
  {
    BeforeGrows(ev, s, n);
  }

  ghost predicate Offsets(start: seq<nat>, n: nat, ev: seq<Event>) {
    && |start| == n + 1
    && forall s :: 0 <= s <= n ==> start[s] == Before(ev, s)
  }

  /** The counting pass: how many events each slot has, shifted by one. */
  method CountEvents(n: nat, ev: seq<Event>) returns (start: array<nat>)
    requires SlotsIn(ev, n)
    ensures fresh(start) && start.Length == n + 1 && start[0] == 0
    ensures forall t :: 1 <= t <= n ==> start[t] == |Positions(ev, t - 1)|
  {
    start := new nat[n + 1](_ => 0);
    for k := 0 to |ev|
      invariant start[0] == 0
      invariant forall t :: 1 <= t <= n ==> start[t] == |Positions(ev[..k], t - 1)|
    {
      var s := ev[k].slot;
      forall t | 0 <= t < n
        ensures |Positions(ev[..k + 1], t)| == |Positions(ev[..k], t)| + (if t == s then 1 else 0)
      {
        PositionsGrow(ev, k, t);
      }
      start[s + 1] := start[s + 1] + 1;
    }
    assert ev[..|ev|] == ev;
  }

  /** The offsets: how many events come before each slot's. */
  method PrefixSums(n: nat, ev: seq<Event>, start: array<nat>)
    requires start.Length == n + 1 && start[0] == 0
    requires forall t :: 1 <= t <= n ==> start[t] == |Positions(ev, t - 1)|
    modifies start
    ensures Offsets(start[..], n, ev)
  {
    for s := 0 to n
      invariant start[0] == 0
      invariant forall t :: 0 <= t <= s ==> start[t] == Before(ev, t)
      invariant forall t :: s < t <= n ==> start[t] == |Positions(ev, t - 1)|
    {
      start[s + 1] := start[s + 1] + start[s];
    }
  }

  /** `at[lo..hi]` holds `xs`. */
  ghost predicate Stretch(at: seq<nat>, lo: nat, hi: nat, xs: seq<nat>) {
    lo <= hi <= |at| && at[lo..hi] == xs
  }

  /** What the first `k` events fill: each slot's stretch so far. */
  ghost predicate Filled(at: seq<nat>, start: seq<nat>, fill: seq<nat>, n: nat, ev: seq<Event>, k: nat)
    requires k <= |ev|
  {
    && |start| == n + 1 && |fill| == n
    && forall s :: 0 <= s < n ==> Stretch(at, start[s], fill[s], Positions(ev[..k], s))
  }

  lemma FillRoom(start: seq<nat>, fill: seq<nat>, at: seq<nat>, n: nat, ev: seq<Event>, k: nat, s: nat)
    requires k < |ev| && Offsets(start, n, ev) && Filled(at, start, fill, n, ev, k) && s < n
    ensures fill[s] + (if ev[k].slot == s then 1 else 0) <= start[s + 1]
  {
    PositionsGrow(ev, k, s);
    PositionsPrefix(ev, k + 1, s);
    assert Stretch(at, start[s], fill[s], Positions(ev[..k], s));
    assert start[s + 1] == Before(ev, s + 1);
  }

  lemma StretchOther(at: seq<nat>, lo: nat, hi: nat, xs: seq<nat>, p: nat, v: nat)
    requires Stretch(at, lo, hi, xs) && p < |at| && (p < lo || hi <= p)
    ensures Stretch(at[p := v], lo, hi, xs)
  {
    assert at[p := v][lo..hi] == at[lo..hi];
  }

  lemma StretchGrow(at: seq<nat>, lo: nat, hi: nat, xs: seq<nat>, v: nat)
    requires Stretch(at, lo, hi, xs) && hi < |at|
    ensures Stretch(at[hi := v], lo, hi + 1, xs + [v])
  {
    assert at[hi := v][lo..hi + 1] == at[lo..hi] + [v];
  }

  lemma FillSlot(start: seq<nat>, fill: seq<nat>, at: seq<nat>, n: nat, ev: seq<Event>, k: nat)
    requires k < |ev| && Offsets(start, n, ev) && Filled(at, start, fill, n, ev, k)
    requires |at| == start[n] && ev[k].slot < n
    ensures fill[ev[k].slot] < |at|
  {
    var s := ev[k].slot;
    FillRoom(start, fill, at, n, ev, k, s);
    OffsetsGrow(start, n, ev, s + 1);
  }

  /** Two slots' stretches are apart. */
  lemma FillApart(start: seq<nat>, fill: seq<nat>, at: seq<nat>, n: nat, ev: seq<Event>, k: nat, t: nat)
    requires k < |ev| && Offsets(start, n, ev) && Filled(at, start, fill, n, ev, k)
    requires |at| == start[n] && ev[k].slot < n && t < n && t != ev[k].slot
    ensures fill[ev[k].slot] < start[t] || fill[t] <= fill[ev[k].slot]
  {
    hide Positions, Before, Stretch;
    var s := ev[k].slot;
    if t < s {
      FillRoom(start, fill, at, n, ev, k, t);
      BeforeGrows(ev, t + 1, s);
      StretchLeq(start, fill, at, n, ev, k, s);
    } else {
      FillRoom(start, fill, at, n, ev, k, s);
      BeforeGrows(ev, s + 1, t);
    }
  }

  lemma StretchLeq(start: seq<nat>, fill: seq<nat>, at: seq<nat>, n: nat, ev: seq<Event>, k: nat, s: nat)
    requires k <= |ev| && Filled(at, start, fill, n, ev, k) && s < n
    ensures start[s] <= fill[s] <= |at| && at[start[s]..fill[s]] == Positions(ev[..k], s)
  {
    assert Stretch(at, start[s], fill[s], Positions(ev[..k], s));
  }

  lemma FillOne(start: seq<nat>, fill: seq<nat>, at: seq<nat>, n: nat, ev: seq<Event>, k: nat, t: nat)
    requires k < |ev| && Offsets(start, n, ev) && Filled(at, start, fill, n, ev, k) && t < n
    requires |at| == start[n] && ev[k].slot < n && fill[ev[k].slot] < |at|
    ensures var s := ev[k].slot;
            Stretch(at[fill[s] := ev[k].pos], start[t], fill[s := fill[s] + 1][t], Positions(ev[..k + 1], t))
  {
    PositionsGrow(ev, k, t);
    if t == ev[k].slot {
      StretchGrow(at, start[t], fill[t], Positions(ev[..k], t), ev[k].pos);
    } else {
      FillApart(start, fill, at, n, ev, k, t);
      StretchOther(at, start[t], fill[t], Positions(ev[..k], t), fill[ev[k].slot], ev[k].pos);
    }
  }

  lemma FillStep(at: seq<nat>, start: seq<nat>, fill: seq<nat>, n: nat, ev: seq<Event>, k: nat)
    requires k < |ev| && Offsets(start, n, ev) && Filled(at, start, fill, n, ev, k)
    requires |at| == start[n] && ev[k].slot < n
    ensures var s := ev[k].slot;
            fill[s] < |at| && Filled(at[fill[s] := ev[k].pos], start, fill[s := fill[s] + 1], n, ev, k + 1)
  {
    FillSlot(start, fill, at, n, ev, k);
    forall t | 0 <= t < n
      ensures var s := ev[k].slot;
              Stretch(at[fill[s] := ev[k].pos], start[t], fill[s := fill[s] + 1][t], Positions(ev[..k + 1], t))
    {
      FillOne(start, fill, at, n, ev, k, t);
    }
  }

  lemma FillNone(start: seq<nat>, at: seq<nat>, n: nat, ev: seq<Event>)
    requires Offsets(start, n, ev) && |at| == start[n]
    ensures Filled(at, start, start[..n], n, ev, 0)
  {
    forall s | 0 <= s < n ensures Stretch(at, start[s], start[..n][s], Positions(ev[..0], s)) {
      BeforeGrows(ev, s, n);
    }
  }

  /** The tables sort the events by slot, in stream order. */
  ghost predicate Sorted(at: seq<nat>, start: seq<nat>, n: nat, ev: seq<Event>) {
    && |start| == n + 1
    && (forall s, t :: 0 <= s <= t <= n ==> start[s] <= start[t] <= |at|)
    && (forall s :: 0 <= s < n ==> at[start[s]..start[s + 1]] == Positions(ev, s))
  }

  /** The stable counting sort: `at` is, slot by slot, `PositionsOf` the events, and `start` says
      where each slot's stretch lies. */
  method Csr(n: nat, ev: seq<Event>) returns (at: array<nat>, start: array<nat>)
    requires SlotsIn(ev, n)
    ensures fresh(at) && fresh(start) && Sorted(at[..], start[..], n, ev)
  {
    start := CountEvents(n, ev);
    PrefixSums(n, ev, start);
    ghost var st := start[..];
    var fill := new nat[n];
    forall s | 0 <= s < n { fill[s] := start[s]; }
    at := new nat[start[n]];
    FillNone(st, at[..], n, ev);
    assert fill[..] == st[..n];
    for k := 0 to |ev|
      invariant start[..] == st && fill.Length == n && at.Length == st[n]
      invariant Filled(at[..], st, fill[..], n, ev, k)
    {
      ghost var at0, fill0 := at[..], fill[..];
      FillStep(at0, st, fill0, n, ev, k);
      var s := ev[k].slot;
      at[fill[s]] := ev[k].pos;
      fill[s] := fill[s] + 1;
      assert at[..] == at0[fill0[s] := ev[k].pos] && fill[..] == fill0[s := fill0[s] + 1];
    }
    CsrDone(at[..], st, fill[..], n, ev);
  }

  lemma CsrDone(at: seq<nat>, start: seq<nat>, fill: seq<nat>, n: nat, ev: seq<Event>)
    requires Offsets(start, n, ev) && |at| == start[n] && Filled(at, start, fill, n, ev, |ev|)
    ensures Sorted(at, start, n, ev)
  {
    hide Positions, Before, Stretch, Filled;
    assert ev[..|ev|] == ev;
    forall s, t | 0 <= s <= t <= n ensures start[s] <= start[t] <= |at| {
      BeforeGrows(ev, s, t);
      BeforeGrows(ev, t, n);
    }
    forall s | 0 <= s < n ensures at[start[s]..start[s + 1]] == Positions(ev, s) {
      StretchLeq(start, fill, at, n, ev, |ev|, s);
      BeforeNext(ev, s);
    }
  }

  lemma BeforeNext(ev: seq<Event>, s: nat)
    ensures Before(ev, s + 1) == Before(ev, s) + |Positions(ev, s)|
  {
  }

  /** Two sorted tables: positions of reads and positions of writes, each slot's in one stretch. */
  datatype Liveness = Liveness(readPos: seq<nat>, readStart: seq<nat>, writePos: seq<nat>, writeStart: seq<nat>) {

    ghost predicate Shape(n: nat) {
      && |readStart| == n + 1 && |writeStart| == n + 1
      && (forall s, t :: 0 <= s <= t <= n ==> readStart[s] <= readStart[t] <= |readPos|)
      && (forall s, t :: 0 <= s <= t <= n ==> writeStart[s] <= writeStart[t] <= |writePos|)
    }

    function ReadsOf(n: nat, s: nat): seq<nat>
      requires Shape(n) && s < n
    { readPos[readStart[s]..readStart[s + 1]] }

    function WritesOf(n: nat, s: nat): seq<nat>
      requires Shape(n) && s < n
    { writePos[writeStart[s]..writeStart[s + 1]] }

    /** The tables hold exactly the reads and the writes of every slot, in order. */
    ghost predicate Exact(P: Program, n: nat) {
      && Shape(n)
      && forall s :: 0 <= s < n ==>
           && Ascending(ReadsOf(n, s)) && Ascending(WritesOf(n, s))
           && (forall q: nat :: q in ReadsOf(n, s) <==> ReadAt(P, s, q))
           && (forall q: nat :: q in WritesOf(n, s) <==> WriteAt(P, s, q))
    }

    /** The least read of slot `s` from `pos` on, an output's read counting as `END`; `END` also
        where there is none. */
    function NextRead(n: nat, s: nat, pos: nat): nat
      requires Shape(n) && s < n
    {
      var r := ReadsOf(n, s);
      var k := PartitionPoint(r, pos, 0, |r|);
      if k < |r| then r[k] else END
    }

    /** How far the value slot `s` holds at `pos` is needed: its greatest read before the next
        write (one written at `pos` itself if `def`), or `pos` if nothing reads it. */
    function Death(n: nat, s: nat, pos: nat, def: bool): nat
      requires Shape(n) && s < n
    {
      var lo := if def then pos + 1 else pos;
      LastIn(ReadsOf(n, s), WritesOf(n, s), lo, pos)
    }
  }

  /** The first write at or after `lo`. */
  function NextIn(w: seq<nat>, lo: nat): nat {
    var k := PartitionPoint(w, lo, 0, |w|);
    if k < |w| then w[k] else END
  }

  /** The last read from `lo` to the next write, `none` where there is none. */
  function LastIn(r: seq<nat>, w: seq<nat>, lo: nat, none: nat): nat {
    var end := NextIn(w, lo);
    var from := PartitionPoint(r, lo, 0, |r|);
    var to := PartitionPoint(r, end + 1, 0, |r|);
    if to > from then r[to - 1] else none
  }

  /** How many of the entries come before `x`: a binary search of `lo..hi`. */
  function PartitionPoint(xs: seq<nat>, x: nat, lo: nat, hi: nat): (k: nat)
    requires lo <= hi <= |xs|
    ensures lo <= k <= hi
    decreases hi - lo
  {
    if lo == hi then lo
    else
      var mid := (lo + hi) / 2;
      if xs[mid] < x then PartitionPoint(xs, x, mid + 1, hi) else PartitionPoint(xs, x, lo, mid)
  }

  lemma {:induction false} PartitionSplits(xs: seq<nat>, x: nat, lo: nat, hi: nat)
    requires lo <= hi <= |xs| && Ascending(xs)
    requires forall i :: 0 <= i < lo ==> xs[i] < x
    requires forall i :: hi <= i < |xs| ==> xs[i] >= x
    ensures var k := PartitionPoint(xs, x, lo, hi);
            (forall i :: 0 <= i < k ==> xs[i] < x) && (forall i :: k <= i < |xs| ==> xs[i] >= x)
    decreases hi - lo
  {
    if lo < hi {
      var mid := (lo + hi) / 2;
      if xs[mid] < x { PartitionSplits(xs, x, mid + 1, hi); } else { PartitionSplits(xs, x, lo, mid); }
    }
  }

  // --- the tables are exact ----------------------------------------------------------

  lemma {:induction false} SlotsOfMember(os: seq<Operand>, s: nat)
    ensures s in SlotsOf(os) <==> Slot(s) in os
  {
    if os != [] {
      SlotsOfMember(os[1..], s);
      assert os == [os[0]] + os[1..];
    }
  }

  lemma {:induction false} StreamMember(lists: seq<seq<nat>>, n: nat, s: nat, q: nat)
    requires n <= |lists|
    ensures Event(s, q) in Stream(lists, n) <==> q < n && s in lists[q]
  {
    if n > 0 {
      StreamMember(lists, n - 1, s, q);
      AtMember(lists[n - 1], n - 1, s, q);
    }
  }

  lemma AtMember(slots: seq<nat>, pos: nat, s: nat, q: nat)
    ensures Event(s, q) in At(slots, pos) <==> q == pos && s in slots
  {
    if q == pos && s in slots {
      var i :| 0 <= i < |slots| && slots[i] == s;
      assert At(slots, pos)[i] == Event(s, q);
    }
  }

  lemma BlockMember(dst: nat, n: nat, s: nat)
    ensures s in Block(dst, n) <==> dst <= s < dst + n
  {
    if dst <= s < dst + n { assert Block(dst, n)[s - dst] == s; }
  }

  predicate AllAt(xs: seq<nat>, p: nat) { forall i :: 0 <= i < |xs| ==> xs[i] == p }
  predicate AllBelow(xs: seq<nat>, p: nat) { forall i :: 0 <= i < |xs| ==> xs[i] < p }

  /** The positions of one op's events are the op's. */
  lemma {:induction false} PositionsOfAt(slots: seq<nat>, pos: nat, s: nat)
    ensures AllAt(Positions(At(slots, pos), s), pos)
    decreases |slots|
  {
    if slots != [] {
      var last := |slots| - 1;
      assert At(slots, pos)[..last] == At(slots[..last], pos);
      PositionsOfAt(slots[..last], pos, s);
    }
  }

  /** Appending one op's events to earlier ones keeps a slot's positions ascending. */
  lemma AppendOp(ev: seq<Event>, slots: seq<nat>, pos: nat, s: nat)
    requires Ascending(Positions(ev, s)) && AllBelow(Positions(ev, s), pos)
    ensures Ascending(Positions(ev + At(slots, pos), s))
    ensures AllBelow(Positions(ev + At(slots, pos), s), pos + 1)
  {
    PositionsConcat(ev, At(slots, pos), s);
    PositionsOfAt(slots, pos, s);
  }

  lemma {:induction false} StreamAscends(lists: seq<seq<nat>>, n: nat, s: nat)
    requires n <= |lists|
    ensures Ascending(Positions(Stream(lists, n), s)) && AllBelow(Positions(Stream(lists, n), s), n)
  {
    if n > 0 {
      StreamAscends(lists, n - 1, s);
      AppendOp(Stream(lists, n - 1), lists[n - 1], n - 1, s);
    }
  }

  function ReadEvents(P: Program): seq<Event> { Stream(ReadLists(P.ops), |P.ops|) + At(P.outputs, END) }
  function WriteEvents(P: Program): seq<Event> { Stream(WriteLists(P.ops), |P.ops|) }

  lemma ReadEventIs(P: Program, s: nat, q: nat)
    ensures Event(s, q) in ReadEvents(P) <==> ReadAt(P, s, q)
  {
    StreamMember(ReadLists(P.ops), |P.ops|, s, q);
    AtMember(P.outputs, END, s, q);
    if q < |P.ops| { SlotsOfMember(Operands(P.ops[q]), s); }
  }

  lemma WriteEventIs(P: Program, s: nat, q: nat)
    ensures Event(s, q) in WriteEvents(P) <==> WriteAt(P, s, q)
  {
    StreamMember(WriteLists(P.ops), |P.ops|, s, q);
    if q < |P.ops| { BlockMember(Dst(P.ops[q]), Width(P.ops[q]), s); }
  }

  lemma ReadPositions(P: Program, s: nat)
    requires |P.ops| < END
    ensures && Ascending(Positions(ReadEvents(P), s))
            && forall q: nat :: q in Positions(ReadEvents(P), s) <==> ReadAt(P, s, q)
  {
    StreamAscends(ReadLists(P.ops), |P.ops|, s);
    AppendOp(Stream(ReadLists(P.ops), |P.ops|), P.outputs, END, s);
    forall q: nat ensures q in Positions(ReadEvents(P), s) <==> ReadAt(P, s, q) {
      PositionsMember(ReadEvents(P), s, q);
      ReadEventIs(P, s, q);
    }
  }

  lemma WritePositions(P: Program, s: nat)
    ensures && Ascending(Positions(WriteEvents(P), s))
            && forall q: nat :: q in Positions(WriteEvents(P), s) <==> WriteAt(P, s, q)
  {
    StreamAscends(WriteLists(P.ops), |P.ops|, s);
    forall q: nat ensures q in Positions(WriteEvents(P), s) <==> WriteAt(P, s, q) {
      PositionsMember(WriteEvents(P), s, q);
      WriteEventIs(P, s, q);
    }
  }

  ghost predicate SlotsBelow(P: Program, n: nat) {
    && (forall s: nat, q: nat :: ReadAt(P, s, q) ==> s < n)
    && (forall s: nat, q: nat :: WriteAt(P, s, q) ==> s < n)
  }

  /** The tables of a program over `n` slots. */
  method NewLiveness(P: Program, n: nat) returns (live: Liveness)
    requires |P.ops| < END && SlotsBelow(P, n)
    ensures live.Exact(P, n)
  {
    var readEv, writeEv := ReadEvents(P), WriteEvents(P);
    forall i | 0 <= i < |readEv| ensures readEv[i].slot < n {
      assert readEv[i] == Event(readEv[i].slot, readEv[i].pos);
      ReadEventIs(P, readEv[i].slot, readEv[i].pos);
    }
    forall i | 0 <= i < |writeEv| ensures writeEv[i].slot < n {
      assert writeEv[i] == Event(writeEv[i].slot, writeEv[i].pos);
      WriteEventIs(P, writeEv[i].slot, writeEv[i].pos);
    }
    var r, rs := Csr(n, readEv);
    var w, ws := Csr(n, writeEv);
    live := Liveness(r[..], rs[..], w[..], ws[..]);
    forall s | 0 <= s < n
      ensures && Ascending(live.ReadsOf(n, s)) && Ascending(live.WritesOf(n, s))
              && (forall q: nat :: q in live.ReadsOf(n, s) <==> ReadAt(P, s, q))
              && (forall q: nat :: q in live.WritesOf(n, s) <==> WriteAt(P, s, q))
    {
      assert live.ReadsOf(n, s) == r[rs[s]..rs[s + 1]];
      assert live.WritesOf(n, s) == w[ws[s]..ws[s + 1]];
      ReadPositions(P, s);
      WritePositions(P, s);
    }
  }

  // --- what the lookups mean -----------------------------------------------------------

  lemma NextReadExact(live: Liveness, P: Program, n: nat, s: nat, pos: nat)
    requires live.Exact(P, n) && s < n && |P.ops| < END
    ensures var d := live.NextRead(n, s, pos);
            if exists q: nat :: q >= pos && ReadAt(P, s, q)
            then d >= pos && ReadAt(P, s, d) && forall q: nat :: q >= pos && ReadAt(P, s, q) ==> d <= q
            else d == END
  {
    var r := live.ReadsOf(n, s);
    PartitionSplits(r, pos, 0, |r|);
    var k := PartitionPoint(r, pos, 0, |r|);
    forall q: nat | q >= pos && ReadAt(P, s, q) ensures k < |r| && r[k] <= q {
      assert q in r;
    }
    if k < |r| { assert r[k] in r; }
  }

  lemma NextInFirst(w: seq<nat>, lo: nat)
    requires Ascending(w)
    ensures var end := NextIn(w, lo);
            if exists x: nat :: x in w && x >= lo
            then end in w && end >= lo && forall x: nat :: x in w && x >= lo ==> end <= x
            else end == END
  {
    PartitionSplits(w, lo, 0, |w|);
  }

  lemma LastInLast(r: seq<nat>, w: seq<nat>, lo: nat, none: nat)
    requires Ascending(r)
    ensures var d, end := LastIn(r, w, lo, none), NextIn(w, lo);
            if exists x: nat :: x in r && lo <= x <= end
            then d in r && lo <= d <= end && forall x: nat :: x in r && lo <= x <= end ==> x <= d
            else d == none
  {
    var end := NextIn(w, lo);
    hide NextIn, PartitionPoint;
    PartitionSplits(r, lo, 0, |r|);
    PartitionSplits(r, end + 1, 0, |r|);
    var from, to := PartitionPoint(r, lo, 0, |r|), PartitionPoint(r, end + 1, 0, |r|);
    forall x: nat | x in r && lo <= x <= end ensures to > from && x <= r[to - 1] {
      var i :| 0 <= i < |r| && r[i] == x;
      assert from <= i < to;
    }
    if to > from { assert r[to - 1] in r && lo <= r[to - 1] <= end; }
  }

  /** `death` is exactly the last read of the value: before or at the slot's next
      write, and `pos` where there is none. */
  lemma DeathExact(live: Liveness, P: Program, n: nat, s: nat, pos: nat, def: bool)
    requires live.Exact(P, n) && s < n && |P.ops| < END
    ensures var d := live.Death(n, s, pos, def);
            var lo := if def then pos + 1 else pos;
            if Live(P, s, lo)
            then LiveRead(P, s, lo, d) && forall q: nat :: LiveRead(P, s, lo, q) ==> q <= d
            else d == pos
  {
    var r, w := live.ReadsOf(n, s), live.WritesOf(n, s);
    var lo := if def then pos + 1 else pos;
    var end := NextIn(w, lo);
    NextInFirst(w, lo);
    LastInLast(r, w, lo, pos);
    forall q: nat ensures LiveRead(P, s, lo, q) <==> q in r && lo <= q <= end {
      LiveReadIs(P, s, lo, end, q);
    }
    if x: nat :| x in r && lo <= x <= end {
      assert LiveRead(P, s, lo, x);
    }
  }

  lemma LiveReadIs(P: Program, s: nat, lo: nat, end: nat, q: nat)
    requires |P.ops| < END
    requires if exists x: nat :: WriteAt(P, s, x) && x >= lo
             then WriteAt(P, s, end) && end >= lo && forall x: nat :: WriteAt(P, s, x) && x >= lo ==> end <= x
             else end == END
    ensures LiveRead(P, s, lo, q) <==> ReadAt(P, s, q) && lo <= q <= end
  {
    if ReadAt(P, s, q) && lo <= q && q > end {
      if x: nat :| WriteAt(P, s, x) && x >= lo { assert WriteAt(P, s, end); }
    }
  }
}
