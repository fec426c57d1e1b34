/** The bookkeeping behind specialization: which selects have been seen both ways, and the budget
    of rebuilds, proved bounded over any run. */
module RegionChoices {
  import opened Basics

  const PERCENT: nat := 100

  datatype ChoicePolicy = ChoicePolicy(enabled: bool, minSelects: nat, minShrinkPct: nat, flipCooldown: nat,
                                       thrashFlips: nat, thrashEvals: nat)

  /** How many selects are unpinned. */
  function Count(s: seq<bool>): (n: nat)
    ensures n <= |s|
  { if s == [] then 0 else Count(s[..|s| - 1]) + if s[|s| - 1] then 1 else 0 }

  lemma {:induction false} CountOne(s: seq<bool>, i: nat)
    requires i < |s| && !s[i]
    ensures Count(s[i := true]) == Count(s) + 1
    decreases |s|
  {
    var t := s[i := true];
    if i == |s| - 1 {
      assert t[..|t| - 1] == s[..|s| - 1];
    } else {
      assert t[..|t| - 1] == s[..|s| - 1][i := true];
      CountOne(s[..|s| - 1], i);
    }
  }

  /** Flags only ever set, and as many as before, are the flags before. */
  lemma {:induction false} SameCount(a: seq<bool>, b: seq<bool>)
    requires |a| == |b| && forall i :: 0 <= i < |a| && a[i] ==> b[i]
    ensures Count(a) <= Count(b) && (Count(a) == Count(b) ==> a == b)
    decreases |a|
  {
    if a != [] {
      var c, d := a[..|a| - 1], b[..|b| - 1];
      SameCount(c, d);
      assert a == c + [a[|a| - 1]] && b == d + [b[|b| - 1]];
    }
  }

  lemma CountResized(s: seq<bool>, n: nat)
    ensures s == [] ==> Count(Resized(s, n)) == 0
  {
    if s == [] { CountNone(Resized(s, n)); }
  }

  lemma {:induction false} CountNone(s: seq<bool>)
    requires forall i :: 0 <= i < |s| ==> !s[i]
    ensures Count(s) == 0
    decreases |s|
  {
    if s != [] { CountNone(s[..|s| - 1]); }
  }

  function Resized(s: seq<bool>, n: nat): (r: seq<bool>)
    ensures |r| == n && forall i :: 0 <= i < n ==> r[i] == (i < |s| && s[i])
  { seq(n, i requires 0 <= i < n => i < |s| && s[i]) }

  /** Every trace seen agrees with the one held in the selects still pinned. */
  ghost predicate Agree(seen: seq<seq<nat>>, trace: seq<nat>, unpinned: seq<bool>) {
    forall k :: 0 <= k < |seen| ==> AgreesWith(seen[k], trace, unpinned)
  }

  ghost predicate AgreesWith(t: seq<nat>, trace: seq<nat>, unpinned: seq<bool>) {
    |t| == |trace| == |unpinned| && forall i :: 0 <= i < |t| && !unpinned[i] ==> t[i] == trace[i]
  }

  /** `after` is `start` with `news` more selects unpinned. */
  ghost predicate Since(start: seq<bool>, after: seq<bool>, news: nat) {
    && |after| == |start| && (forall i :: 0 <= i < |start| && start[i] ==> after[i])
    && Count(after) == Count(start) + news && (news == 0 ==> after == start)
  }

  /** The choices learned so far. `seen` are the traces of the length held, since the last
      of another length. */
  class Choices {
    var trace: seq<nat>
    var unpinned: seq<bool>
    var evals: nat
    var flips: nat
    var cooldownUntil: nat
    var off: bool
    var version: nat
    var built: nat
    ghost var seen: seq<seq<nat>>

    ghost predicate Valid()
      reads this`trace, this`unpinned, this`seen
    {
      Agree(seen, trace, unpinned) && (seen != [] ==> trace in seen) && (seen == [] ==> trace == [] && unpinned == [])
    }

    constructor ()
      ensures Valid() && unpinned == [] && seen == [] && !off && version == 0 && built == 0 && evals == 0 && flips == 0
    {
      trace, unpinned, seen := [], [], [];
      evals, flips, cooldownUntil, version, built := 0, 0, 0, 0, 0;
      off := false;
    }

    /** One more trace: afterwards a select is unpinned if it was before or if this trace and the
        one held differ there; `news` counts those newly unpinned. */
    method Observe(t: seq<nat>) returns (news: nat)
      requires Valid()
      modifies this`trace, this`unpinned, this`seen
      ensures Valid() && trace == t && |unpinned| == |t| && t in seen
      ensures |old(trace)| == |t| ==> seen == old(seen) + [t]
      ensures forall i :: 0 <= i < |t| ==>
                unpinned[i] == (Resized(old(unpinned), |t|)[i] || (|old(trace)| == |t| && old(trace)[i] != t[i]))
      ensures Count(unpinned) == Count(Resized(old(unpinned), |t|)) + news
    {
      ghost var was := trace;
      unpinned := Resized(unpinned, |t|);
      ghost var before := unpinned;
      news := 0;
      if |trace| == |t| {
        for i := 0 to |t|
          invariant |unpinned| == |t| && trace == was && seen == old(seen)
          invariant forall j :: 0 <= j < |t| ==> unpinned[j] == (before[j] || (j < i && was[j] != t[j]))
          invariant Count(unpinned) == Count(before) + news
        {
          if trace[i] != t[i] && !unpinned[i] {
            CountOne(unpinned, i);
            unpinned := unpinned[i := true];
            news := news + 1;
          }
        }
        seen := seen + [t];
      } else {
        seen := [t];
      }
      trace := t;
    }

    /** Several traces of one length. */
    method ObserveAll(ts: seq<seq<nat>>, n: nat) returns (news: nat)
      requires Valid() && ts != [] && (forall t :: t in ts ==> |t| == n) && (seen != [] ==> |trace| == n)
      modifies this`trace, this`unpinned, this`seen
      ensures Valid() && |trace| == n && seen != []
      ensures Since(Resized(old(unpinned), n), unpinned, news)
      ensures old(seen) == [] || AgreesWith(old(trace), trace, unpinned)
    {
      ghost var start := Resized(unpinned, n);
      news := 0;
      for k := 0 to |ts|
        invariant Valid()
                  && (k == 0 ==> unpinned == old(unpinned) && trace == old(trace) && seen == old(seen) && news == 0)
        invariant k > 0 ==> |trace| == n && seen != [] && Since(start, unpinned, news)
        invariant k > 0 ==> old(seen) == [] || old(trace) in seen
      {
        ghost var before := unpinned;
        var more := Observe(ts[k]);
        if k == 0 {
          SameCount(start, unpinned);
        } else {
          assert Resized(before, n) == before;
          SameCount(before, unpinned);
        }
        news := news + more;
      }
      if old(seen) != [] {
        var k :| 0 <= k < |seen| && seen[k] == old(trace);
      }
    }

    /** Which selects a specialization pins. */
    function Pin(): (r: seq<bool>)
      reads this
      ensures |r| == |unpinned| && forall i :: 0 <= i < |r| ==> r[i] == !unpinned[i]
    { seq(|unpinned|, i requires 0 <= i < |unpinned| reads this => !unpinned[i]) }

    predicate Ready()
      reads this
    { !off && evals >= cooldownUntil }

    method Ran(n: nat)
      modifies this`evals
      ensures evals == old(evals) + n
    { evals := evals + n; }

    /** Flips counted; specialization goes off when they come too often, and stays off. */
    method Flipped(p: ChoicePolicy, n: nat) returns (thrash: bool)
      modifies this`flips, this`off
      ensures flips == old(flips) + n && thrash == off
      ensures off == (old(off) || (flips >= p.thrashFlips && evals < flips * p.thrashEvals))
    {
      flips := flips + n;
      if flips >= p.thrashFlips && evals < flips * p.thrashEvals { off := true; }
      thrash := off;
    }

    method Cool(p: ChoicePolicy)
      modifies this`cooldownUntil
      ensures cooldownUntil == evals + p.flipCooldown
    { cooldownUntil := evals + p.flipCooldown; }

    /** A specialization of `ops` against `full` is kept when it shrinks enough; otherwise
        specialization goes off. */
    method Built(p: ChoicePolicy, ops: nat, full: nat) returns (kept: bool)
      modifies this`off, this`built
      ensures kept <==> ops * PERCENT <= full * (PERCENT - Least(p.minShrinkPct, PERCENT))
      ensures built == old(built) + (if kept then 1 else 0) && off == (old(off) || !kept)
    {
      if ops * PERCENT > full * (PERCENT - Least(p.minShrinkPct, PERCENT)) {
        off := true;
        return false;
      }
      built := built + 1;
      return true;
    }
  }

  // --- a variant's learning -----------------------------------------------------------------------------

  /** What a main phase is shortened against: the trace, the selects pinned, and the version
      it was built at. */
  datatype Pinned = Pinned(trace: seq<nat>, pins: seq<bool>, version: nat)

  /** What the learning is told. */
  datatype Lesson = Ran(n: nat) | Flips(n: nat) | Traces(ts: seq<seq<nat>>)

  /** What one variant knows of its own main phase: `selects` in a trace, `full` ops in the whole
      phase, `ops` once shortened. */
  class Choice {
    const learned: Choices
    const selects: nat
    const ops: (seq<nat>, seq<bool>) -> nat
    const full: nat
    var spec: Option<Pinned>

    ghost predicate Valid()
      reads this, learned
    {
      && learned.Valid() && (learned.seen != [] ==> |learned.trace| == selects)
      && learned.built <= 1 + Count(learned.unpinned)
      && (learned.seen == [] ==> learned.built == 0 && spec.None?)
      && (spec.Some? ==> spec.value.version == learned.version && spec.value.pins == learned.Pin()
                         && AgreesWith(spec.value.trace, learned.trace, learned.unpinned))
    }

    constructor (selects: nat, ops: (seq<nat>, seq<bool>) -> nat, full: nat)
      ensures Valid() && fresh(learned) && spec.None? && !learned.off && learned.built == 0 && learned.seen == []
      ensures this.selects == selects
    {
      this.selects, this.ops, this.full := selects, ops, full;
      learned := new Choices();
      spec := None;
    }

    /** What the traces of some instances teach: the main phase is shortened the first time,
        and again only where they unpinned a select. */
    method Learn(ts: seq<seq<nat>>, p: ChoicePolicy)
      requires Valid() && ts != [] && forall t :: t in ts ==> |t| == selects
      modifies this, learned
      ensures Valid()
      ensures old(learned.off) ==>
                learned.off && learned.built == old(learned.built) && learned.unpinned == old(learned.unpinned)
      ensures old(|learned.unpinned|) == selects ==>
                && |learned.unpinned| == selects
                && forall i :: 0 <= i < selects && old(learned.unpinned)[i] ==> learned.unpinned[i]
      ensures old(learned.built) <= learned.built <= old(learned.built) + 1
      ensures learned.built > old(learned.built) && old(learned.built) > 0 && old(|learned.unpinned|) == selects ==>
                Count(learned.unpinned) > Count(old(learned.unpinned))
    {
      hide Count, Resized;
      if learned.off { return; }
      var first := learned.built == 0;
      ghost var was := learned.unpinned;
      var news := learned.ObserveAll(ts, selects);
      assert |was| == selects ==> Resized(was, selects) == was;
      CountResized(was, selects);
      if !first && news == 0 { return; }
      var pins := learned.Pin();
      var kept := learned.Built(p, ops(learned.trace, pins), full);
      if !kept {
        spec := None;
        return;
      }
      learned.version := learned.version + 1;
      spec := Some(Pinned(learned.trace, pins, learned.version));
    }

    /** Flips counted: the shortened main phase goes where they come too often. */
    method Flip(p: ChoicePolicy, n: nat)
      requires Valid()
      modifies this, learned
      ensures Valid() && (old(learned.off) ==> learned.off)
      ensures learned.unpinned == old(learned.unpinned) && learned.built == old(learned.built)
              && learned.seen == old(learned.seen)
    {
      var thrash := learned.Flipped(p, n);
      if thrash { spec := None; }
    }

    /** Any run of lessons over traces of one length: what is unpinned stays unpinned, off
        stays off, and the main phase is shortened at most once plus once per select. */
    method Run(lessons: seq<Lesson>, p: ChoicePolicy)
      requires Valid() && forall k :: 0 <= k < |lessons| ==> TracesOk(lessons[k], selects)
      modifies this, learned
      ensures Valid() && (old(learned.off) ==> learned.off) && learned.built <= 1 + selects
      ensures forall i :: 0 <= i < |old(learned.unpinned)| && i < |learned.unpinned| && old(learned.unpinned)[i] ==>
              learned.unpinned[i]
    {
      LengthOk();
      for k := 0 to |lessons|
        invariant Valid() && (old(learned.off) ==> learned.off)
        invariant |old(learned.unpinned)| == selects ==> |learned.unpinned| == selects
        invariant |learned.unpinned| == 0 || |learned.unpinned| == selects
        invariant forall i :: 0 <= i < |old(learned.unpinned)| && i < |learned.unpinned| && old(learned.unpinned)[i] ==>
                    learned.unpinned[i]
      {
        assert TracesOk(lessons[k], selects);
        match lessons[k] {
          case Ran(n) => learned.Ran(n);
          case Flips(n) => Flip(p, n);
          case Traces(ts) => Learn(ts, p);
        }
        LengthOk();
      }
    }

    lemma LengthOk()
      requires Valid()
      ensures |learned.unpinned| == 0 || |learned.unpinned| == selects
    {
      if learned.seen != [] { assert AgreesWith(learned.seen[0], learned.trace, learned.unpinned); }
    }
  }

  ghost predicate TracesOk(l: Lesson, n: nat) { l.Traces? ==> l.ts != [] && forall t :: t in l.ts ==> |t| == n }
}
