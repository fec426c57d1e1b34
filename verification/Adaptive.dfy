/** A program on the fastest form that serves it: its tape, specializations of it against the
    choices it takes, native code of either landing in the background. Every call gives the
    full tape's result, whatever lands when and whatever other callers do in between. */
module AdaptivePrograms {
  import opened Basics
  import opened RegionChoices

  /** A specialization, named by the trace and the pins it was built from. */
  datatype Spec = Spec(trace: seq<nat>, pins: seq<bool>)

  /** Native code of a specialization: the one it was compiled from. */
  datatype Native = Native(of: Spec)

  /** The contents of a work buffer as far as a main phase can rely on them: nothing, or a form's
      state at a binding. Two layouts exist, the full tape's and the specialization's, each shared
      with its native code. */
  datatype Work<B> = Blank | FullState(b: B) | SpecState(sp: Spec, b: B)

  /** The tape, by what it computes: `pure` the part of the inputs a binding fixes, `out` its
      outputs, `trace` the choices it takes. A specialization's outputs and guards are its
      own; `stray` is whatever a main phase makes of a buffer another form laid out, `mixed`
      whatever the guards of one specialization read off the outputs of another. */
  datatype Tape<!I, !B, !O> = Tape(
    pure: I -> B, out: I -> O, trace: I -> seq<nat>,
    specOut: (Spec, I) -> O, holds: (Spec, I) -> bool, prologHolds: (Spec, B) -> bool,
    stray: (Work<B>, I) -> (O, bool), mixed: (Spec, Spec, I) -> bool, mixedProlog: (Spec, Spec, B) -> bool,
    ops: nat, specOps: Spec -> nat)

  /** What is taken of a specialization: where its guards hold, its outputs are the tape's. */
  ghost predicate Sound<I(!new), B, O>(T: Tape<I, B, O>) {
    forall sp: Spec, i: I :: T.holds(sp, i) ==> T.specOut(sp, i) == T.out(i)
  }

  datatype Policy = Policy(
    jit: bool, kickAfter: nat, choices: ChoicePolicy, specCompileAfter: nat, specCompileBudget: nat,
        specInterpCost: nat)

  // --- the forms -------------------------------------------------------------------------------------

  function FullMain<I, B(==), O>(T: Tape<I, B, O>, w: Work<B>, i: I): O {
    if w == FullState(T.pure(i)) then T.out(i) else T.stray(w, i).0
  }

  /** The outputs of specialization `of` run whole, and whether the guards of `sp` hold in
      them. */
  function SpecWhole<I, B, O>(T: Tape<I, B, O>, of: Spec, sp: Spec, i: I): (O, bool) {
    (T.specOut(of, i), if of == sp then T.holds(sp, i) else T.mixed(of, sp, i))
  }

  /** The same of its main phase over a buffer. */
  function SpecMain<I, B(==), O>(T: Tape<I, B, O>, of: Spec, sp: Spec, w: Work<B>, i: I): (O, bool) {
    if w == SpecState(of, T.pure(i)) then SpecWhole(T, of, sp, i) else T.stray(w, i)
  }

  function PrologGuards<I, B, O>(T: Tape<I, B, O>, of: Spec, sp: Spec, b: B): bool {
    if of == sp then T.prologHolds(sp, b) else T.mixedProlog(of, sp, b)
  }

  /** The form an episode runs its main phases on. */
  datatype Kind = OfFull | OfInterp(sp: Spec, ver: nat) | OfNative(native: Native, sp: Spec)

  datatype Episode = Episode(kind: Kind, forms: nat)

  /** A background compile: of the tape, or of a specialization at the version it had. */
  datatype Job = FullJob | SpecJob(sp: Spec, ver: nat)

  /** What happens between two steps of a call: a job lands (compiled or failed), a body's
      variant lands, or another caller runs a step that holds the cache. */
  datatype Act<I> =
    | Lands(job: nat, ok: bool) | BodyLands
    | OtherEval(i: I) | OtherProlog(i: I) | OtherFlip(i: I) | OtherMain(episode: nat)

  /** A point of a call: what happens there, whether the cache is held by another caller, and
      whether the passes so far mark the tape as large. */
  datatype Moment<I> = Moment(acts: seq<Act<I>>, contended: bool, large: bool)

  type Schedule<!I> = nat -> Moment<I>

  class Adaptive<I(!new), B(==), O> {
    const T: Tape<I, B, O>
    const policy: Policy
    const compiles: bool
    const specializes: bool
    const choices: Choices
    var spec: Option<Spec>
    var stable: nat
    var spent: nat
    var inflight: bool
    var native: Option<(nat, Native)>
    var compiled: Option<bool>
    var kicked: bool
    var evals: nat
    var bodies: nat
    var pending: seq<Job>
    /** The specialized episodes other callers started, by specialization and version. */
    var others: seq<(Spec, nat)>
    ghost var names: map<nat, Spec>

    /** A version names one specialization: the cache's, a native form's, a job's. */
    ghost predicate Valid()
      reads this, choices
    {
      && Sound(T) && choices.Valid()
      && (forall v :: v in names ==> v <= choices.version)
      && (spec.Some? ==> choices.version in names && names[choices.version] == spec.value)
      && (spec.None? && !choices.off ==> choices.version !in names)
      && (native.Some? ==> native.value.0 in names && native.value.1.of == names[native.value.0])
      && (forall k :: 0 <= k < |pending| ==> JobOk(pending[k], names))
      && (forall k :: 0 <= k < |others| ==> Named(others[k], names))
    }

    constructor (t: Tape<I, B, O>, p: Policy, compiler: bool, selects: nat)
      requires Sound(t)
      ensures Valid() && T == t && names == map[] && fresh(choices)
    {
      T, policy, compiles := t, p, compiler;
      specializes := p.choices.enabled && selects >= p.choices.minSelects;
      choices := new Choices();
      spec, native, compiled := None, None, None;
      stable, spent, evals, bodies := 0, 0, 0, 0;
      inflight, kicked := false, false;
      pending, others, names := [], [], map[];
    }

    predicate HasNative()
      reads this
    { compiled == Some(true) }

    /** A count that an episode compares to learn whether anything it could run on has landed
        since it began. */
    function Forms(): nat
      reads this
    { bodies + if compiled.Some? then 1 else 0 }

    // --- what goes on in the background, and the other callers --------------------------------------

    /** A job lands: native code of a specialization is kept only at the version it was
        compiled at. */
    method Land(j: nat, ok: bool)
      requires Valid()
      modifies this
      ensures Valid() && names == old(names) && choices.version == old(choices.version)
    {
      if j >= |pending| { return; }
      var job := pending[j];
      assert JobOk(job, names);
      pending := pending[..j] + pending[j + 1..];
      match job {
        case FullJob => if compiled.None? { compiled := Some(ok); }
        case SpecJob(sp, ver) =>
          inflight := false;
          if choices.version == ver && ok { native := Some((ver, Native(sp))); }
      }
    }

    method Interfere(m: Moment<I>)
      requires Valid()
      modifies this, choices
      ensures Valid() && Grown(old(names), names)
    {
      for k := 0 to |m.acts|
        invariant Valid() && Grown(old(names), names)
      {
        match m.acts[k] {
          case Lands(j, ok) => Land(j, ok);
          case BodyLands => bodies := bodies + 1;
          case OtherEval(i) => if specializes && !choices.off { var _, _, _ := EvalSpec(i, Blank); }
          case OtherProlog(i) => if specializes && !choices.off { StartOther(i); }
          case OtherFlip(i) => var _, _ := OnFlip(i);
          case OtherMain(e) =>
            if specializes && e < |others| {
              assert Named(others[e], names);
              Held(others[e].0, others[e].1);
            }
        }
      }
    }

    /** Another caller starts an episode, and keeps it however stale it becomes. */
    method StartOther(i: I)
      requires Valid() && !choices.off
      modifies this, choices
      ensures Valid() && Grown(old(names), names)
    {
      hide Choices.Valid, Sound;
      var kind, _ := SpecProlog(i, Blank);
      if kind.Some? && kind.value.OfInterp? { others := others + [(kind.value.sp, kind.value.ver)]; }
    }

    // --- bookkeeping ------------------------------------------------------------------------------------

    method Disable()
      requires Sound(T) && choices.Valid() && (forall v :: v in names ==> v <= choices.version)
      requires forall k :: 0 <= k < |pending| ==> JobOk(pending[k], names)
      requires forall k :: 0 <= k < |others| ==> Named(others[k], names)
      modifies this`spec, this`native, choices`off
      ensures Valid() && spec.None? && choices.off
    {
      choices.off := true;
      spec, native := None, None;
    }

    /** A full traced evaluation, this call's result; the selects it flips are unpinned, and
        the tape is specialized again against the others unless a cooldown runs. */
    method Retrace(i: I) returns (o: O, w: Work<B>)
      requires Valid() && spec.None? && choices.version !in names
      modifies this`spec, this`native, this`names, choices
      ensures Valid() && Grown(old(names), names) && o == T.out(i) && w == FullState(T.pure(i))
      ensures choices.version == old(choices.version)
      ensures spec.Some? ==> spec.value == Spec(T.trace(i), choices.Pin()) && old(choices.Ready())
      ensures old(choices.Ready()) ==> spec.Some? || choices.off
    {
      hide Choices.Valid;
      var _ := choices.Observe(T.trace(i));
      o, w := T.out(i), FullState(T.pure(i));
      if choices.Ready() {
        var sp := Spec(choices.trace, choices.Pin());
        var kept := choices.Built(policy.choices, T.specOps(sp), T.ops);
        if kept {
          spec := Some(sp);
          names := names[choices.version := sp];
        } else {
          Disable();
        }
      }
    }

    /** A region flipped: the version moves, and the full tape serves and is traced, unless
        flips come too often. */
    method OnFlip(i: I) returns (o: O, w: Work<B>)
      requires Valid()
      modifies this`spec, this`native, this`stable, this`names, choices
      ensures Valid() && Grown(old(names), names) && o == T.out(i) && w == FullState(T.pure(i))
      ensures choices.version == old(choices.version) + 1
    {
      hide Choices.Valid;
      native, stable := None, 0;
      choices.version := choices.version + 1;
      choices.Cool(policy.choices);
      var thrash := choices.Flipped(policy.choices, 1);
      if thrash {
        Disable();
        o, w := T.out(i), FullState(T.pure(i));
      } else {
        spec := None;
        o, w := Retrace(i);
      }
    }

    /** Past the probation the specialization goes to the background compiler, at its version. */
    method MaybeCompileSpec(sp: Spec, ver: nat)
      requires Valid() && ver in names && names[ver] == sp
      modifies this`inflight, this`spent, this`pending
      ensures Valid()
    {
      if !policy.jit || stable != policy.specCompileAfter || choices.version != ver || inflight || native.Some?
          || spent >= policy.specCompileBudget {
        return;
      }
      if !compiles { return; }
      inflight := true;
      spent := spent + 1;
      pending := pending + [SpecJob(sp, ver)];
    }

    method MaybeKick(m: Moment<I>)
      requires Valid()
      modifies this`evals, this`kicked, this`pending
      ensures Valid()
    {
      if !compiles { return; }
      evals := evals + 1;
      if !policy.jit || (evals < policy.kickAfter && !m.large) || kicked { return; }
      kicked := true;
      pending := pending + [FullJob];
    }

    // --- whole evaluations ------------------------------------------------------------------------------

    /** The specialized rungs, the cache held: served, with the full tape's outputs, or left to
        the full tape. */
    method EvalSpec(i: I, w0: Work<B>) returns (served: bool, o: O, w: Work<B>)
      requires Valid() && !choices.off
      modifies this, choices
      ensures Valid() && Grown(old(names), names)
      ensures served ==> o == T.out(i)
    {
      hide Choices.Valid;
      o, w := T.stray(w0, i).0, w0;
      choices.Ran(1);
      if native.Some? && spec.Some? {
        var (ver, n) := native.value;
        var sp := spec.value;
        if ver == choices.version {
          var r := SpecWhole(T, n.of, sp, i);
          w := SpecState(n.of, T.pure(i));
          if r.1 {
            stable := stable + 1;
            return true, r.0, w;
          }
        }
        native := None;
      }
      if spec.Some? {
        var sp := spec.value;
        if HasNative() && T.specOps(sp) * policy.specInterpCost > T.ops { return false, o, w; }
        var r := SpecWhole(T, sp, sp, i);
        w := SpecState(sp, T.pure(i));
        if r.1 {
          stable := stable + 1;
          MaybeCompileSpec(sp, choices.version);
          return true, r.0, w;
        }
        o, w := OnFlip(i);
        return true, o, w;
      }
      if !choices.Ready() { return false, o, w; }
      o, w := Retrace(i);
      return true, o, w;
    }

    /** One whole evaluation, by whichever form is at hand: always the full tape's outputs. */
    method EvalRung(i: I, w0: Work<B>, m: Moment<I>, m': Moment<I>) returns (o: O, w: Work<B>)
      requires Valid()
      modifies this, choices
      ensures Valid() && Grown(old(names), names) && o == T.out(i)
    {
      w := w0;
      if specializes && !m.contended && !choices.off {
        var served;
        served, o, w := EvalSpec(i, w0);
        if served { return; }
      }
      Interfere(m');
      o, w := T.out(i), FullState(T.pure(i));
    }

    method Eval(i: I, w0: Work<B>, sched: Schedule<I>) returns (o: O, w: Work<B>)
      requires Valid()
      modifies this, choices
      ensures Valid() && Grown(old(names), names) && o == T.out(i)
    {
      MaybeKick(sched(0));
      Interfere(sched(1));
      o, w := EvalRung(i, w0, sched(2), sched(3));
    }

    // --- episodes ------------------------------------------------------------------------------------------

    /** The buffer is the one the episode's form left at binding `b`, its native code compiled
        from its specialization, its version naming it. */
    ghost predicate EpisodeOk(ep: Episode, w: Work<B>, b: B)
      reads this
    { KindOk(ep.kind, w, b, names) }

    /** Where there is no specialization one is made, if no cooldown runs, under a version of
        its own. */
    method SpecStart(i: I, w0: Work<B>) returns (w: Work<B>)
      requires Valid() && !choices.off && spec.None? && choices.Ready()
      modifies this, choices
      ensures Valid() && Grown(old(names), names) && (spec.Some? || choices.off)
    {
      hide Choices.Valid, Sound;
      var _, w1 := Retrace(i);
      w := w1;
      choices.version := choices.version + 1;
      if spec.Some? { names := names[choices.version := spec.value]; }
      stable := 0;
    }

    /** The specialized episode starts, the cache held; none for a full one. */
    method SpecProlog(i: I, w0: Work<B>) returns (kind: Option<Kind>, w: Work<B>)
      requires Valid() && !choices.off
      modifies this, choices
      ensures Valid() && Grown(old(names), names)
      ensures kind.Some? ==> KindOk(kind.value, w, T.pure(i), names)
    {
      hide Choices.Valid, Sound;
      w := w0;
      choices.Ran(1);
      if spec.None? {
        if !choices.Ready() { return None, w; }
        w := SpecStart(i, w0);
      }
      kind, w := SpecForm(i, w);
    }

    /** The form of the specialization that starts the episode, if any does. */
    method SpecForm(i: I, w0: Work<B>) returns (kind: Option<Kind>, w: Work<B>)
      requires Valid()
      modifies this, choices
      ensures Valid() && Grown(old(names), names)
      ensures kind.Some? ==> KindOk(kind.value, w, T.pure(i), names)
    {
      hide Choices.Valid, Sound;
      w := w0;
      if native.Some? && spec.Some? {
        var (ver, n) := native.value;
        var sp := spec.value;
        if ver == choices.version {
          w := SpecState(n.of, T.pure(i));
          if PrologGuards(T, n.of, sp, T.pure(i)) { return Some(OfNative(n, sp)), w; }
          var _, w1 := OnFlip(i);
          return Some(OfFull), w1;
        }
        native := None;
      }
      if spec.None? { return None, w; }
      var sp := spec.value;
      if HasNative() && T.specOps(sp) * policy.specInterpCost > T.ops { return None, w; }
      w := SpecState(sp, T.pure(i));
      if PrologGuards(T, sp, sp, T.pure(i)) { return Some(OfInterp(sp, choices.version)), w; }
      var _, w1 := OnFlip(i);
      return Some(OfFull), w1;
    }

    /** Phase one of an episode. */
    method EvalProlog(i: I, w0: Work<B>, sched: Schedule<I>) returns (ep: Episode, w: Work<B>)
      requires Valid()
      modifies this, choices
      ensures Valid() && Grown(old(names), names) && EpisodeOk(ep, w, T.pure(i))
    {
      MaybeKick(sched(0));
      Interfere(sched(1));
      var forms := Forms();
      Interfere(sched(2));
      w := w0;
      if specializes && !sched(3).contended && !choices.off {
        var kind;
        kind, w := SpecProlog(i, w0);
        if kind.Some? { return Episode(kind.value, forms), w; }
      }
      Interfere(sched(4));
      ep, w := Episode(OfFull, forms), FullState(T.pure(i));
    }

    /** A main phase whose guards failed: the full tape's outputs, the buffer left in its state. */
    method FlipRetrace(i: I) returns (o: O, w: Work<B>)
      requires Valid()
      modifies this, choices
      ensures Valid() && Grown(old(names), names) && o == T.out(i) && w == FullState(T.pure(i))
    {
      if specializes {
        o, w := OnFlip(i);
      } else {
        o, w := T.out(i), FullState(T.pure(i));
      }
    }

    /** A main pass under a specialization held. */
    method Held(sp: Spec, ver: nat)
      requires Valid() && ver in names && names[ver] == sp
      modifies this`stable, this`inflight, this`spent, this`pending, choices`evals
      ensures Valid()
    {
      choices.Ran(1);
      stable := stable + 1;
      MaybeCompileSpec(sp, ver);
    }

    /** A main pass at inputs of the episode's binding gives the full tape's outputs, and leaves a
        buffer and an episode `EpisodeOk` for another. */
    method MainRung(ep0: Episode, i: I, w0: Work<B>, sched: Schedule<I>) returns (ep: Episode, o: O, w: Work<B>)
      requires Valid() && EpisodeOk(ep0, w0, T.pure(i))
      modifies this, choices
      ensures Valid() && Grown(old(names), names) && o == T.out(i) && EpisodeOk(ep, w, T.pure(i))
    {
      hide Choices.Valid, Adaptive.Valid;
      assert Sound(T) by { SoundHere(); }
      ep, w := ep0, w0;
      if Forms() != ep.forms {
        ep, w := EvalProlog(i, w, sched);
      }
      Interfere(sched(5));
      match ep.kind {
        case OfNative(n, sp) =>
          var r := SpecMain(T, n.of, sp, w, i);
          if r.1 { return ep, r.0, w; }
          Interfere(sched(6));
          o, w := FlipRetrace(i);
          ep := Episode(OfFull, ep.forms);
        case OfInterp(sp, ver) =>
          var r := SpecMain(T, sp, sp, w, i);
          Interfere(sched(6));
          if r.1 {
            if specializes && !sched(7).contended {
              Held(sp, ver);
            }
            return ep, r.0, w;
          }
          o, w := FlipRetrace(i);
          ep := Episode(OfFull, ep.forms);
        case OfFull =>
          o := FullMain(T, w, i);
      }
    }

    lemma SoundHere()
      requires Valid()
      ensures Sound(T)
    {
    }

    method EvalMain(ep0: Episode, i: I, w0: Work<B>, sched: Schedule<I>) returns (ep: Episode, o: O, w: Work<B>)
      requires Valid() && EpisodeOk(ep0, w0, T.pure(i))
      modifies this, choices
      ensures Valid() && Grown(old(names), names) && o == T.out(i) && EpisodeOk(ep, w, T.pure(i))
    {
      MaybeKick(sched(8));
      Interfere(sched(9));
      ep, o, w := MainRung(ep0, i, w0, sched);
    }

    // --- every run --------------------------------------------------------------------------------------------

    /** Any run of whole evaluations and of main passes over any number of sessions, each at
        inputs of the binding it was last bound at, whatever lands and whoever else calls in
        between: every result is the full tape's. */
    method Run(events: seq<Event<I>>, sched: nat -> Schedule<I>) returns (outs: seq<Option<O>>)
      requires Valid() && forall k :: 0 <= k < |events| && events[k].Main? ==> BoundAt(T, events, k)
      modifies this, choices
      ensures Valid() && Grown(old(names), names) && |outs| == |events|
      ensures forall k :: 0 <= k < |events| ==> outs[k] == if events[k].Bind? then None else Some(T.out(events[k].i))
    {
      hide Adaptive.Valid, Grown, KindOk;
      var sessions: map<nat, (Episode, Work<B>)> := map[];
      assert Grown(names, names) by { GrownSelf(names); }
      outs := [];
      for k := 0 to |events|
        invariant Valid() && Grown(old(names), names) && |outs| == k
        invariant forall j :: 0 <= j < k ==> outs[j] == if events[j].Bind? then None else Some(T.out(events[j].i))
        invariant SessionsOk(T, events, k, sessions, names)
      {
        ghost var was := names;
        match events[k] {
          case Whole(i) =>
            var o, _ := Eval(i, Blank, sched(k));
            outs := outs + [Some(o)];
            SessionsKeep(T, events, k, sessions, was, names);
          case Bind(s, i) =>
            var ep, w := EvalProlog(i, Blank, sched(k));
            SessionsNext(T, events, k, sessions, was, names, s, i, ep, w);
            sessions := sessions[s := (ep, w)];
            outs := outs + [None];
          case Main(s, i) =>
            assert BoundAt(T, events, k);
            SessionAt(T, events, k, sessions, names, s);
            var ep, o, w := EvalMain(sessions[s].0, i, sessions[s].1, sched(k));
            SessionsNext(T, events, k, sessions, was, names, s, i, ep, w);
            sessions := sessions[s := (ep, w)];
            outs := outs + [Some(o)];
        }
        GrownOn(old(names), was, names);
      }
    }
  }

  ghost predicate JobOk(j: Job, names: map<nat, Spec>) { j.SpecJob? ==> j.ver in names && names[j.ver] == j.sp }

  ghost predicate Named(e: (Spec, nat), names: map<nat, Spec>) { e.1 in names && names[e.1] == e.0 }

  /** Names are given once. */
  ghost predicate Grown(was: map<nat, Spec>, now: map<nat, Spec>) { forall v ::
      v in was ==> v in now && now[v] == was[v] }

  ghost predicate KindOk<B>(k: Kind, w: Work<B>, b: B, names: map<nat, Spec>) {
    match k
    case OfFull => w == FullState(b)
    case OfInterp(sp, ver) => w == SpecState(sp, b) && ver in names && names[ver] == sp
    case OfNative(n, sp) => w == SpecState(sp, b) && n.of == sp
  }

  datatype Event<I> = Whole(i: I) | Bind(s: nat, i: I) | Main(s: nat, i: I)

  /** The inputs session `s` was last bound at among the first `n` events. */
  function LastBind<I>(events: seq<Event<I>>, n: nat, s: nat): Option<I>
    requires n <= |events|
  {
    if n == 0 then None
    else if events[n - 1].Bind? && events[n - 1].s == s then Some(events[n - 1].i)
    else LastBind(events, n - 1, s)
  }

  ghost predicate BoundAt<I, B, O>(T: Tape<I, B, O>, events: seq<Event<I>>, k: nat)
    requires k < |events| && events[k].Main?
  {
    LastBind(events, k, events[k].s).Some? && T.pure(LastBind(events, k, events[k].s).value) == T.pure(events[k].i)
  }

  lemma GrownSelf(a: map<nat, Spec>)
    ensures Grown(a, a)
  {
  }

  lemma GrownOn(a: map<nat, Spec>, b: map<nat, Spec>, c: map<nat, Spec>)
    requires Grown(a, b) && Grown(b, c)
    ensures Grown(a, c)
  {
  }

  /** Every session bound holds a buffer its episode can run on at its binding. */
  ghost predicate SessionsOk<I, B, O>(T: Tape<I, B, O>, events: seq<Event<I>>, k: nat,
                                      sessions: map<nat, (Episode, Work<B>)>, names: map<nat, Spec>)
    requires k <= |events|
  {
    forall s :: LastBind(events, k, s).Some? ==> s in sessions && SessionOk(T, events, k, sessions[s], names, s)
  }

  ghost predicate SessionOk<I, B, O>(T: Tape<I, B, O>, events: seq<Event<I>>, k: nat, x: (Episode, Work<B>),
                                     names: map<nat, Spec>, s: nat)
    requires k <= |events|
  {
    LastBind(events, k, s).Some? && KindOk(x.0.kind, x.1, T.pure(LastBind(events, k, s).value), names)
  }

  lemma SessionAt<I, B, O>(T: Tape<I, B, O>, events: seq<Event<I>>, k: nat, sessions: map<nat, (Episode, Work<B>)>,
                           names: map<nat, Spec>, s: nat)
    requires k < |events| && SessionsOk(T, events, k, sessions, names) && LastBind(events, k, s).Some?
    ensures s in sessions && KindOk(sessions[s].0.kind, sessions[s].1, T.pure(LastBind(events, k, s).value), names)
  {
    assert SessionOk(T, events, k, sessions[s], names, s);
  }

  lemma KindGrows<B>(k: Kind, w: Work<B>, b: B, was: map<nat, Spec>, now: map<nat, Spec>)
    requires KindOk(k, w, b, was) && Grown(was, now)
    ensures KindOk(k, w, b, now)
  {
  }

  lemma SessionsKeep<I, B, O>(T: Tape<I, B, O>, events: seq<Event<I>>, k: nat, sessions: map<nat, (Episode, Work<B>)>,
                              was: map<nat, Spec>, now: map<nat, Spec>)
    requires k < |events| && SessionsOk(T, events, k, sessions, was) && Grown(was, now) && !events[k].Bind?
    ensures SessionsOk(T, events, k + 1, sessions, now)
  {
    hide KindOk, Grown;
    forall s | LastBind(events, k + 1, s).Some?
      ensures s in sessions && SessionOk(T, events, k + 1, sessions[s], now, s) {
      assert SessionOk(T, events, k, sessions[s], was, s);
      KindGrows(sessions[s].0.kind, sessions[s].1, T.pure(LastBind(events, k, s).value), was, now);
    }
  }

  lemma SessionsNext<I, B, O>(T: Tape<I, B, O>, events: seq<Event<I>>, k: nat, sessions: map<nat, (Episode, Work<B>)>,
                              was: map<nat, Spec>, now: map<nat, Spec>, s: nat, i: I, ep: Episode, w: Work<B>)
    requires k < |events| && SessionsOk(T, events, k, sessions, was) && Grown(was, now)
             && KindOk(ep.kind, w, T.pure(i), now)
    requires events[k] == Bind(s, i) || (events[k] == Main(s, i) && BoundAt(T, events, k))
    ensures SessionsOk(T, events, k + 1, sessions[s := (ep, w)], now)
  {
    hide KindOk, Grown;
    var next := sessions[s := (ep, w)];
    forall t | LastBind(events, k + 1, t).Some? ensures t in next && SessionOk(T, events, k + 1, next[t], now, t) {
      if t != s {
        assert SessionOk(T, events, k, sessions[t], was, t);
        KindGrows(sessions[t].0.kind, sessions[t].1, T.pure(LastBind(events, k, t).value), was, now);
      }
    }
  }
}
