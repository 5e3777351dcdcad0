/**
 The one-shot timer. Every generation of the timer has its own fire fiber; fire, Stop and
 Reset race under one lock, and the tick is sent after the lock is released. The park of a
 fire fiber may return at any time (deadline, cancel or spuriously).
 */
module Timer {
  import opened Options
  import opened Seqs

  type Gen = nat

  /** The fields guarded by the lock. `handle` is the published cancel target, named by the
      generation of the fiber that published it. */
  datatype Fields = Fields(stopped: bool, fired: bool, gen: Gen, handle: Option<Gen>)

  // ---- the locked sections --------------------------------------------------------------

  /** First section of a fire fiber: publish the cancel target, or exit. */
  function Arm(t: Fields, g: Gen): (Fields, bool) {
    if t.stopped || t.gen != g then (t, false) else (t.(handle := Some(g)), true)
  }

  /** Second section, after the park: claim the tick, or exit. */
  function Fire(t: Fields, g: Gen): (Fields, bool) {
    if t.stopped || t.gen != g || t.fired then (t, false) else (t.(fired := true, handle := None), true)
  }

  /** Stop: its answer and the fiber to wake. */
  function Stop(t: Fields): (Fields, bool, Option<Gen>) {
    if t.stopped || t.fired then (t, false, None)
    else (Fields(true, t.fired, t.gen + 1, None), true, t.handle)
  }

  /** Reset: its answer and the fiber to wake; the new generation is `gen` afterwards. */
  function Reset(t: Fields): (Fields, bool, Option<Gen>) {
    (Fields(false, false, t.gen + 1, None), !t.stopped && !t.fired, t.handle)
  }

  // ---- runs ---------------------------------------------------------------------------------

  datatype Fiber = Unborn | Born | Parked | Sending | Exited

  /** `fibers`: the fire fiber of every generation ever armed; `sent`: generations by send;
      `cancelled`: generations that a Stop or Reset answering True put an end to;
      `woke`: cancel targets handed to cancel_wait_fd, with the generation they were to end. */
  datatype State = State(t: Fields, fibers: map<Gen, Fiber>, sent: seq<Gen>, cancelled: set<Gen>,
                         woke: seq<(Gen, Gen)>)

  datatype Action = SpawnFiber(g: Gen) | FiberBegins(g: Gen) | ParkReturns(g: Gen) | Send(g: Gen) | CallStop | CallReset

  function At(s: State, g: Gen): Fiber { if g in s.fibers then s.fibers[g] else Exited }

  function Woken(s: State, h: Option<Gen>): seq<(Gen, Gen)> {
    if h.Some? then s.woke + [(h.value, s.t.gen)] else s.woke
  }

  function Step(s: State, a: Action): State {
    match a
    case SpawnFiber(g) => if At(s, g).Unborn? then s.(fibers := s.fibers[g := Born]) else s
    case FiberBegins(g) =>
      if !At(s, g).Born? then s
      else
        var (t, go) := Arm(s.t, g);
        s.(t := t, fibers := s.fibers[g := if go then Parked else Exited])
    case ParkReturns(g) =>
      if !At(s, g).Parked? then s
      else
        var (t, go) := Fire(s.t, g);
        s.(t := t, fibers := s.fibers[g := if go then Sending else Exited])
    case Send(g) =>
      if At(s, g).Sending? then s.(fibers := s.fibers[g := Exited], sent := s.sent + [g]) else s
    case CallStop =>
      var (t, yes, h) := Stop(s.t);
      s.(t := t, cancelled := if yes then s.cancelled + {s.t.gen} else s.cancelled, woke := Woken(s, h))
    case CallReset =>
      var (t, yes, h) := Reset(s.t);
      s.(t := t, fibers := s.fibers[t.gen := Unborn],
         cancelled := if yes then s.cancelled + {s.t.gen} else s.cancelled, woke := Woken(s, h))
  }

  function Init(): State {
    State(Fields(false, false, 0, None), map[0 := Unborn], [], {}, [])
  }

  function Exec(s: State, run: seq<Action>): State {
    if run == [] then s else Step(Exec(s, run[..|run| - 1]), run[|run| - 1])
  }

  // ---- the invariant ------------------------------------------------------------------------------

  /** The generation that may still fire: the current one of a timer neither stopped nor fired. */
  ghost predicate Live(s: State, g: Gen) { g == s.t.gen && !s.t.stopped && !s.t.fired }

  ghost predicate Placed(s: State, g: Gen) {
    && (g in s.cancelled || g in s.sent ==> g in s.fibers)
    && (g in s.fibers ==> g <= s.t.gen && (g == s.t.gen ==> !s.t.stopped))
    && (Live(s, g) ==> g in s.fibers && g !in s.cancelled && g !in s.sent
                       && (At(s, g).Unborn? || At(s, g).Born? || At(s, g).Parked?))
    && (g in s.cancelled ==> g < s.t.gen && !At(s, g).Sending? && g !in s.sent)
    && (At(s, g).Sending? ==> g !in s.sent)
    && (g in s.sent ==> At(s, g).Exited?)
    && (g in s.fibers && !Live(s, g) && g !in s.cancelled ==> At(s, g).Sending? || g in s.sent)
    && (s.t.handle == Some(g) <==> Live(s, g) && At(s, g).Parked?)
  }

  ghost predicate Inv(s: State) {
    && !(s.t.stopped && s.t.fired)
    && Distinct(s.sent)
    && (forall i :: 0 <= i < |s.woke| ==> s.woke[i].0 == s.woke[i].1)
    && forall g: Gen :: Placed(s, g)
  }

  lemma StepKeeps(s: State, a: Action)
    requires Inv(s)
    ensures Inv(Step(s, a))
  {
    assert Placed(s, s.t.gen) && Placed(s, s.t.gen + 1);
    if a.Send? { assert Placed(s, a.g); }
    if s.t.handle.Some? { assert Placed(s, s.t.handle.value); }
    forall g: Gen ensures Placed(Step(s, a), g) { assert Placed(s, g); }
  }

  lemma {:induction false} Reachable(run: seq<Action>)
    ensures Inv(Exec(Init(), run))
    decreases |run|
  {
    if run != [] {
      Reachable(run[..|run| - 1]);
      StepKeeps(Exec(Init(), run[..|run| - 1]), run[|run| - 1]);
    }
  }

  // ---- the theorems -----------------------------------------------------------------------------------

  /** What Stop and Reset answer, in every reachable state: True exactly when the current generation
      can still fire, which it then no longer can; after a Reset the new generation can. */
  lemma Answers(run: seq<Action>)
    ensures var s := Exec(Init(), run);
            var g := s.t.gen;
            && (Stop(s.t).1 <==> Live(s, g)) && (Reset(s.t).1 <==> Live(s, g))
            && (var s' := Step(s, CallStop);
                && (forall h: Gen :: !Live(s', h))
                && (g in s'.cancelled <==> g in s.cancelled || Live(s, g)))
            && (var s' := Step(s, CallReset);
                && s'.t.gen > g && Live(s', s'.t.gen) && At(s', s'.t.gen).Unborn?
                && (g in s'.cancelled <==> g in s.cancelled || Live(s, g)))
  {
    Reachable(run);
    assert Placed(Exec(Init(), run), Exec(Init(), run).t.gen);
  }

  /** A generation that can still fire does, once its fiber gets to run. */
  lemma LiveOneFires(run: seq<Action>, g: Gen)
    requires Live(Exec(Init(), run), g)
    ensures var s := Exec(Init(), run);
            g in Step(Step(Step(Step(s, SpawnFiber(g)), FiberBegins(g)), ParkReturns(g)), Send(g)).sent
  {
    Reachable(run);
    var s := Exec(Init(), run);
    assert Placed(s, g);
    var s1 := Step(s, SpawnFiber(g));
    assert At(s1, g).Born? || At(s1, g).Parked?;
    var s2 := Step(s1, FiberBegins(g));
    assert At(s2, g).Parked? && Live(s2, g);
    var s3 := Step(s2, ParkReturns(g));
    assert At(s3, g).Sending?;
  }

  /** In every interleaving each generation is sent at most once, a generation cancelled by a Stop
      or Reset that answered True has no send, past or in progress, and a generation that is
      over was cancelled or was sent or is just being sent: exactly one of them. */
  lemma CancelledOrSent(run: seq<Action>, g: Gen)
    ensures var s := Exec(Init(), run);
            && Distinct(s.sent)
            && (g in s.cancelled ==> g !in s.sent && !At(s, g).Sending?)
            && (g in s.fibers && !Live(s, g) ==> (g in s.cancelled <==> g !in s.sent && !At(s, g).Sending?))
  {
    Reachable(run);
    assert Placed(Exec(Init(), run), g);
  }

  /** The answer True is final: no continuation sends a cancelled generation. */
  lemma {:induction false} NoTickAfterTrue(run: seq<Action>, more: seq<Action>, g: Gen)
    requires g in Exec(Init(), run).cancelled
    ensures g in Exec(Exec(Init(), run), more).cancelled && g !in Exec(Exec(Init(), run), more).sent
    ensures Inv(Exec(Exec(Init(), run), more))
    decreases |more|
  {
    if more == [] {
      Reachable(run);
      assert Placed(Exec(Init(), run), g);
    } else {
      NoTickAfterTrue(run, more[..|more| - 1], g);
      var m := Exec(Exec(Init(), run), more[..|more| - 1]);
      StepKeeps(m, more[|more| - 1]);
      assert Placed(Step(m, more[|more| - 1]), g);
    }
  }

  /** A published cancel target always belongs to the current, unstopped, unfired generation,
      whose fiber is parked; and a wake always went to the generation being ended. */
  lemma HandleIsLive(run: seq<Action>)
    ensures var s := Exec(Init(), run);
            && (s.t.handle.Some? ==> Live(s, s.t.handle.value) && At(s, s.t.handle.value).Parked?)
            && (forall i :: 0 <= i < |s.woke| ==> s.woke[i].0 == s.woke[i].1)
  {
    Reachable(run);
    var s := Exec(Init(), run);
    if s.t.handle.Some? { assert Placed(s, s.t.handle.value); }
  }

  class TimerFields {
    var stopped: bool
    var fired: bool
    var gen: nat
    var handle: Option<Gen>

    function View(): Fields
      reads this
    {
      Fields(stopped, fired, gen, handle)
    }

    constructor ()
      ensures View() == Init().t
    {
      stopped, fired, gen, handle := false, false, 0, None;
    }

    method BeginFire(g: Gen) returns (go: bool)
      modifies this
      ensures (View(), go) == Arm(old(View()), g)
    {
      go := !stopped && gen == g;
      if go { handle := Some(g); }
    }

    method EndFire(g: Gen) returns (go: bool)
      modifies this
      ensures (View(), go) == Fire(old(View()), g)
    {
      go := !stopped && gen == g && !fired;
      if go { fired, handle := true, None; }
    }

    method Halt() returns (yes: bool, wake: Option<Gen>)
      modifies this
      ensures (View(), yes, wake) == Stop(old(View()))
    {
      if stopped || fired { return false, None; }
      stopped, gen := true, gen + 1;
      wake, handle := handle, None;
      yes := true;
    }

    method Rearm() returns (yes: bool, wake: Option<Gen>)
      modifies this
      ensures (View(), yes, wake) == Reset(old(View()))
    {
      yes := !stopped && !fired;
      gen := gen + 1;
      stopped, fired := false, false;
      wake, handle := handle, None;
    }
  }
}
