/**
 The one-shot future. Guarded sections are atomic
 steps, waits are outside the guard, park() may return and deadlines may pass at any time.
 */
module Future {
  import opened Options
  import opened Seqs

  type Call = nat

  /** A result or an exception. */
  datatype Outcome = Value(v: int) | Error(e: int)

  datatype Fut = Fut(outcome: Option<Outcome>, waiters: seq<Call>)

  // ---- the guarded sections ------------------------------------------------------

  /** set_result / set_exception: the second resolution raises and changes nothing. */
  function Resolve(f: Fut, o: Outcome): (Fut, bool, seq<Call>) {
    if f.outcome.Some? then (f, false, []) else (Fut(Some(o), []), true, f.waiters)
  }

  function Await(f: Fut, c: Call): Fut {
    if f.outcome.Some? then f else f.(waiters := f.waiters + [c])
  }

  function GiveUp(f: Fut, c: Call): Fut {
    f.(waiters := Without(f.waiters, {c}))
  }

  // ---- runs ---------------------------------------------------------------------------

  datatype Phase = Waiting | Got(o: Outcome) | TimedOut

  datatype State = State(f: Fut, calls: map<Call, Phase>, owed: set<Call>, woken: set<Call>)

  datatype Action =
    | CallResolve(o: Outcome)
    | CallResult(c: Call)
    | ParkReturns(c: Call)
    | DeadlinePasses(c: Call)
    | IssueWake(c: Call)

  function Look(s: State, c: Call): State {
    if s.f.outcome.Some? then s.(calls := s.calls[c := Got(s.f.outcome.value)]) else s
  }

  function Step(s: State, a: Action): State {
    match a
    case CallResolve(o) =>
      var (f, ok, woke) := Resolve(s.f, o);
      s.(f := f, owed := s.owed + Elems(woke))
    case CallResult(c) =>
      if c in s.calls then s
      else Look(s.(f := Await(s.f, c), calls := s.calls[c := Waiting]), c)
    case ParkReturns(c) =>
      if c !in s.calls || !s.calls[c].Waiting? then s else Look(s.(woken := s.woken - {c}), c)
    case DeadlinePasses(c) =>
      if c !in s.calls || !s.calls[c].Waiting? then s
      else Look(s.(f := GiveUp(s.f, c), calls := s.calls[c := TimedOut]), c)
    case IssueWake(c) =>
      if c in s.owed then s.(owed := s.owed - {c}, woken := s.woken + {c}) else s
  }

  function Init(): State { State(Fut(None, []), map[], {}, {}) }

  function Exec(s: State, run: seq<Action>): State {
    if run == [] then s else Step(Exec(s, run[..|run| - 1]), run[|run| - 1])
  }

  ghost predicate Placed(s: State, c: Call) {
    && (s.f.outcome.Some? ==> s.f.waiters == [])
    && if c !in s.calls then c !in s.f.waiters
       else match s.calls[c]
         case Waiting => if s.f.outcome.None? then c in s.f.waiters else c in s.owed || c in s.woken
         case Got(o) => s.f.outcome == Some(o)
         case TimedOut => c !in s.f.waiters
  }

  ghost predicate Inv(s: State) { forall c: Call :: Placed(s, c) }

  lemma StepKeeps(s: State, a: Action)
    requires Inv(s)
    ensures Inv(Step(s, a))
  {
    forall c: Call ensures Placed(Step(s, a), c) { assert Placed(s, c); }
  }

  lemma {:induction false} Reachable(run: seq<Action>)
    ensures Inv(Exec(Init(), run))
    decreases |run|
  {
    if run != [] {
      Reachable(run[..|run| - 1]);
      StepKeeps(Exec(Init(), run[..|run| - 1]), run[|run| - 1]);
    }
  }

  /** What each operation decides, in every reachable state: a resolution is refused exactly when
      there is an outcome already, and otherwise sets it and owes every queued call a wake; a call
      of result() is answered at once, on resuming or at its deadline exactly when there is one. */
  lemma Outcomes(run: seq<Action>, o: Outcome, c: Call)
    ensures var s := Exec(Init(), run);
            && (Resolve(s.f, o).1 <==> s.f.outcome.None?)
            && (s.f.outcome.None? ==>
                  var s' := Step(s, CallResolve(o));
                  s'.f.outcome == Some(o) && forall d :: d in s.f.waiters ==> d in s'.owed)
            && (c !in s.calls ==> Phased(Step(s, CallResult(c)), c, s.f.outcome, Waiting))
            && (c in s.calls && s.calls[c].Waiting? ==>
                  && Phased(Step(s, ParkReturns(c)), c, s.f.outcome, Waiting)
                  && Phased(Step(s, DeadlinePasses(c)), c, s.f.outcome, TimedOut))
  {
    Reachable(run);
    assert Placed(Exec(Init(), run), c);
  }

  /** Call `c` has the outcome, if there is one, and is in phase `p` if not. */
  ghost predicate Phased(s: State, c: Call, outcome: Option<Outcome>, p: Phase) {
    c in s.calls && s.calls[c] == if outcome.Some? then Got(outcome.value) else p
  }

  /** In every run each call of result() is queued on an unresolved future, or has its wake owed
      or issued on a resolved one; what it returned is the outcome; a lapsed call left no trace. */
  lemma {:induction false} AwaitersAreServed(run: seq<Action>, c: Call)
    ensures var s := Exec(Init(), run);
            c in s.calls ==>
              match s.calls[c]
              case Waiting => if s.f.outcome.None? then c in s.f.waiters else c in s.owed + s.woken
              case Got(o) => s.f.outcome == Some(o)
              case TimedOut => c !in s.f.waiters
  {
    Reachable(run);
    assert Placed(Exec(Init(), run), c);
  }

  /** Resolved once and for all: the outcome never changes afterwards, so all awaiters agree. */
  lemma {:induction false} OutcomeIsFinal(s: State, more: seq<Action>)
    requires s.f.outcome.Some?
    ensures Exec(s, more).f.outcome == s.f.outcome
    decreases |more|
  {
    if more != [] { OutcomeIsFinal(s, more[..|more| - 1]); }
  }

  // ---- the object -----------------------------------------------------------------------------

  class FutureCell {
    var outcome: Option<Outcome>
    var waiters: seq<Call>

    function View(): Fut
      reads this
    {
      Fut(outcome, waiters)
    }

    constructor ()
      ensures View() == Init().f
    {
      outcome, waiters := None, [];
    }

    method Settle(o: Outcome) returns (ok: bool, woke: seq<Call>)
      modifies this
      ensures (View(), ok, woke) == Resolve(old(View()), o)
    {
      if outcome.Some? { return false, []; }
      outcome := Some(o);
      woke, waiters := waiters, [];
      ok := true;
    }

    method Enlist(c: Call) returns (seen: Option<Outcome>)
      modifies this
      ensures View() == Await(old(View()), c) && seen == old(outcome)
    {
      seen := outcome;
      if seen.None? { waiters := waiters + [c]; }
    }

    method Withdraw(c: Call) returns (seen: Option<Outcome>)
      modifies this
      ensures View() == GiveUp(old(View()), c) && seen == old(outcome)
    {
      waiters := Without(waiters, {c});
      seen := outcome;
    }
  }
}
