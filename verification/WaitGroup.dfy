/**
 The wait group. add() runs its guarded section atomically and wakes after it; wait() loops:
 check under the guard, queue itself again, park. No assumption is made on the clients: the
 counter may be driven negative, as the code allows.
 */
module WaitGroup {
  import opened Seqs

  type Call = nat

  datatype Group = Group(n: int, waiters: seq<Call>)

  // ---- the guarded sections ---------------------------------------------------------

  /** add(delta): raises below zero, leaving the counter there; wakes all waiters at zero. */
  function Add(g: Group, delta: int): (Group, bool, seq<Call>) {
    var n := g.n + delta;
    if n < 0 then (g.(n := n), false, [])
    else if n == 0 && g.waiters != [] then (Group(n, []), true, g.waiters)
    else (g.(n := n), true, [])
  }

  /** One turn of wait()'s loop: done at zero, else queued (again). */
  function Check(g: Group, c: Call): (Group, bool) {
    if g.n == 0 then (g, true) else (g.(waiters := g.waiters + [c]), false)
  }

  // ---- runs --------------------------------------------------------------------------------

  datatype Phase = Waiting | Returned

  datatype State = State(g: Group, calls: map<Call, Phase>, owed: set<Call>, woken: set<Call>)

  datatype Action = CallAdd(delta: int) | CallWait(c: Call) | ParkReturns(c: Call) | IssueWake(c: Call)

  function Turn(s: State, c: Call): State {
    var (g, done) := Check(s.g, c);
    s.(g := g, calls := s.calls[c := if done then Returned else Waiting], woken := s.woken - {c})
  }

  function Step(s: State, a: Action): State {
    match a
    case CallAdd(delta) =>
      var (g, ok, woke) := Add(s.g, delta);
      s.(g := g, owed := s.owed + Elems(woke))
    case CallWait(c) => if c in s.calls then s else Turn(s, c)
    case ParkReturns(c) => if c in s.calls && s.calls[c].Waiting? then Turn(s, c) else s
    case IssueWake(c) =>
      if c in s.owed then s.(owed := s.owed - {c}, woken := s.woken + {c}) else s
  }

  function Init(): State { State(Group(0, []), map[], {}, {}) }

  function Exec(s: State, run: seq<Action>): State {
    if run == [] then s else Step(Exec(s, run[..|run| - 1]), run[|run| - 1])
  }

  ghost predicate Inv(s: State) {
    && (s.g.waiters != [] ==> s.g.n != 0)
    && forall c :: c in s.calls && s.calls[c].Waiting? ==> c in s.g.waiters || c in s.owed || c in s.woken
  }

  lemma StepKeeps(s: State, a: Action)
    requires Inv(s)
    ensures Inv(Step(s, a))
  {
  }

  lemma {:induction false} Reachable(run: seq<Action>)
    ensures Inv(Exec(Init(), run))
    decreases |run|
  {
    if run != [] {
      Reachable(run[..|run| - 1]);
      StepKeeps(Exec(Init(), run[..|run| - 1]), run[|run| - 1]);
    }
  }

  function Sum(run: seq<Action>): int {
    if run == [] then 0
    else Sum(run[..|run| - 1]) + if run[|run| - 1].CallAdd? then run[|run| - 1].delta else 0
  }

  /** The counter is the sum of all deltas so far; an add raises exactly when it makes that sum
      negative; a call of wait(), new or resumed, returns exactly when it is zero. */
  lemma {:induction false} Outcomes(run: seq<Action>, delta: int, c: Call)
    ensures var s := Exec(Init(), run);
            && s.g.n == Sum(run)
            && (Add(s.g, delta).1 <==> Sum(run) + delta >= 0)
            && (c !in s.calls || s.calls[c].Waiting? ==>
                  var s' := Step(s, if c in s.calls then ParkReturns(c) else CallWait(c));
                  c in s'.calls && (s'.calls[c].Returned? <==> Sum(run) == 0))
    decreases |run|
  {
    if run != [] { Outcomes(run[..|run| - 1], delta, c); }
  }

  /** A call in wait()'s loop is queued while the count is not zero, or has a wake owed or issued
      since it last queued; and it leaves the loop only at a moment the count is zero. */
  lemma {:induction false} NoLostWake(run: seq<Action>, a: Action, c: Call)
    ensures var s := Exec(Init(), run);
            var s' := Step(s, a);
            && (c in s.calls && s.calls[c].Waiting? ==>
                  (c in s.g.waiters && s.g.n != 0) || c in s.owed + s.woken)
            && (c in s'.calls && s'.calls[c].Returned? && !(c in s.calls && s.calls[c].Returned?) ==> s.g.n == 0)
  {
    Reachable(run);
  }

  /** The add that reaches zero leaves every call in the loop with a wake owed or issued. */
  lemma ZeroWakesAll(run: seq<Action>, delta: int)
    ensures var s' := Step(Exec(Init(), run), CallAdd(delta));
            s'.g.n == 0 ==>
              s'.g.waiters == [] && forall c :: c in s'.calls && s'.calls[c].Waiting? ==> c in s'.owed + s'.woken
  {
    Reachable(run + [CallAdd(delta)]);
    assert (run + [CallAdd(delta)])[..|run|] == run;
  }

  class Counter {
    var n: int
    var waiters: seq<Call>

    function View(): Group
      reads this
    {
      Group(n, waiters)
    }

    constructor ()
      ensures View() == Init().g
    {
      n, waiters := 0, [];
    }

    method Bump(delta: int) returns (ok: bool, woke: seq<Call>)
      modifies this
      ensures (View(), ok, woke) == Add(old(View()), delta)
    {
      n, woke := n + delta, [];
      if n < 0 { return false, []; }
      ok := true;
      if n == 0 && waiters != [] { woke, waiters := waiters, []; }
    }

    method Poll(c: Call) returns (done: bool)
      modifies this
      ensures (View(), done) == Check(old(View()), c)
    {
      done := n == 0;
      if !done { waiters := waiters + [c]; }
    }
  }
}
