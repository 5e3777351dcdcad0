/**
 Watch: a versioned cell whose observers wait for a version above the one they have seen.
 An observer queues itself once; set() empties the queue and wakes everyone in it.
 */
module Watch {
  import opened Options
  import opened Seqs

  type Call = nat

  datatype Cell = Cell(value: int, version: nat, waiters: seq<Call>)

  // ---- the guarded sections ------------------------------------------------------------

  function Set(w: Cell, v: int): (Cell, seq<Call>) {
    (Cell(v, w.version + 1, []), w.waiters)
  }

  /** wait_changed's first section: answer at once, or queue. */
  function Enter(w: Cell, c: Call, seen: int): (Cell, Option<(int, nat)>) {
    if w.version > seen then (w, Some((w.value, w.version))) else (w.(waiters := w.waiters + [c]), None)
  }

  /** After a return of park(): leave the queue and answer, or park again without queueing. */
  function Recheck(w: Cell, c: Call, seen: int): (Cell, Option<(int, nat)>) {
    if w.version > seen then (w.(waiters := Without(w.waiters, {c})), Some((w.value, w.version))) else (w, None)
  }

  function GiveUp(w: Cell, c: Call, seen: int): (Cell, Option<(int, nat)>) {
    (w.(waiters := Without(w.waiters, {c})), if w.version > seen then Some((w.value, w.version)) else None)
  }

  // ---- runs ------------------------------------------------------------------------------------

  datatype Phase = Waiting(seen: int, entry: nat) | Got(seen: int, value: int, version: nat) | TimedOut

  /** `past[i]` is the value set at version i; `entry` the version when the call queued. */
  datatype State = State(w: Cell, calls: map<Call, Phase>, owed: set<Call>, woken: set<Call>, past: seq<int>)

  datatype Action =
    | CallSet(v: int)
    | CallWait(c: Call, seen: int)
    | ParkReturns(c: Call)
    | DeadlinePasses(c: Call)
    | IssueWake(c: Call)

  function Answered(p: Phase, seen: int, r: Option<(int, nat)>): Phase {
    if r.Some? then Got(seen, r.value.0, r.value.1) else p
  }

  function Step(s: State, a: Action): State {
    match a
    case CallSet(v) =>
      var (w, woke) := Set(s.w, v);
      s.(w := w, owed := s.owed + Elems(woke), past := s.past + [v])
    case CallWait(c, seen) =>
      if c in s.calls then s
      else
        var (w, r) := Enter(s.w, c, seen);
        s.(w := w, calls := s.calls[c := Answered(Waiting(seen, s.w.version), seen, r)])
    case ParkReturns(c) =>
      if c !in s.calls || !s.calls[c].Waiting? then s
      else
        var (w, r) := Recheck(s.w, c, s.calls[c].seen);
        s.(w := w, calls := s.calls[c := Answered(s.calls[c], s.calls[c].seen, r)], woken := s.woken - {c})
    case DeadlinePasses(c) =>
      if c !in s.calls || !s.calls[c].Waiting? then s
      else
        var (w, r) := GiveUp(s.w, c, s.calls[c].seen);
        s.(w := w, calls := s.calls[c := Answered(TimedOut, s.calls[c].seen, r)])
    case IssueWake(c) =>
      if c in s.owed then s.(owed := s.owed - {c}, woken := s.woken + {c}) else s
  }

  function Init(v: int): State { State(Cell(v, 0, []), map[], {}, {}, [v]) }

  function Exec(s: State, run: seq<Action>): State {
    if run == [] then s else Step(Exec(s, run[..|run| - 1]), run[|run| - 1])
  }

  ghost predicate Placed(s: State, c: Call) {
    && (c in s.w.waiters ==> c in s.calls && s.calls[c].Waiting?)
    && (c in s.owed ==> c in s.calls)
    && (c in s.calls ==>
          match s.calls[c]
          case Waiting(seen, entry) =>
            && entry <= s.w.version && entry <= seen
            && (entry == seen ==> if s.w.version > seen then c in s.owed || c in s.woken else c in s.w.waiters)
            && (c in s.w.waiters ==> entry == s.w.version)
            && (entry == s.w.version ==> c in s.w.waiters)
          case Got(seen, value, version) =>
            version > seen && version < |s.past| && s.past[version] == value
          case TimedOut => true)
  }

  ghost predicate Inv(s: State) {
    && |s.past| == s.w.version + 1 && s.past[s.w.version] == s.w.value
    && forall c: Call :: Placed(s, c)
  }

  lemma StepKeeps(s: State, a: Action)
    requires Inv(s)
    ensures Inv(Step(s, a))
  {
    forall c: Call ensures Placed(Step(s, a), c) { assert Placed(s, c); }
  }

  lemma {:induction false} Reachable(v: int, run: seq<Action>)
    ensures Inv(Exec(Init(v), run))
    decreases |run|
  {
    if run != [] {
      Reachable(v, run[..|run| - 1]);
      StepKeeps(Exec(Init(v), run[..|run| - 1]), run[|run| - 1]);
    }
  }

  /** What each operation decides, in every reachable state: a set raises the version by one and owes
      every queued call a wake; a wait is answered at once, on resuming or at its deadline exactly
      when the version is above the one seen, with the current value and version. */
  lemma Outcomes(v: int, run: seq<Action>, c: Call, seen: int, next: int)
    ensures var s := Exec(Init(v), run);
            && (var s' := Step(s, CallSet(next));
                && s'.w.version == s.w.version + 1 && s'.w.value == next
                && forall d :: d in s.w.waiters ==> d in s'.owed)
            && (c !in s.calls ==>
                  Phased(Step(s, CallWait(c, seen)), c, seen, s.w, Waiting(seen, s.w.version)))
            && (c in s.calls && s.calls[c].Waiting? ==>
                  && Phased(Step(s, ParkReturns(c)), c, s.calls[c].seen, s.w, s.calls[c])
                  && Phased(Step(s, DeadlinePasses(c)), c, s.calls[c].seen, s.w, TimedOut))
  {
    Reachable(v, run);
  }

  /** Call `c` has the current value if that is newer than what it had seen, else it is in phase `p`. */
  ghost predicate Phased(s: State, c: Call, seen: int, w: Cell, p: Phase) {
    c in s.calls && s.calls[c] == if w.version > seen then Got(seen, w.value, w.version) else p
  }

  /** An answer carries a version above the one seen and the value that version was set to. */
  lemma AnswersAreNewer(v: int, run: seq<Action>, c: Call)
    ensures var s := Exec(Init(v), run);
            c in s.calls && s.calls[c].Got? ==>
              s.calls[c].version > s.calls[c].seen && s.calls[c].version < |s.past|
              && s.past[s.calls[c].version] == s.calls[c].value
  {
    Reachable(v, run);
    assert Placed(Exec(Init(v), run), c);
  }

  /** Parked although the version it waits for has come, out of the queue, and no wake on its
      way: only a spurious return of park() or its own deadline can still help this call. */
  ghost predicate Stranded(s: State, c: Call) {
    && c in s.calls && s.calls[c].Waiting? && s.w.version > s.calls[c].seen
    && c !in s.w.waiters && c !in s.owed && c !in s.woken
  }

  ghost predicate StrandedAfter(s: State, more: seq<Action>, c: Call) { Stranded(Exec(s, more), c) }

  function Sets(k: nat): seq<Action> { seq(k, _ => CallSet(0)) }

  lemma {:induction false} SetsPassBy(s: State, c: Call, k: nat)
    requires c in s.calls && s.calls[c].Waiting? && c !in s.w.waiters && c !in s.owed && c !in s.woken
    ensures var s' := Exec(s, Sets(k));
            && s'.w.version == s.w.version + k && s'.calls == s.calls
            && c !in s'.w.waiters && c !in s'.owed && c !in s'.woken
    decreases k
  {
    if k > 0 {
      SetsPassBy(s, c, k - 1);
      assert Sets(k)[..k - 1] == Sets(k - 1);
    }
  }

  /** The first set after queueing dequeues and wakes the call; when even that version is not
      above `seen`, the call parks again unqueued and later sets pass it by. */
  lemma StrandsWhenAhead(s: State, c: Call, seen: int) returns (more: seq<Action>)
    requires Inv(s) && c !in s.calls && c !in s.owed && seen > s.w.version
    ensures Stranded(Exec(Step(s, CallWait(c, seen)), more), c)
  {
    var s0 := Step(s, CallWait(c, seen));
    var s1 := Step(s0, CallSet(0));
    var s2 := Step(s1, IssueWake(c));
    var s3 := Step(s2, ParkReturns(c));
    var head, tail := [CallSet(0), IssueWake(c), ParkReturns(c)], Sets(seen - s.w.version);
    assert c in s1.owed && c in s2.woken;
    assert head[..2] == [CallSet(0), IssueWake(c)] && head[..2][..1] == [CallSet(0)] && head[..2][..1][..0] == [];
    assert Exec(s0, head[..2][..1]) == s1;
    assert Exec(s0, head) == s3;
    SetsPassBy(s3, c, seen - s.w.version);
    ExecConcat(s0, head, tail);
    more := head + tail;
  }

  lemma {:induction false} ExecConcat(s: State, a: seq<Action>, b: seq<Action>)
    ensures Exec(s, a + b) == Exec(Exec(s, a), b)
    decreases |b|
  {
    if b == [] {
      assert a + b == a;
    } else {
      assert (a + b)[..|a + b| - 1] == a + b[..|b| - 1];
      ExecConcat(s, a, b[..|b| - 1]);
    }
  }

  lemma {:induction false} StaysPutOrLeaves(s: State, more: seq<Action>, c: Call)
    requires Inv(s) && c in s.calls
    ensures var s' := Exec(s, more);
            && Inv(s') && c in s'.calls && (s'.calls[c].Waiting? ==> s'.calls[c] == s.calls[c])
    decreases |more|
  {
    if more != [] {
      StaysPutOrLeaves(s, more[..|more| - 1], c);
      StepKeeps(Exec(s, more[..|more| - 1]), more[|more| - 1]);
    }
  }

  /** Exactly when a waiter can be lost: from any reachable moment, a new wait_changed(seen) can
      end up stranded if and only if `seen` is above the current version. */
  lemma StrandsExactlyWhenAhead(v: int, run: seq<Action>, c: Call, seen: int)
    requires c !in Exec(Init(v), run).calls
    ensures var s := Exec(Init(v), run);
            (exists more :: StrandedAfter(Step(s, CallWait(c, seen)), more, c)) <==> seen > s.w.version
  {
    Reachable(v, run);
    var s := Exec(Init(v), run);
    assert Placed(s, c);
    var s0 := Step(s, CallWait(c, seen));
    if seen > s.w.version {
      var more := StrandsWhenAhead(s, c, seen);
      assert StrandedAfter(s0, more, c);
    } else {
      StepKeeps(s, CallWait(c, seen));
      forall more ensures !StrandedAfter(s0, more, c) {
        StaysPutOrLeaves(s0, more, c);
        assert Placed(Exec(s0, more), c);
      }
    }
  }

  // ---- the object ----------------------------------------------------------------------------

  class WatchCell {
    var value: int
    var version: nat
    var waiters: seq<Call>

    function View(): Cell
      reads this
    {
      Cell(value, version, waiters)
    }

    constructor (v: int)
      ensures View() == Init(v).w
    {
      value, version, waiters := v, 0, [];
    }

    method Publish(v: int) returns (woke: seq<Call>)
      modifies this
      ensures (View(), woke) == Set(old(View()), v)
    {
      value, version := v, version + 1;
      woke, waiters := waiters, [];
    }

    method Begin(c: Call, seen: int) returns (r: Option<(int, nat)>)
      modifies this
      ensures (View(), r) == Enter(old(View()), c, seen)
    {
      if version > seen { return Some((value, version)); }
      waiters := waiters + [c];
      r := None;
    }

    method Again(c: Call, seen: int) returns (r: Option<(int, nat)>)
      modifies this
      ensures (View(), r) == Recheck(old(View()), c, seen)
    {
      if version <= seen { return None; }
      waiters := Without(waiters, {c});
      r := Some((value, version));
    }

    method TimeOut(c: Call, seen: int) returns (r: Option<(int, nat)>)
      modifies this
      ensures (View(), r) == GiveUp(old(View()), c, seen)
    {
      waiters := Without(waiters, {c});
      r := if version > seen then Some((value, version)) else None;
    }
  }
}
