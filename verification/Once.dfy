/**
 Once: one fiber runs the function, the others wait until it has finished. Waiters queue
 again after every spurious return of park(). Fiber callers only.
 */
module Once {
  import opened Seqs

  type Call = nat

  datatype Cell = Cell(done: bool, running: bool, waiters: seq<Call>)

  datatype Turn = Go | Wait | Return

  // ---- the guarded sections -----------------------------------------------------------

  function Enter(o: Cell, c: Call): (Cell, Turn) {
    if o.done then (o, Return)
    else if !o.running then (o.(running := true), Go)
    else (o.(waiters := o.waiters + [c]), Wait)
  }

  function Finish(o: Cell): (Cell, seq<Call>) {
    (Cell(true, false, []), o.waiters)
  }

  /** A waiter after a return of park(): done, or queued again. */
  function Recheck(o: Cell, c: Call): (Cell, Turn) {
    if o.done then (o, Return) else (o.(waiters := o.waiters + [c]), Wait)
  }

  // ---- runs ----------------------------------------------------------------------------------

  datatype Phase = Executing | Waiting | Returned

  /** `starts`: calls that were told to run the function, in order; `ended`: it has finished. */
  datatype State = State(o: Cell, calls: map<Call, Phase>, owed: set<Call>, woken: set<Call>,
                         starts: seq<Call>, ended: bool)

  datatype Action = CallDo(c: Call) | FnEnds(c: Call) | ParkReturns(c: Call) | IssueWake(c: Call)

  function Step(s: State, a: Action): State {
    match a
    case CallDo(c) =>
      if c in s.calls then s
      else
        var (o, t) := Enter(s.o, c);
        (match t
         case Go => s.(o := o, calls := s.calls[c := Executing], starts := s.starts + [c])
         case Wait => s.(o := o, calls := s.calls[c := Waiting])
         case Return => s.(calls := s.calls[c := Returned]))
    case FnEnds(c) =>
      if c !in s.calls || !s.calls[c].Executing? then s
      else
        var (o, woke) := Finish(s.o);
        s.(o := o, calls := s.calls[c := Returned], owed := s.owed + Elems(woke), ended := true)
    case ParkReturns(c) =>
      if c !in s.calls || !s.calls[c].Waiting? then s
      else
        var (o, t) := Recheck(s.o, c);
        s.(o := o, calls := s.calls[c := if t.Return? then Returned else Waiting], woken := s.woken - {c})
    case IssueWake(c) =>
      if c in s.owed then s.(owed := s.owed - {c}, woken := s.woken + {c}) else s
  }

  function Init(): State { State(Cell(false, false, []), map[], {}, {}, [], false) }

  function Exec(s: State, run: seq<Action>): State {
    if run == [] then s else Step(Exec(s, run[..|run| - 1]), run[|run| - 1])
  }

  ghost predicate Inv(s: State) {
    && |s.starts| == (if s.o.running || s.o.done then 1 else 0)
    && !(s.o.running && s.o.done)
    && (s.o.done <==> s.ended)
    && (s.o.waiters != [] ==> s.o.running)
    && (forall c :: c in s.calls && s.calls[c].Executing? ==> s.o.running && s.starts == [c])
    && (s.o.running ==> s.starts[0] in s.calls && s.calls[s.starts[0]].Executing?)
    && (forall c :: c in s.calls && s.calls[c].Waiting? ==>
          if s.o.done then c in s.owed || c in s.woken else c in s.o.waiters)
    && (forall c :: c in s.calls && s.calls[c].Returned? ==> s.o.done)
  }

  lemma StepKeeps(s: State, a: Action)
    requires Inv(s)
    ensures Inv(Step(s, a))
  {
  }

  lemma {:induction false} Reachable(run: seq<Action>)
    ensures Inv(Exec(Init(), run))
    decreases |run|
  {
    if run != [] {
      Reachable(run[..|run| - 1]);
      StepKeeps(Exec(Init(), run[..|run| - 1]), run[|run| - 1]);
    }
  }

  /** What a call decides, in every reachable state: it runs the function exactly when no call has
      started it, returns exactly when it has ended, and waits in between; a resumed waiter returns
      exactly when it has ended; the end of the function owes every queued call a wake. */
  lemma Outcomes(run: seq<Action>, c: Call)
    ensures var s := Exec(Init(), run);
            && (c !in s.calls ==>
                  var s' := Step(s, CallDo(c));
                  c in s'.calls && s'.calls[c] ==
                    (if s.starts == [] then Executing else if s.ended then Returned else Waiting))
            && (c in s.calls && s.calls[c].Waiting? ==>
                  var s' := Step(s, ParkReturns(c));
                  c in s'.calls && s'.calls[c] == if s.ended then Returned else Waiting)
            && (c in s.calls && s.calls[c].Executing? ==>
                  var s' := Step(s, FnEnds(c));
                  s'.ended && s'.calls[c] == Returned && forall d :: d in s.o.waiters ==> d in s'.owed)
  {
    Reachable(run);
  }

  /** The function is started at most once; no call, executor or not, has returned before it
      ended; until then every other caller is queued, and afterwards has its wake on the way. */
  lemma RunsOnceAndAllWait(run: seq<Action>)
    ensures var s := Exec(Init(), run);
            && |s.starts| <= 1
            && (forall c :: c in s.calls && s.calls[c].Returned? ==> s.ended)
            && (forall c :: c in s.calls && s.calls[c].Waiting? ==>
                  if s.ended then c in s.owed + s.woken else c in s.o.waiters && |s.starts| == 1)
  {
    Reachable(run);
  }

  class OnceCell {
    var done: bool
    var running: bool
    var waiters: seq<Call>

    function View(): Cell
      reads this
    {
      Cell(done, running, waiters)
    }

    constructor ()
      ensures View() == Init().o
    {
      done, running, waiters := false, false, [];
    }

    method Begin(c: Call) returns (t: Turn)
      modifies this
      ensures (View(), t) == Enter(old(View()), c)
    {
      if done { return Return; }
      if !running {
        running := true;
        return Go;
      }
      waiters := waiters + [c];
      t := Wait;
    }

    method Complete() returns (woke: seq<Call>)
      modifies this
      ensures (View(), woke) == Finish(old(View()))
    {
      done, running := true, false;
      woke, waiters := waiters, [];
    }

    method Again(c: Call) returns (t: Turn)
      modifies this
      ensures (View(), t) == Recheck(old(View()), c)
    {
      if done { return Return; }
      waiters := waiters + [c];
      t := Wait;
    }
  }
}
