/**
 The Chase-Lev work-stealing deque as a step machine: one step per atomic load,
 store or compare-and-swap, one owner and any number of thieves, interleaved
 arbitrarily under sequential consistency.
 */
module ClDeque {
  import opened Options

  /** What a slot holds: the pushed pointer and the ticket of the push that stored it.
      Every call of push draws a fresh ticket, so two pushes of one pointer differ. */
  datatype Entry = Entry(item: int, ticket: nat)

  /** The words shared between the owner and the thieves. */
  datatype Words = Words(top: int, bottom: int, buf: seq<Entry>)

  /** The owner's program counter: each constructor names the NEXT atomic action and
      carries the locals that are live there. `Idle` carries the last call's result. */
  datatype Owner =
    | Idle(last: Event)
    | PushLoadBottom(e: Entry)
    | PushLoadTop(e: Entry, b: int)
    | PushStoreSlot(e: Entry, b: int)
    | PushStoreBottom(e: Entry, b: int)
    | PopLoadBottom
    | PopStoreBottom(b: int)
    | PopLoadTop(b: int)
    | PopLoadSlot(b: int, t: int)
    | PopCas(t: int, got: Entry)
    | PopRestore(r: int, result: Event)

  datatype Thief =
    | Resting
    | StealLoadTop
    | StealLoadBottom(t: int)
    | StealLoadSlot(t: int)
    | StealCas(t: int, got: Entry)

  /** The outcome of a call, recorded at the step that decides it. The entries are the
      locals the code returns, never values looked up in the abstract deque. */
  datatype Event =
    | Nothing
    | Pushed(e: Entry)
    | PushFull
    | Popped(e: Entry)
    | PopEmpty
    | Stolen(thief: nat, e: Entry)
    | StealNull(thief: nat)

  datatype State = State(w: Words, owner: Owner, thieves: map<nat, Thief>,
                         tickets: nat, log: seq<Event>)

  datatype Action =
    | BeginPush(item: int)
    | BeginPop
    | OwnerStep
    | BeginSteal(thief: nat)
    | ThiefStep(thief: nat)

  function Slot(i: int, cap: nat): (k: nat)
    requires cap > 0
    ensures k < cap
  {
    i % cap
  }

  // ---- the atomic steps ----------------------------------------------------

  /** One atomic action of the owner. */
  function OwnerNext(w: Words, pc: Owner): (r: (Words, Owner, Event))
    requires |w.buf| > 0
    ensures |r.0.buf| == |w.buf|
  {
    var cap := |w.buf|;
    match pc
    case Idle(_) => (w, pc, Nothing)
    case PushLoadBottom(e) => (w, PushLoadTop(e, w.bottom), Nothing)
    case PushLoadTop(e, b) =>
      if b - w.top >= cap then (w, Idle(PushFull), PushFull)
      else (w, PushStoreSlot(e, b), Nothing)
    case PushStoreSlot(e, b) =>
      (w.(buf := w.buf[Slot(b, cap) := e]), PushStoreBottom(e, b), Nothing)
    case PushStoreBottom(e, b) => (w.(bottom := b + 1), Idle(Pushed(e)), Pushed(e))
    case PopLoadBottom => (w, PopStoreBottom(w.bottom - 1), Nothing)
    case PopStoreBottom(b) => (w.(bottom := b), PopLoadTop(b), Nothing)
    case PopLoadTop(b) =>
      if w.top > b then (w, PopRestore(w.top, PopEmpty), PopEmpty)
      else (w, PopLoadSlot(b, w.top), Nothing)
    case PopLoadSlot(b, t) =>
      var got := w.buf[Slot(b, cap)];
      if t < b then (w, Idle(Popped(got)), Popped(got)) else (w, PopCas(t, got), Nothing)
    case PopCas(t, got) =>
      if w.top == t then (w.(top := t + 1), PopRestore(t + 1, Popped(got)), Popped(got))
      else (w, PopRestore(t + 1, PopEmpty), PopEmpty)
    case PopRestore(r, result) => (w.(bottom := r), Idle(result), Nothing)
  }

  /** One atomic action of thief `id`. */
  function ThiefNext(w: Words, pc: Thief, id: nat): (r: (Words, Thief, Event))
    requires |w.buf| > 0
    ensures r.0.buf == w.buf && r.0.bottom == w.bottom
  {
    match pc
    case Resting => (w, pc, Nothing)
    case StealLoadTop => (w, StealLoadBottom(w.top), Nothing)
    case StealLoadBottom(t) =>
      if t >= w.bottom then (w, Resting, StealNull(id)) else (w, StealLoadSlot(t), Nothing)
    case StealLoadSlot(t) => (w, StealCas(t, w.buf[Slot(t, |w.buf|)]), Nothing)
    case StealCas(t, got) =>
      if w.top == t then (w.(top := t + 1), Resting, Stolen(id, got))
      else (w, Resting, StealNull(id))
  }

  function Record(log: seq<Event>, ev: Event): seq<Event> {
    if ev == Nothing then log else log + [ev]
  }

  function At(thieves: map<nat, Thief>, id: nat): Thief {
    if id in thieves then thieves[id] else Resting
  }

  /** One step of the whole machine; an action that is not enabled changes nothing. */
  function Step(s: State, a: Action): (s': State)
    requires |s.w.buf| > 0
    ensures |s'.w.buf| == |s.w.buf|
  {
    match a
    case BeginPush(item) =>
      if s.owner.Idle? then
        s.(owner := PushLoadBottom(Entry(item, s.tickets)), tickets := s.tickets + 1)
      else s
    case BeginPop => if s.owner.Idle? then s.(owner := PopLoadBottom) else s
    case OwnerStep =>
      var (w, pc, ev) := OwnerNext(s.w, s.owner);
      s.(w := w, owner := pc, log := Record(s.log, ev))
    case BeginSteal(id) =>
      if At(s.thieves, id).Resting? then s.(thieves := s.thieves[id := StealLoadTop]) else s
    case ThiefStep(id) =>
      var (w, pc, ev) := ThiefNext(s.w, At(s.thieves, id), id);
      s.(w := w, thieves := s.thieves[id := pc], log := Record(s.log, ev))
  }

  function Init(cap: nat, junk: Entry): (s: State)
    requires cap > 0
    ensures |s.w.buf| == cap
  {
    State(Words(0, 0, seq(cap, _ => junk)), Idle(Nothing), map[], 0, [])
  }

  function Exec(s: State, run: seq<Action>): (s': State)
    requires |s.w.buf| > 0
    ensures |s'.w.buf| == |s.w.buf|
    decreases |run|
  {
    if run == [] then s else Step(Exec(s, run[..|run| - 1]), run[|run| - 1])
  }

  // ---- the sequential deque the protocol must refine -------------------------

  /** A bounded sequential deque: the newest entry is last, the oldest first. */
  function Apply(cap: nat, q: seq<Entry>, ev: Event): Option<seq<Entry>> {
    match ev
    case Nothing => Some(q)
    case Pushed(e) => if |q| < cap then Some(q + [e]) else None
    case PushFull => if |q| == cap then Some(q) else None
    case Popped(e) => if |q| > 0 && q[|q| - 1] == e then Some(q[..|q| - 1]) else None
    case PopEmpty => if q == [] then Some(q) else None
    case Stolen(_, e) => if |q| > 0 && q[0] == e then Some(q[1..]) else None
    case StealNull(_) => Some(q)
  }

  /** Replaying a history on the sequential deque; `None` when it is not a legal history. */
  function Replay(cap: nat, log: seq<Event>): Option<seq<Entry>> {
    if log == [] then Some([])
    else match Replay(cap, log[..|log| - 1])
      case None => None
      case Some(q) => Apply(cap, q, log[|log| - 1])
  }

  // ---- the abstraction and the invariant -------------------------------------

  /** One past the newest present index. Between its bottom store and its decision the
      owner has only reserved index `bottom`, so that index is still present. */
  function High(s: State): int {
    match s.owner
    case PopLoadTop(b) => b + 1
    case PopLoadSlot(b, _) => b + 1
    case PopCas(t, _) => t + 1
    case PopRestore(r, _) => r
    case _ => s.w.bottom
  }

  ghost predicate Bounded(s: State) {
    && |s.w.buf| > 0
    && 0 <= s.w.top <= High(s) <= s.w.top + |s.w.buf|
  }

  function Content(s: State): (q: seq<Entry>)
    requires Bounded(s)
    ensures |q| == High(s) - s.w.top
  {
    seq(High(s) - s.w.top, i requires 0 <= i => s.w.buf[Slot(s.w.top + i, |s.w.buf|)])
  }

  ghost predicate OwnerInv(s: State)
    requires Bounded(s)
  {
    var w, cap := s.w, |s.w.buf|;
    match s.owner
    case PushLoadTop(e, b) => b == w.bottom
    case PushStoreSlot(e, b) => b == w.bottom && b - w.top < cap
    case PushStoreBottom(e, b) => b == w.bottom && b - w.top < cap && w.buf[Slot(b, cap)] == e
    case PopStoreBottom(b) => b == w.bottom - 1
    case PopLoadTop(b) => b == w.bottom
    case PopLoadSlot(b, t) => b == w.bottom && t <= w.top && t <= b
    case PopCas(t, got) => t == w.bottom && t <= w.top && got == w.buf[Slot(t, cap)]
    case PopRestore(r, _) => r == w.top && w.bottom == r - 1
    case _ => true
  }

  /** A thief that has passed its bottom check. */
  ghost predicate Committed(pc: Thief) { pc.StealLoadSlot? || pc.StealCas? }

  /** The speculative read: while `top` has not moved past a committed thief's index, that
      index is present and what the thief loaded is what is stored there. The Dekker part:
      once the owner saw `top` below its reserved index, no committed thief is at that index. */
  ghost predicate ThiefInv(s: State, pc: Thief)
    requires Bounded(s)
  {
    && (pc.StealLoadBottom? || Committed(pc) ==> pc.t <= s.w.top)
    && (Committed(pc) && pc.t == s.w.top ==> s.w.top < High(s))
    && (pc.StealCas? && pc.t == s.w.top ==> pc.got == s.w.buf[Slot(pc.t, |s.w.buf|)])
    && (s.owner.PopLoadSlot? && s.owner.t < s.owner.b && Committed(pc) ==> pc.t < s.owner.b)
  }

  /** The last call decided by the owner, by the log. */
  function LastOwner(log: seq<Event>): Event {
    if log == [] then Nothing
    else
      var ev := log[|log| - 1];
      if ev.Stolen? || ev.StealNull? then LastOwner(log[..|log| - 1]) else ev
  }

  ghost predicate Inv(s: State) {
    && Bounded(s)
    && OwnerInv(s)
    && (s.owner.PopLoadSlot? && s.owner.t < s.owner.b ==> s.w.top <= s.owner.b)
    && (forall id :: id in s.thieves ==> ThiefInv(s, s.thieves[id]))
    && Replay(|s.w.buf|, s.log) == Some(Content(s))
    && (s.owner.Idle? ==> s.owner.last == LastOwner(s.log))
    && (s.owner.PopRestore? ==> s.owner.result == LastOwner(s.log))
  }

  // ---- proofs ------------------------------------------------------------------

  lemma Remainder(x: int, q: int, r: nat, cap: nat)
    requires cap > 0 && x == q * cap + r && r < cap
    ensures x % cap == r
  {
    var d := x / cap - q;
    assert x % cap - r == -d * cap;
    assert d >= 1 ==> cap + -d * cap <= 0;
    assert d <= -1 ==> -d * cap - cap >= 0;
  }

  /** Fewer than `cap` apart, two indices never share a slot. */
  lemma SlotsDiffer(i: int, j: int, cap: nat)
    requires cap > 0 && i < j < i + cap
    ensures Slot(i, cap) != Slot(j, cap)
  {
    var q, r, d := i / cap, i % cap, j - i;
    if r + d < cap {
      Remainder(j, q, r + d, cap);
    } else {
      Remainder(j, q + 1, r + d - cap, cap);
    }
  }

  lemma ReplayLast(cap: nat, log: seq<Event>, ev: Event)
    ensures Replay(cap, log + [ev]) == match Replay(cap, log) case None => None case Some(q) => Apply(cap, q, ev)
    ensures LastOwner(log + [ev]) == if ev.Stolen? || ev.StealNull? then LastOwner(log) else ev
  {
    assert (log + [ev])[..|log|] == log;
  }

  /** Recording the event of a step keeps the log a legal history of the deque. */
  lemma Recorded(s: State, s': State, ev: Event)
    requires Inv(s) && Bounded(s') && |s'.w.buf| == |s.w.buf| && s'.log == Record(s.log, ev)
    requires Apply(|s.w.buf|, Content(s), ev) == Some(Content(s'))
    ensures Replay(|s'.w.buf|, s'.log) == Some(Content(s'))
    ensures ev != Nothing ==> LastOwner(s'.log) == if ev.Stolen? || ev.StealNull? then LastOwner(s.log) else ev
  {
    if ev != Nothing { ReplayLast(|s.w.buf|, s.log, ev); }
  }

  /** A slot store at `bottom` below the capacity leaves every present entry alone. */
  lemma StoreKeepsContent(s: State)
    requires Inv(s) && s.owner.PushStoreSlot?
    ensures var s' := Step(s, OwnerStep); Bounded(s') && Content(s') == Content(s)
  {
    var cap, s' := |s.w.buf|, Step(s, OwnerStep);
    forall i | 0 <= i < |Content(s)| ensures Content(s')[i] == Content(s)[i] {
      SlotsDiffer(s.w.top + i, s.owner.b, cap);
    }
  }

  /** The present entries after an owner's step are what the recorded event does to them. */
  lemma OwnerContent(s: State)
    requires Inv(s)
    ensures var (w, pc, ev) := OwnerNext(s.w, s.owner);
            var s' := Step(s, OwnerStep);
            Bounded(s') && Apply(|s.w.buf|, Content(s), ev) == Some(Content(s'))
  {
    var (w, pc, ev) := OwnerNext(s.w, s.owner);
    var s' := Step(s, OwnerStep);
    if s.owner.PushStoreSlot? {
      StoreKeepsContent(s);
    } else {
      assert w.buf == s.w.buf;
      assert Bounded(s');
      var q, q' := Content(s), Content(s');
      if ev.Pushed? {
        assert q' == q + [ev.e];
      } else if ev.Popped? {
        assert q[|q| - 1] == ev.e;
        assert q' == q[..|q| - 1];
      } else {
        assert q' == q;
      }
    }
  }

  lemma OwnerKeepsOwn(s: State)
    requires Inv(s) && Bounded(Step(s, OwnerStep))
    ensures var s' := Step(s, OwnerStep);
            OwnerInv(s') && (s'.owner.PopLoadSlot? && s'.owner.t < s'.owner.b ==> s'.w.top <= s'.owner.b)
  {
  }

  lemma OwnerStepKeeps(s: State)
    requires Inv(s)
    ensures Inv(Step(s, OwnerStep))
  {
    var s' := Step(s, OwnerStep);
    OwnerContent(s);
    Recorded(s, s', OwnerNext(s.w, s.owner).2);
    OwnerKeepsOwn(s);
    forall id | id in s'.thieves ensures ThiefInv(s', s'.thieves[id]) {
      OwnerSparesThief(s, s.thieves[id]);
    }
  }

  lemma OwnerSparesThief(s: State, pc: Thief)
    requires Inv(s) && ThiefInv(s, pc)
    requires Bounded(Step(s, OwnerStep))
    ensures ThiefInv(Step(s, OwnerStep), pc)
  {
    if s.owner.PushStoreSlot? && pc.StealCas? && pc.t == s.w.top {
      SlotsDiffer(pc.t, s.owner.b, |s.w.buf|);
    }
  }

  /** The present entries after a thief's step: the oldest is gone exactly when the
      compare-and-swap succeeded, and it is the entry the thief had loaded. */
  lemma ThiefContent(s: State, id: nat)
    requires Inv(s)
    ensures var (w, pc, ev) := ThiefNext(s.w, At(s.thieves, id), id);
            var s' := Step(s, ThiefStep(id));
            Bounded(s') && Apply(|s.w.buf|, Content(s), ev) == Some(Content(s'))
  {
    var (w, pc, ev) := ThiefNext(s.w, At(s.thieves, id), id);
    var s' := Step(s, ThiefStep(id));
    assert High(s') == High(s);
    var q, q' := Content(s), Content(s');
    if ev.Stolen? {
      assert q[0] == ev.e;
      forall i | 0 <= i < |q'| ensures q'[i] == q[1..][i] { assert s.w.top + (i + 1) == w.top + i; }
      assert q' == q[1..];
    } else {
      assert q' == q;
    }
  }

  lemma ThiefKeepsOwn(s: State, id: nat)
    requires Inv(s) && Bounded(Step(s, ThiefStep(id))) && ThiefInv(s, At(s.thieves, id))
    ensures var s' := Step(s, ThiefStep(id));
            ThiefInv(s', At(s'.thieves, id)) && OwnerInv(s')
            && (s'.owner.PopLoadSlot? && s'.owner.t < s'.owner.b ==> s'.w.top <= s'.owner.b)
  {
  }

  lemma ThiefSparesThief(s: State, id: nat, other: Thief)
    requires Bounded(s) && Bounded(Step(s, ThiefStep(id))) && ThiefInv(s, At(s.thieves, id)) && ThiefInv(s, other)
    ensures ThiefInv(Step(s, ThiefStep(id)), other)
  {
  }

  lemma ThiefStepKeeps(s: State, id: nat)
    requires Inv(s)
    ensures Inv(Step(s, ThiefStep(id)))
  {
    var pc := At(s.thieves, id);
    var (w, pc', ev) := ThiefNext(s.w, pc, id);
    var s' := Step(s, ThiefStep(id));
    ThiefContent(s, id);
    Recorded(s, s', ev);
    assert ThiefInv(s, pc);
    ThiefKeepsOwn(s, id);
    forall j | j in s'.thieves ensures ThiefInv(s', s'.thieves[j]) {
      if j != id { ThiefSparesThief(s, id, s.thieves[j]); }
    }
  }

  lemma StepKeeps(s: State, a: Action)
    requires Inv(s)
    ensures Inv(Step(s, a))
  {
    match a
    case OwnerStep => OwnerStepKeeps(s);
    case ThiefStep(id) => ThiefStepKeeps(s, id);
    case _ =>
      var s' := Step(s, a);
      assert Bounded(s');
      assert Content(s') == Content(s);
  }

  lemma {:induction false} Reachable(cap: nat, junk: Entry, run: seq<Action>)
    requires cap > 0
    ensures Inv(Exec(Init(cap, junk), run))
    decreases |run|
  {
    if run != [] {
      Reachable(cap, junk, run[..|run| - 1]);
      StepKeeps(Exec(Init(cap, junk), run[..|run| - 1]), run[|run| - 1]);
    } else {
      assert Content(Init(cap, junk)) == [];
    }
  }

  /** Forward simulation: every step of every run either leaves the abstract deque alone or
      does to it exactly what the sequential deque does for the recorded outcome. */
  lemma StepRefines(cap: nat, junk: Entry, run: seq<Action>, a: Action) returns (ev: Event)
    requires cap > 0
    ensures var s := Exec(Init(cap, junk), run);
            var s' := Step(s, a);
            && Bounded(s) && Bounded(s')
            && s'.log == Record(s.log, ev)
            && Apply(cap, Content(s), ev) == Some(Content(s'))
  {
    Reachable(cap, junk, run);
    var s := Exec(Init(cap, junk), run);
    StepKeeps(s, a);
    match a
    case OwnerStep => OwnerContent(s); ev := OwnerNext(s.w, s.owner).2;
    case ThiefStep(id) => ThiefContent(s, id); ev := ThiefNext(s.w, At(s.thieves, id), id).2;
    case _ => ev := Nothing; assert Content(Step(s, a)) == Content(s);
  }

  /** The history of every run is a legal history of the bounded sequential deque, it ends in
      the present entries, and what the owner's last call returned is what the history says. */
  lemma Linearizable(cap: nat, junk: Entry, run: seq<Action>)
    requires cap > 0
    ensures var s := Exec(Init(cap, junk), run);
            && Bounded(s)
            && Replay(cap, s.log) == Some(Content(s))
            && (s.owner.Idle? ==> s.owner.last == LastOwner(s.log))
  {
    Reachable(cap, junk, run);
  }

  /** The speculative read: if a thief's compare-and-swap is about to succeed, the entry it
      loaded earlier is the oldest present entry now. */
  lemma SpeculativeReadIsSafe(cap: nat, junk: Entry, run: seq<Action>, id: nat)
    requires cap > 0
    ensures var s := Exec(Init(cap, junk), run);
            var pc := At(s.thieves, id);
            Bounded(s) && (pc.StealCas? && s.w.top == pc.t ==> |Content(s)| > 0 && pc.got == Content(s)[0])
  {
    Reachable(cap, junk, run);
    var s := Exec(Init(cap, junk), run);
    assert id in s.thieves ==> ThiefInv(s, s.thieves[id]);
  }

  // ---- when a call may fail, and that every call ends --------------------------------

  /** The owner has reserved the newest entry and not decided its pop. */
  ghost predicate Reserving(pc: Owner) { pc.PopLoadTop? || pc.PopLoadSlot? || pc.PopCas? }

  /** A steal answers NULL only on an empty deque, after `top` moved past the index it read, or
      when the one entry present is reserved by a pop. */
  lemma NullStealHasCause(cap: nat, junk: Entry, run: seq<Action>, id: nat)
    requires cap > 0
    ensures var s := Exec(Init(cap, junk), run);
            var pc := At(s.thieves, id);
            && Bounded(s)
            && (ThiefNext(s.w, pc, id).2.StealNull? ==>
                  && (pc.StealLoadBottom? || pc.StealCas?)
                  && (Content(s) == [] || pc.t < s.w.top || (Reserving(s.owner) && |Content(s)| == 1)))
  {
    Reachable(cap, junk, run);
    var s := Exec(Init(cap, junk), run);
    assert id in s.thieves ==> ThiefInv(s, s.thieves[id]);
  }

  /** The same action `k` times in a row, nobody else moving. */
  function Alone(s: State, a: Action, k: nat): (s': State)
    requires |s.w.buf| > 0
    ensures |s'.w.buf| == |s.w.buf|
  {
    if k == 0 then s else Step(Alone(s, a, k - 1), a)
  }

  /** Steps left to the owner's and a thief's current call; each own step uses one up, whatever
      the others do, so every call ends. */
  function OwnerLeft(pc: Owner): nat {
    match pc
    case Idle(_) => 0
    case PushLoadBottom(_) => 4
    case PushLoadTop(_, _) => 3
    case PushStoreSlot(_, _) => 2
    case PushStoreBottom(_, _) => 1
    case PopLoadBottom => 6
    case PopStoreBottom(_) => 5
    case PopLoadTop(_) => 4
    case PopLoadSlot(_, _) => 3
    case PopCas(_, _) => 2
    case PopRestore(_, _) => 1
  }

  function ThiefLeft(pc: Thief): nat {
    match pc
    case Resting => 0
    case StealLoadTop => 4
    case StealLoadBottom(_) => 3
    case StealLoadSlot(_) => 2
    case StealCas(_, _) => 1
  }

  lemma WaitFree(w: Words, owner: Owner, thief: Thief, id: nat)
    requires |w.buf| > 0
    ensures !owner.Idle? ==> OwnerLeft(OwnerNext(w, owner).1) < OwnerLeft(owner) <= 6
    ensures !thief.Resting? ==> ThiefLeft(ThiefNext(w, thief, id).1) < ThiefLeft(thief) <= 4
    ensures !thief.Resting? && ThiefNext(w, thief, id).1.Resting? ==> ThiefNext(w, thief, id).2 != Nothing
  {
  }

  lemma {:induction false} AloneFromFront(s: State, a: Action, k: nat)
    requires |s.w.buf| > 0 && k > 0
    ensures Alone(s, a, k) == Alone(Step(s, a), a, k - 1)
    decreases k
  {
    if k > 1 { AloneFromFront(s, a, k - 1); }
  }

  lemma {:induction false} NothingMore(s: State, a: Action, k: nat)
    requires |s.w.buf| > 0 && Step(s, a) == s
    ensures Alone(s, a, k) == s
    decreases k
  {
    if k > 0 { NothingMore(s, a, k - 1); }
  }

  ghost predicate Pushing(pc: Owner) {
    pc.PushLoadBottom? || pc.PushLoadTop? || pc.PushStoreSlot? || pc.PushStoreBottom?
  }

  /** Inside a pop that is not decided. */
  ghost predicate Popping(pc: Owner) { pc.PopLoadBottom? || pc.PopStoreBottom? || Reserving(pc) }

  /** What a push of `e`, or a pop, gives on the sequential deque. */
  function PushOutcome(cap: nat, q: seq<Entry>, e: Entry): (Event, seq<Entry>) {
    if |q| < cap then (Pushed(e), q + [e]) else (PushFull, q)
  }

  function PopOutcome(q: seq<Entry>): (Event, seq<Entry>) {
    if q == [] then (PopEmpty, q) else (Popped(q[|q| - 1]), q[..|q| - 1])
  }

  lemma OwnerMoves(s: State)
    requires Inv(s)
    ensures var s', ev := Step(s, OwnerStep), OwnerNext(s.w, s.owner).2;
            && Inv(s') && Apply(|s.w.buf|, Content(s), ev) == Some(Content(s'))
            && (ev == Nothing ==> Content(s') == Content(s))
            && (Pushing(s.owner) && ev == Nothing ==> Pushing(s'.owner) && s'.owner.e == s.owner.e)
            && (Pushing(s.owner) && ev != Nothing ==>
                  s'.owner == Idle(ev) && (ev == PushFull || ev == Pushed(s.owner.e)))
            && (Popping(s.owner) && ev == Nothing ==> Popping(s'.owner))
            && (Popping(s.owner) && ev != Nothing ==>
                  && (ev.Popped? || ev.PopEmpty?)
                  && (s'.owner == Idle(ev) || (s'.owner.PopRestore? && s'.owner.result == ev)))
  {
    StepKeeps(s, OwnerStep);
    OwnerContent(s);
  }

  lemma {:induction false} PushRuns(s: State, k: nat)
    requires Inv(s) && Pushing(s.owner) && OwnerLeft(s.owner) <= k
    ensures var s' := Alone(s, OwnerStep, k);
            var (ev, q) := PushOutcome(|s.w.buf|, Content(s), s.owner.e);
            Inv(s') && s'.owner == Idle(ev) && Content(s') == q
    decreases k
  {
    AloneFromFront(s, OwnerStep, k);
    OwnerMoves(s);
    WaitFree(s.w, s.owner, Resting, 0);
    var s1 := Step(s, OwnerStep);
    if s1.owner.Idle? {
      NothingMore(s1, OwnerStep, k - 1);
    } else {
      PushRuns(s1, k - 1);
    }
  }

  /** A call of the owner has ended with this answer and these entries. */
  ghost predicate Ended(s: State, answer: (Event, seq<Entry>)) {
    Inv(s) && s.owner == Idle(answer.0) && Content(s) == answer.1
  }

  /** All that is left of a pop is to restore `bottom`. */
  ghost predicate Ending(s: State, answer: (Event, seq<Entry>)) {
    Inv(s) && s.owner.PopRestore? && s.owner.result == answer.0 && Content(s) == answer.1
  }

  ghost predicate Undecided(s: State, q: seq<Entry>) { Inv(s) && Popping(s.owner) && Content(s) == q }

  lemma PopMoves(s: State, q: seq<Entry>)
    requires Undecided(s, q)
    ensures var s' := Step(s, OwnerStep);
            && OwnerLeft(s'.owner) < OwnerLeft(s.owner)
            && (Undecided(s', q) || Ending(s', PopOutcome(q)) || Ended(s', PopOutcome(q)))
  {
    OwnerMoves(s);
    WaitFree(s.w, s.owner, Resting, 0);
  }

  lemma EndedStays(s: State, answer: (Event, seq<Entry>), k: nat)
    requires Ended(s, answer)
    ensures Ended(Alone(s, OwnerStep, k), answer)
  {
    NothingMore(s, OwnerStep, k);
  }

  lemma {:induction false} PopRuns(s: State, q: seq<Entry>, k: nat)
    requires Undecided(s, q) && OwnerLeft(s.owner) <= k
    ensures Ended(Alone(s, OwnerStep, k), PopOutcome(q))
    decreases k
  {
    var s1, answer := Step(s, OwnerStep), PopOutcome(q);
    PopMoves(s, q);
    assert Ended(Alone(s1, OwnerStep, k - 1), answer) by {
      if Undecided(s1, q) {
        PopRuns(s1, q, k - 1);
      } else if Ending(s1, answer) {
        PopRestores(s1, answer, k - 1);
      } else {
        EndedStays(s1, answer, k - 1);
      }
    }
    AloneFromFront(s, OwnerStep, k);
  }

  lemma PopRestores(s: State, answer: (Event, seq<Entry>), k: nat)
    requires Ending(s, answer) && k > 0
    ensures Ended(Alone(s, OwnerStep, k), answer)
  {
    AloneFromFront(s, OwnerStep, k);
    StepKeeps(s, OwnerStep);
    OwnerContent(s);
    EndedStays(Step(s, OwnerStep), answer, k - 1);
  }

  /** A push or a pop run to its end from any reachable moment, thieves standing anywhere in their
      calls, does what the sequential deque does with the present entries. */
  lemma OwnerAlone(cap: nat, junk: Entry, run: seq<Action>, item: int)
    requires cap > 0 && Exec(Init(cap, junk), run).owner.Idle?
    ensures var s := Exec(Init(cap, junk), run);
            var s1, s2 := Alone(Step(s, BeginPush(item)), OwnerStep, 4), Alone(Step(s, BeginPop), OwnerStep, 6);
            && Bounded(s) && Bounded(s1) && Bounded(s2)
            && (s1.owner, Content(s1)) ==
               (var (ev, q) := PushOutcome(cap, Content(s), Entry(item, s.tickets)); (Idle(ev), q))
            && (s2.owner, Content(s2)) == (var (ev, q) := PopOutcome(Content(s)); (Idle(ev), q))
  {
    Reachable(cap, junk, run);
    var s := Exec(Init(cap, junk), run);
    var s1, s2 := Step(s, BeginPush(item)), Step(s, BeginPop);
    StepKeeps(s, BeginPush(item));
    StepKeeps(s, BeginPop);
    assert Content(s1) == Content(s) && Content(s2) == Content(s);
    PushRuns(s1, 4);
    PopRuns(s2, Content(s), 6);
  }

  /** Inside a steal nobody has got in the way of. */
  ghost predicate Unopposed(s: State, id: nat)
    requires Bounded(s)
  {
    match At(s.thieves, id)
    case Resting => false
    case StealLoadTop => true
    case StealLoadBottom(t) => t == s.w.top
    case StealLoadSlot(t) => t == s.w.top && Content(s) != []
    case StealCas(t, got) => t == s.w.top && Content(s) != []
  }

  function StealOutcome(q: seq<Entry>, id: nat): (Event, seq<Entry>) {
    if q == [] then (StealNull(id), q) else (Stolen(id, q[0]), q[1..])
  }

  lemma UnopposedMoves(s: State, id: nat)
    requires Inv(s) && s.owner.Idle? && Unopposed(s, id)
    ensures var s', ev := Step(s, ThiefStep(id)), ThiefNext(s.w, At(s.thieves, id), id).2;
            && Inv(s') && s'.owner == s.owner && s'.log == Record(s.log, ev)
            && (ev == Nothing ==> Unopposed(s', id) && Content(s') == Content(s))
            && (ev != Nothing ==> At(s'.thieves, id).Resting? && (ev, Content(s')) == StealOutcome(Content(s), id))
            && ThiefLeft(At(s'.thieves, id)) < ThiefLeft(At(s.thieves, id))
            && (At(s'.thieves, id).Resting? ==> ev != Nothing && Step(s', ThiefStep(id)) == s')
  {
    WaitFree(s.w, s.owner, At(s.thieves, id), id);
    StepKeeps(s, ThiefStep(id));
    ThiefContent(s, id);
    var s' := Step(s, ThiefStep(id));
    if At(s'.thieves, id).Resting? { assert s'.thieves[id := Resting] == s'.thieves; }
  }

  /** A steal of thief `id` has been decided with this answer and left these entries. */
  ghost predicate Took(s: State, id: nat, log: seq<Event>, answer: (Event, seq<Entry>)) {
    Inv(s) && At(s.thieves, id).Resting? && s.log == log + [answer.0] && Content(s) == answer.1
  }

  ghost predicate Stealing(s: State, id: nat, log: seq<Event>, q: seq<Entry>) {
    Inv(s) && s.owner.Idle? && Unopposed(s, id) && s.log == log && Content(s) == q
  }

  lemma StealMoves(s: State, id: nat, log: seq<Event>, q: seq<Entry>)
    requires Stealing(s, id, log, q)
    ensures var s' := Step(s, ThiefStep(id));
            && ThiefLeft(At(s'.thieves, id)) < ThiefLeft(At(s.thieves, id))
            && (Stealing(s', id, log, q) || Took(s', id, log, StealOutcome(q, id)))
  {
    UnopposedMoves(s, id);
  }

  lemma TookStays(s: State, id: nat, log: seq<Event>, answer: (Event, seq<Entry>), k: nat)
    requires Took(s, id, log, answer) && id in s.thieves
    ensures Took(Alone(s, ThiefStep(id), k), id, log, answer)
  {
    assert s.thieves[id := Resting] == s.thieves;
    NothingMore(s, ThiefStep(id), k);
  }

  lemma {:induction false} StealRuns(s: State, id: nat, log: seq<Event>, q: seq<Entry>, k: nat)
    requires Stealing(s, id, log, q) && ThiefLeft(At(s.thieves, id)) <= k
    ensures Took(Alone(s, ThiefStep(id), k), id, log, StealOutcome(q, id))
    decreases k
  {
    var s1, answer := Step(s, ThiefStep(id)), StealOutcome(q, id);
    StealMoves(s, id, log, q);
    assert Took(Alone(s1, ThiefStep(id), k - 1), id, log, answer) by {
      if Stealing(s1, id, log, q) {
        StealRuns(s1, id, log, q, k - 1);
      } else {
        TookStays(s1, id, log, answer, k - 1);
      }
    }
    AloneFromFront(s, ThiefStep(id), k);
  }

  /** A steal that runs alone while the owner is idle takes the oldest entry, and answers NULL only
      when there is none. */
  lemma StealAlone(cap: nat, junk: Entry, run: seq<Action>, id: nat)
    requires cap > 0
    requires var s := Exec(Init(cap, junk), run); s.owner.Idle? && At(s.thieves, id).Resting?
    ensures var s := Exec(Init(cap, junk), run);
            var s' := Alone(Step(s, BeginSteal(id)), ThiefStep(id), 4);
            && Bounded(s) && Bounded(s') && At(s'.thieves, id).Resting?
            && s'.log == s.log + [if Content(s) == [] then StealNull(id) else Stolen(id, Content(s)[0])]
            && Content(s') == if Content(s) == [] then [] else Content(s)[1..]
  {
    Reachable(cap, junk, run);
    var s := Exec(Init(cap, junk), run);
    var s0 := Step(s, BeginSteal(id));
    StepKeeps(s, BeginSteal(id));
    assert Content(s0) == Content(s);
    StealRuns(s0, id, s.log, Content(s), 4);
  }

  // ---- conservation: every push is taken at most once and never lost -----------------

  function PutBy(ev: Event): multiset<Entry> {
    if ev.Pushed? then multiset{ev.e} else multiset{}
  }

  function TakenBy(ev: Event): multiset<Entry> {
    if ev.Popped? || ev.Stolen? then multiset{ev.e} else multiset{}
  }

  function Puts(log: seq<Event>): multiset<Entry> {
    if log == [] then multiset{} else Puts(log[..|log| - 1]) + PutBy(log[|log| - 1])
  }

  function Takes(log: seq<Event>): multiset<Entry> {
    if log == [] then multiset{} else Takes(log[..|log| - 1]) + TakenBy(log[|log| - 1])
  }

  lemma ApplyConserves(cap: nat, q: seq<Entry>, ev: Event)
    requires Apply(cap, q, ev).Some?
    ensures multiset(q) + PutBy(ev) == TakenBy(ev) + multiset(Apply(cap, q, ev).value)
  {
    if ev.Popped? {
      assert q == q[..|q| - 1] + [ev.e];
    } else if ev.Stolen? {
      assert q == [ev.e] + q[1..];
    }
  }

  lemma Balance(puts: multiset<Entry>, takes: multiset<Entry>, q: multiset<Entry>,
                put: multiset<Entry>, take: multiset<Entry>, q': multiset<Entry>)
    requires puts == takes + q && q + put == take + q'
    ensures puts + put == (takes + take) + q'
  {
    assert puts + put == takes + (q + put);
  }

  /** In a legal history what was put in is what was taken out plus what is left. */
  lemma {:induction false} LegalConserves(cap: nat, log: seq<Event>)
    requires Replay(cap, log).Some?
    ensures Puts(log) == Takes(log) + multiset(Replay(cap, log).value)
    decreases |log|
  {
    if log != [] {
      var rest := log[..|log| - 1];
      var q, ev := Replay(cap, rest).value, log[|log| - 1];
      LegalConserves(cap, rest);
      ApplyConserves(cap, q, ev);
      Balance(Puts(rest), Takes(rest), multiset(q), PutBy(ev), TakenBy(ev), multiset(Apply(cap, q, ev).value));
    }
  }

  ghost predicate OncePerTicket(puts: multiset<Entry>, tickets: nat) {
    forall e :: e in puts ==> e.ticket < tickets && puts[e] == 1
  }

  /** Logged tickets are below the counter and each logged once; the one being pushed is not logged. */
  ghost predicate FreshTickets(s: State) {
    && OncePerTicket(Puts(s.log), s.tickets)
    && (Pushing(s.owner) ==> s.owner.e.ticket < s.tickets && s.owner.e !in Puts(s.log))
  }

  lemma PutsLast(log: seq<Event>, ev: Event)
    ensures Puts(Record(log, ev)) == Puts(log) + PutBy(ev)
  {
    assert (log + [ev])[..|log|] == log;
  }

  lemma PushKeepsEntry(w: Words, pc: Owner)
    requires |w.buf| > 0
    ensures var (_, pc', ev) := OwnerNext(w, pc);
            && (ev.Pushed? ==> Pushing(pc) && ev.e == pc.e && !Pushing(pc'))
            && (Pushing(pc') ==> Pushing(pc) && pc'.e == pc.e)
  {
  }

  lemma OneMoreTicket(puts: multiset<Entry>, e: Entry, tickets: nat)
    requires OncePerTicket(puts, tickets) && e.ticket < tickets && e !in puts
    ensures OncePerTicket(puts + multiset{e}, tickets)
  {
  }

  lemma TicketsOwnerStep(s: State)
    requires |s.w.buf| > 0 && FreshTickets(s)
    ensures FreshTickets(Step(s, OwnerStep))
  {
    var ev := OwnerNext(s.w, s.owner).2;
    PushKeepsEntry(s.w, s.owner);
    PutsLast(s.log, ev);
    if ev.Pushed? {
      OneMoreTicket(Puts(s.log), ev.e, s.tickets);
    } else {
      assert Puts(Record(s.log, ev)) == Puts(s.log);
    }
  }

  lemma SameTickets(s: State, s': State)
    requires FreshTickets(s) && s'.tickets == s.tickets && s'.owner == s.owner && Puts(s'.log) == Puts(s.log)
    ensures FreshTickets(s')
  {
  }

  /** A call that begins: a push takes the next ticket. */
  lemma TicketsCall(s: State, a: Action)
    requires |s.w.buf| > 0 && FreshTickets(s) && !a.OwnerStep? && !a.ThiefStep?
    ensures FreshTickets(Step(s, a))
  {
    assert Step(s, a).log == s.log;
  }

  lemma ThiefPutsNothing(s: State, id: nat)
    requires |s.w.buf| > 0
    ensures var s' := Step(s, ThiefStep(id));
            s'.tickets == s.tickets && s'.owner == s.owner && Puts(s'.log) == Puts(s.log)
  {
    var ev := ThiefNext(s.w, At(s.thieves, id), id).2;
    PutsLast(s.log, ev);
    assert PutBy(ev) == multiset{};
  }

  lemma TicketsThiefStep(s: State, id: nat)
    requires |s.w.buf| > 0 && FreshTickets(s)
    ensures FreshTickets(Step(s, ThiefStep(id)))
  {
    ThiefPutsNothing(s, id);
    SameTickets(s, Step(s, ThiefStep(id)));
  }

  lemma TicketsStep(s: State, a: Action)
    requires |s.w.buf| > 0 && FreshTickets(s)
    ensures FreshTickets(Step(s, a))
  {
    match a
    case OwnerStep => TicketsOwnerStep(s);
    case ThiefStep(id) => TicketsThiefStep(s, id);
    case _ => TicketsCall(s, a);
  }

  lemma {:induction false} TicketsStayFresh(cap: nat, junk: Entry, run: seq<Action>)
    requires cap > 0
    ensures FreshTickets(Exec(Init(cap, junk), run))
    decreases |run|
  {
    if run != [] {
      TicketsStayFresh(cap, junk, run[..|run| - 1]);
      TicketsStep(Exec(Init(cap, junk), run[..|run| - 1]), run[|run| - 1]);
    }
  }

  /** Of the words themselves, also while a pop has lowered `bottom`. */
  lemma RingNeverOverfull(cap: nat, junk: Entry, run: seq<Action>)
    requires cap > 0
    ensures var w := Exec(Init(cap, junk), run).w; |w.buf| == cap && w.bottom - w.top <= cap
  {
    Reachable(cap, junk, run);
    Linearizable(cap, junk, run);
  }

  /** Conservation, in every interleaving: a pushed entry has been returned by exactly one pop
      or steal or is present exactly once, and nothing is returned that was never pushed. */
  lemma Conservation(cap: nat, junk: Entry, run: seq<Action>, e: Entry)
    requires cap > 0
    ensures var s := Exec(Init(cap, junk), run);
            && Bounded(s)
            && s.w.bottom - s.w.top <= cap
            && (e in Puts(s.log) ==> Takes(s.log)[e] + multiset(Content(s))[e] == 1)
            && (e !in Puts(s.log) ==> Takes(s.log)[e] == 0 && e !in Content(s))
  {
    RingNeverOverfull(cap, junk, run);
    Linearizable(cap, junk, run);
    TicketsStayFresh(cap, junk, run);
    var s := Exec(Init(cap, junk), run);
    LegalConserves(cap, s.log);
    assert Puts(s.log)[e] == Takes(s.log)[e] + multiset(Content(s))[e];
  }

  // ---- the same steps, in place ---------------------------------------------------------

  /** The deque's memory. Each method performs the one atomic action its caller is at. */
  class Deque {
    var top: int
    var bottom: int
    const buf: array<Entry>

    function View(): Words
      reads this, buf
    {
      Words(top, bottom, buf[..])
    }

    constructor (cap: nat, junk: Entry)
      requires cap > 0
      ensures View() == Init(cap, junk).w && fresh(buf)
    {
      top, bottom := 0, 0;
      buf := new Entry[cap](_ => junk);
    }

    method OwnerStep(pc: Owner) returns (pc': Owner, ev: Event)
      requires buf.Length > 0
      modifies this, buf
      ensures (View(), pc', ev) == OwnerNext(old(View()), pc)
    {
      pc', ev := pc, Nothing;
      match pc
      case Idle(_) =>
      case PushLoadBottom(e) => pc' := PushLoadTop(e, bottom);
      case PushLoadTop(e, b) =>
        if b - top >= buf.Length { pc', ev := Idle(PushFull), PushFull; } else { pc' := PushStoreSlot(e, b); }
      case PushStoreSlot(e, b) =>
        buf[Slot(b, buf.Length)] := e;
        pc' := PushStoreBottom(e, b);
      case PushStoreBottom(e, b) =>
        bottom := b + 1;
        pc', ev := Idle(Pushed(e)), Pushed(e);
      case PopLoadBottom => pc' := PopStoreBottom(bottom - 1);
      case PopStoreBottom(b) =>
        bottom := b;
        pc' := PopLoadTop(b);
      case PopLoadTop(b) =>
        if top > b { pc', ev := PopRestore(top, PopEmpty), PopEmpty; } else { pc' := PopLoadSlot(b, top); }
      case PopLoadSlot(b, t) =>
        var got := buf[Slot(b, buf.Length)];
        if t < b { pc', ev := Idle(Popped(got)), Popped(got); } else { pc' := PopCas(t, got); }
      case PopCas(t, got) =>
        if top == t {
          top := t + 1;
          pc', ev := PopRestore(t + 1, Popped(got)), Popped(got);
        } else {
          pc', ev := PopRestore(t + 1, PopEmpty), PopEmpty;
        }
      case PopRestore(r, result) =>
        bottom := r;
        pc' := Idle(result);
    }

    method ThiefStep(pc: Thief, id: nat) returns (pc': Thief, ev: Event)
      requires buf.Length > 0
      modifies this`top
      ensures (View(), pc', ev) == ThiefNext(old(View()), pc, id)
    {
      pc', ev := Resting, Nothing;
      match pc
      case Resting =>
      case StealLoadTop => pc' := StealLoadBottom(top);
      case StealLoadBottom(t) =>
        if t >= bottom { ev := StealNull(id); } else { pc' := StealLoadSlot(t); }
      case StealLoadSlot(t) => pc' := StealCas(t, buf[Slot(t, buf.Length)]);
      case StealCas(t, got) =>
        if top == t {
          top := t + 1;
          ev := Stolen(id, got);
        } else {
          ev := StealNull(id);
        }
    }
  }
}
