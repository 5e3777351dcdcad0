/**
 The writer-preferring reader/writer mutex with direct handoff. Every guarded section is
 one atomic step; a waiter parks outside the guard and park() may return at any time.
 A request is one call of rlock() or lock(); its identifier also names its queue cell.
 */
module RWMutex {
  import opened Seqs

  type Req = nat

  /** The mutex object together with the granted flags of the cells it handed out. */
  datatype Lock = Lock(readers: int, writer: bool, rwait: seq<Req>, wwait: seq<Req>, granted: set<Req>)

  /** What an unlock does: raise, or release and then wake these cells after the guard. */
  datatype Release = NotHeld | Woke(cells: seq<Req>)

  // ---- the guarded sections ---------------------------------------------------

  function RLock(l: Lock, r: Req): (Lock, bool) {
    if !l.writer && l.wwait == [] then (l.(readers := l.readers + 1), true)
    else (l.(rwait := l.rwait + [r]), false)
  }

  function WLock(l: Lock, r: Req): (Lock, bool) {
    if !l.writer && l.readers == 0 then (l.(writer := true), true)
    else (l.(wwait := l.wwait + [r]), false)
  }

  function RUnlock(l: Lock): (Lock, Release) {
    if l.readers <= 0 then (l, NotHeld)
    else if l.readers == 1 && l.wwait != [] then
      (l.(readers := 0, writer := true, wwait := l.wwait[1..], granted := l.granted + {l.wwait[0]}),
       Woke([l.wwait[0]]))
    else (l.(readers := l.readers - 1), Woke([]))
  }

  function WUnlock(l: Lock): (Lock, Release) {
    if !l.writer then (l, NotHeld)
    else if l.wwait != [] then
      (l.(wwait := l.wwait[1..], granted := l.granted + {l.wwait[0]}), Woke([l.wwait[0]]))
    else if l.rwait != [] then
      (l.(writer := false, readers := |l.rwait|, rwait := [], granted := l.granted + Elems(l.rwait)),
       Woke(l.rwait))
    else (l.(writer := false), Woke([]))
  }

  // ---- runs of any number of fibers ----------------------------------------------

  /** Where a request's client is: in the wait loop of a call, past the call, or after release. */
  datatype Client = InRLock | InLock | Reading | Writing | Left

  /** `rheld`/`wheld`: requests that own the lock, from the grant on, whether or not their call
      has returned. `owed`: wakes a releasing fiber still has to issue; `woken`: wakes issued
      and not yet consumed by a return of park(). The `*came` and `*given` logs record queued
      requests by arrival and by grant. */
  datatype State = State(lock: Lock, client: map<Req, Client>, rheld: set<Req>, wheld: set<Req>,
                         owed: set<Req>, woken: set<Req>,
                         rcame: seq<Req>, wcame: seq<Req>, rgiven: seq<Req>, wgiven: seq<Req>)

  datatype Action =
    | CallRLock(r: Req)
    | CallLock(r: Req)
    | ParkReturns(r: Req)   // a wake or a spurious return: re-check the granted flag
    | CallRUnlock(r: Req)   // by a client that holds a read lock as request r
    | CallUnlock(r: Req)    // by the client that holds the write lock as request r
    | IssueWake(r: Req)

  /** One step; an action its client cannot take there changes nothing. */
  function Step(s: State, a: Action): State {
    match a
    case CallRLock(r) =>
      if r in s.client then s
      else
        var (l, now) := RLock(s.lock, r);
        if now then s.(lock := l, client := s.client[r := Reading], rheld := s.rheld + {r})
        else s.(lock := l, client := s.client[r := InRLock], rcame := s.rcame + [r])
    case CallLock(r) =>
      if r in s.client then s
      else
        var (l, now) := WLock(s.lock, r);
        if now then s.(lock := l, client := s.client[r := Writing], wheld := s.wheld + {r})
        else s.(lock := l, client := s.client[r := InLock], wcame := s.wcame + [r])
    case ParkReturns(r) =>
      if r !in s.client || !(s.client[r].InRLock? || s.client[r].InLock?) then s
      else if r !in s.lock.granted then s.(woken := s.woken - {r})
      else s.(client := s.client[r := if s.client[r].InRLock? then Reading else Writing], woken := s.woken - {r})
    case CallRUnlock(r) =>
      if r !in s.client || !s.client[r].Reading? then s
      else
        var (l, out) := RUnlock(s.lock);
        if out.NotHeld? then s
        else s.(lock := l, client := s.client[r := Left], rheld := s.rheld - {r},
                wheld := s.wheld + Elems(out.cells), owed := s.owed + Elems(out.cells),
                wgiven := s.wgiven + out.cells)
    case CallUnlock(r) =>
      if r !in s.client || !s.client[r].Writing? then s
      else
        var (l, out) := WUnlock(s.lock);
        if out.NotHeld? then s
        else if s.lock.wwait != [] then
          s.(lock := l, client := s.client[r := Left], wheld := s.wheld - {r} + Elems(out.cells),
             owed := s.owed + Elems(out.cells), wgiven := s.wgiven + out.cells)
        else
          s.(lock := l, client := s.client[r := Left], wheld := s.wheld - {r},
             rheld := s.rheld + Elems(out.cells), owed := s.owed + Elems(out.cells),
             rgiven := s.rgiven + out.cells)
    case IssueWake(r) =>
      if r in s.owed then s.(owed := s.owed - {r}, woken := s.woken + {r}) else s
  }

  function Init(): State {
    State(Lock(0, false, [], [], {}), map[], {}, {}, {}, {}, [], [], [], [])
  }

  function Exec(s: State, run: seq<Action>): State {
    if run == [] then s else Step(Exec(s, run[..|run| - 1]), run[|run| - 1])
  }

  // ---- the invariant ----------------------------------------------------------------

  /** Counters are the holder sets; one writer or readers, never both. */
  ghost predicate Exclusive(s: State) {
    && s.lock.readers == |s.rheld|
    && |s.wheld| == (if s.lock.writer then 1 else 0)
    && !(s.lock.writer && s.lock.readers > 0)
  }

  /** Nobody waits for a lock nobody holds; readers wait only behind a writer. */
  ghost predicate NoStranding(l: Lock) {
    && (l.wwait != [] ==> l.writer || l.readers > 0)
    && (l.rwait != [] ==> l.writer || l.wwait != [])
  }

  /** Queued requests leave each queue in arrival order, each once. */
  ghost predicate Fifo(s: State) {
    && s.wcame == s.wgiven + s.lock.wwait && Distinct(s.wcame)
    && s.rcame == s.rgiven + s.lock.rwait && Distinct(s.rcame)
  }

  /** Each client's place agrees with the queues, the granted flags and the holder sets, and a
      granted call that has not returned has its wake issued or owed. */
  ghost predicate Placed(s: State, r: Req) {
    if r !in s.client then
      r !in s.rcame && r !in s.wcame && r !in s.rheld && r !in s.wheld && r !in s.lock.granted
    else match s.client[r]
      case InRLock =>
        && r !in s.wcame && r !in s.wheld
        && (r in s.lock.granted <==> r !in s.lock.rwait)
        && (r in s.lock.granted <==> r in s.rheld)
        && (r in s.lock.granted ==> r in s.owed || r in s.woken)
      case InLock =>
        && r !in s.rcame && r !in s.rheld
        && (r in s.lock.granted <==> r !in s.lock.wwait)
        && (r in s.lock.granted <==> r in s.wheld)
        && (r in s.lock.granted ==> r in s.owed || r in s.woken)
      case Reading => r in s.rheld && r !in s.wheld && r !in s.lock.rwait && r !in s.lock.wwait
      case Writing => r in s.wheld && r !in s.rheld && r !in s.lock.rwait && r !in s.lock.wwait
      case Left => r !in s.rheld && r !in s.wheld && r !in s.lock.rwait && r !in s.lock.wwait
  }

  ghost predicate Inv(s: State) {
    && Exclusive(s) && NoStranding(s.lock) && Fifo(s)
    && forall r: Req :: Placed(s, r)
  }

  // ---- proofs ---------------------------------------------------------------------------

  lemma RLockKeeps(s: State, r: Req)
    requires Inv(s)
    ensures Inv(Step(s, CallRLock(r)))
  {
    var s' := Step(s, CallRLock(r));
    assert Placed(s, r);
    if r !in s.client && !RLock(s.lock, r).1 {
      DistinctSnoc(s.rcame, r);
      Regroup(s.rgiven, s.lock.rwait, [r]);
    }
    forall q: Req ensures Placed(s', q) { assert Placed(s, q); }
  }

  lemma LockKeeps(s: State, r: Req)
    requires Inv(s)
    ensures Inv(Step(s, CallLock(r)))
  {
    var s' := Step(s, CallLock(r));
    assert Placed(s, r);
    if r !in s.client && !WLock(s.lock, r).1 {
      DistinctSnoc(s.wcame, r);
      Regroup(s.wgiven, s.lock.wwait, [r]);
    }
    forall q: Req ensures Placed(s', q) { assert Placed(s, q); }
  }

  lemma ReturnKeeps(s: State, a: Action)
    requires Inv(s) && (a.ParkReturns? || a.IssueWake?)
    ensures Inv(Step(s, a))
  {
    forall q: Req ensures Placed(Step(s, a), q) { assert Placed(s, q); }
  }

  lemma OnlyHolder(h: set<Req>, r: Req)
    requires |h| == 1 && r in h
    ensures h == {r}
  {
    assert |h - {r}| == 0;
  }

  /** The writer at the head of the queue, and the queue without it. */
  lemma HeadWriter(s: State)
    requires Fifo(s) && s.lock.wwait != []
    ensures var l := s.lock;
            && s.wcame == (s.wgiven + [l.wwait[0]]) + l.wwait[1..]
            && l.wwait[0] !in l.wwait[1..] && Elems([l.wwait[0]]) == {l.wwait[0]}
            && (forall q :: q in l.wwait <==> q == l.wwait[0] || q in l.wwait[1..])
  {
    var l := s.lock;
    Served(s.wcame, s.wgiven, l.wwait, 1);
    assert l.wwait[..1] == [l.wwait[0]];
  }

  lemma LastReaderHandsOver(s: State, r: Req)
    requires Inv(s) && r in s.client && s.client[r].Reading? && s.lock.readers == 1 && s.lock.wwait != []
    ensures Inv(Step(s, CallRUnlock(r)))
  {
    var s', l := Step(s, CallRUnlock(r)), s.lock;
    assert Placed(s, r);
    OnlyHolder(s.rheld, r);
    HeadWriter(s);
    assert s'.wheld == {l.wwait[0]} && s'.rheld == {};
    assert s'.lock == Lock(0, true, l.rwait, l.wwait[1..], l.granted + {l.wwait[0]});
    forall q: Req ensures Placed(s', q) { assert Placed(s, q); }
  }

  lemma ReaderLeaves(s: State, r: Req)
    requires Inv(s) && r in s.client && s.client[r].Reading? && (s.lock.readers > 1 || s.lock.wwait == [])
    ensures Inv(Step(s, CallRUnlock(r)))
  {
    var s', l := Step(s, CallRUnlock(r)), s.lock;
    assert Placed(s, r);
    assert |s.rheld - {r}| == |s.rheld| - 1;
    assert s'.wheld == s.wheld && s'.wgiven == s.wgiven && s'.lock == l.(readers := l.readers - 1);
    forall q: Req ensures Placed(s', q) { assert Placed(s, q); }
  }

  lemma WriterHandsOver(s: State, r: Req)
    requires Inv(s) && r in s.client && s.client[r].Writing? && s.lock.wwait != []
    ensures Inv(Step(s, CallUnlock(r)))
  {
    var s', l := Step(s, CallUnlock(r)), s.lock;
    assert Placed(s, r);
    OnlyHolder(s.wheld, r);
    HeadWriter(s);
    assert s'.wheld == {l.wwait[0]} && s'.rheld == s.rheld;
    assert s'.lock == l.(wwait := l.wwait[1..], granted := l.granted + {l.wwait[0]});
    forall q: Req ensures Placed(s', q) { assert Placed(s, q); }
  }

  lemma WriterAdmitsReaders(s: State, r: Req)
    requires Inv(s) && r in s.client && s.client[r].Writing? && s.lock.wwait == []
    ensures Inv(Step(s, CallUnlock(r)))
  {
    var s', l := Step(s, CallUnlock(r)), s.lock;
    assert Placed(s, r);
    OnlyHolder(s.wheld, r);
    Served(s.rcame, s.rgiven, l.rwait, |l.rwait|);
    assert l.rwait[..|l.rwait|] == l.rwait;
    CountDistinct(l.rwait);
    assert s.rheld == {};
    assert s'.wheld == {} && s'.rheld == Elems(l.rwait);
    forall q: Req ensures Placed(s', q) { assert Placed(s, q); }
  }

  lemma RUnlockKeeps(s: State, r: Req)
    requires Inv(s)
    ensures Inv(Step(s, CallRUnlock(r)))
  {
    if r in s.client && s.client[r].Reading? {
      assert Placed(s, r);
      if s.lock.readers == 1 && s.lock.wwait != [] {
        LastReaderHandsOver(s, r);
      } else {
        ReaderLeaves(s, r);
      }
    }
  }

  lemma UnlockKeeps(s: State, r: Req)
    requires Inv(s)
    ensures Inv(Step(s, CallUnlock(r)))
  {
    if r in s.client && s.client[r].Writing? {
      if s.lock.wwait != [] {
        WriterHandsOver(s, r);
      } else {
        WriterAdmitsReaders(s, r);
      }
    }
  }

  lemma StepKeeps(s: State, a: Action)
    requires Inv(s)
    ensures Inv(Step(s, a))
  {
    match a
    case CallRUnlock(r) => RUnlockKeeps(s, r);
    case CallUnlock(r) => UnlockKeeps(s, r);
    case CallRLock(r) => RLockKeeps(s, r);
    case CallLock(r) => LockKeeps(s, r);
    case _ => ReturnKeeps(s, a);
  }

  lemma {:induction false} Reachable(run: seq<Action>)
    ensures Inv(Exec(Init(), run))
    decreases |run|
  {
    if run != [] {
      Reachable(run[..|run| - 1]);
      StepKeeps(Exec(Init(), run[..|run| - 1]), run[|run| - 1]);
    }
  }

  /** Exclusion and no stranding, in every run: a client past lock() is the only owner, the
      counters are the holder sets, and a free lock has no queued request. */
  lemma Exclusion(run: seq<Action>)
    ensures var s := Exec(Init(), run);
            && s.lock.readers == |s.rheld|
            && (s.lock.writer <==> s.wheld != {}) && |s.wheld| <= 1
            && (forall r :: r in s.client && s.client[r].Writing? ==> s.wheld == {r} && s.rheld == {})
            && (forall r :: r in s.client && s.client[r].Reading? ==> r in s.rheld && s.wheld == {})
            && (!s.lock.writer && s.lock.readers == 0 ==> s.lock.rwait == [] && s.lock.wwait == [])
  {
    Reachable(run);
    var s := Exec(Init(), run);
    forall r | r in s.client && s.client[r].Writing? ensures s.wheld == {r} && s.rheld == {} {
      assert Placed(s, r);
      OnlyHolder(s.wheld, r);
    }
    forall r | r in s.client && s.client[r].Reading? ensures r in s.rheld && s.wheld == {} {
      assert Placed(s, r);
      assert s.rheld != {};
    }
  }

  /** What an acquire decides, in every reachable state: rlock() owns the lock at once exactly when no
      writer owns it and none is queued, lock() exactly when nobody owns it; otherwise the call joins
      the back of its queue and nothing else changes hands. A resumed call returns exactly when it
      was granted. */
  lemma AcquireOutcomes(run: seq<Action>, r: Req)
    ensures var s := Exec(Init(), run);
            && (r !in s.client ==>
                  && (var s' := Step(s, CallRLock(r));
                      && s'.wheld == s.wheld
                      && if s.wheld == {} && s.lock.wwait == []
                         then s'.client == s.client[r := Reading] && s'.rheld == s.rheld + {r}
                         else s'.client == s.client[r := InRLock] && s'.rheld == s.rheld
                              && s'.lock.rwait == s.lock.rwait + [r])
                  && (var s' := Step(s, CallLock(r));
                      && s'.rheld == s.rheld
                      && if s.wheld == {} && s.rheld == {}
                         then s'.client == s.client[r := Writing] && s'.wheld == {r}
                         else s'.client == s.client[r := InLock] && s'.wheld == s.wheld
                              && s'.lock.wwait == s.lock.wwait + [r]))
            && (r in s.client && (s.client[r].InRLock? || s.client[r].InLock?) ==>
                  Step(s, ParkReturns(r)).client ==
                    if r in s.rheld then s.client[r := Reading]
                    else if r in s.wheld then s.client[r := Writing] else s.client)
  {
    Reachable(run);
    var s := Exec(Init(), run);
    assert Placed(s, r);
    assert s.lock.readers == 0 <==> s.rheld == {};
    assert !s.lock.writer <==> s.wheld == {};
  }

  /** What a release decides, in every reachable state: a holder's release is never refused and takes
      exactly that holder out; the lock then belongs to the first queued writer if nobody else holds
      it, to all queued readers if a writer left and none is queued, and to nobody new otherwise. A
      release is refused exactly when nobody holds the lock in that mode. */
  lemma ReleaseOutcomes(run: seq<Action>, r: Req)
    ensures var s := Exec(Init(), run);
            var next := if s.lock.wwait == [] then {} else {s.lock.wwait[0]};
            && (RUnlock(s.lock).1.NotHeld? <==> s.rheld == {})
            && (WUnlock(s.lock).1.NotHeld? <==> s.wheld == {})
            && (r in s.client && s.client[r].Reading? ==>
                  var s' := Step(s, CallRUnlock(r));
                  && s'.client == s.client[r := Left] && s'.rheld == s.rheld - {r}
                  && s'.wheld == if s.rheld == {r} then next else {})
            && (r in s.client && s.client[r].Writing? ==>
                  var s' := Step(s, CallUnlock(r));
                  && s'.client == s.client[r := Left] && s'.wheld == next
                  && s'.rheld == if s.lock.wwait == [] then Elems(s.lock.rwait) else {})
  {
    Reachable(run);
    var s := Exec(Init(), run);
    assert Placed(s, r);
    assert s.lock.readers == 0 <==> s.rheld == {};
    assert !s.lock.writer <==> s.wheld == {};
    if r in s.client && s.client[r].Reading? {
      if s.lock.readers == 1 { OnlyHolder(s.rheld, r); }
      assert s.rheld == {r} ==> s.lock.readers == 1;
    } else if r in s.client && s.client[r].Writing? {
      OnlyHolder(s.wheld, r);
    }
  }

  /** The fast path of lock() never looks at the queues, yet it never overtakes anyone. */
  lemma FastPathOvertakesNobody(run: seq<Action>, r: Req)
    ensures var l := Exec(Init(), run).lock; WLock(l, r).1 ==> l.wwait == [] && l.rwait == []
  {
    Reachable(run);
  }

  /** A call still in its wait loop is queued ungranted, or owns the lock with its wake issued or
      owed: no wake is lost, whatever spurious returns park() made before. */
  lemma NoLostWake(run: seq<Action>, r: Req)
    ensures var s := Exec(Init(), run);
            r in s.client && (s.client[r].InRLock? || s.client[r].InLock?) ==>
              if r in s.lock.granted then r in s.rheld + s.wheld && r in s.owed + s.woken
              else r in s.lock.rwait + s.lock.wwait
  {
    Reachable(run);
    assert Placed(Exec(Init(), run), r);
  }

  /** Queued writers are granted in arrival order, each at most once; so are queued readers. */
  lemma GrantsInArrivalOrder(run: seq<Action>)
    ensures var s := Exec(Init(), run);
            && s.wcame == s.wgiven + s.lock.wwait && Distinct(s.wgiven)
            && s.rcame == s.rgiven + s.lock.rwait && Distinct(s.rgiven)
  {
    Reachable(run);
    var s := Exec(Init(), run);
    assert s.wgiven == s.wcame[..|s.wgiven|] && s.rgiven == s.rcame[..|s.rgiven|];
  }

  lemma ReadersHeldOff(s: State, a: Action)
    requires Inv(s) && s.lock.wwait != []
    ensures Step(s, a).rheld <= s.rheld
  {
  }

  lemma StillQueuedWasQueued(s: State, a: Action, w: Req)
    requires w in s.client
    ensures w in Step(s, a).client && (w in Step(s, a).lock.wwait ==> w in s.lock.wwait)
  {
  }

  /** Writer preference: from any reachable moment a writer is queued, for as long as it stays
      queued, no reader acquires the lock, neither by the fast path nor by handoff. */
  lemma {:induction false} WriterPreference(run: seq<Action>, more: seq<Action>, w: Req)
    ensures var s := Exec(Init(), run);
            var s' := Exec(s, more);
            && Inv(s')
            && (w in s.lock.wwait ==> w in s'.client)
            && (w in s.lock.wwait && w in s'.lock.wwait ==> s'.rheld <= s.rheld)
    decreases |more|
  {
    Reachable(run);
    var s := Exec(Init(), run);
    assert Placed(s, w);
    assert w in s.lock.wwait ==> w in s.wcame;
    if more != [] {
      var most, a := more[..|more| - 1], more[|more| - 1];
      WriterPreference(run, most, w);
      var m := Exec(s, most);
      StepKeeps(m, a);
      if w in s.lock.wwait {
        StillQueuedWasQueued(m, a, w);
        if w in m.lock.wwait { ReadersHeldOff(m, a); }
      }
    }
  }

  // ---- the object, updated in place --------------------------------------------------------

  /** The mutex object; `granted` stands for the flags of the cells its waiters poll. Each method
      is one guarded section, `woke` the handles woken after the guard is released. */
  class Mutex {
    var readers: int
    var writer: bool
    var rwait: seq<Req>
    var wwait: seq<Req>
    var granted: set<Req>

    function View(): Lock
      reads this
    {
      Lock(readers, writer, rwait, wwait, granted)
    }

    constructor ()
      ensures View() == Init().lock
    {
      readers, writer, rwait, wwait, granted := 0, false, [], [], {};
    }

    method TryRLock(r: Req) returns (now: bool)
      modifies this
      ensures (View(), now) == RLock(old(View()), r)
    {
      now := !writer && wwait == [];
      if now { readers := readers + 1; } else { rwait := rwait + [r]; }
    }

    method TryLock(r: Req) returns (now: bool)
      modifies this
      ensures (View(), now) == WLock(old(View()), r)
    {
      now := !writer && readers == 0;
      if now { writer := true; } else { wwait := wwait + [r]; }
    }

    method ReleaseRead() returns (out: Release)
      modifies this
      ensures (View(), out) == RUnlock(old(View()))
    {
      if readers <= 0 { return NotHeld; }
      readers := readers - 1;
      if readers == 0 && wwait != [] {
        var cell := wwait[0];
        wwait := wwait[1..];
        writer := true;
        granted := granted + {cell};
        out := Woke([cell]);
      } else {
        out := Woke([]);
      }
    }

    method ReleaseWrite() returns (out: Release)
      modifies this
      ensures (View(), out) == WUnlock(old(View()))
    {
      if !writer { return NotHeld; }
      if wwait != [] {
        var cell := wwait[0];
        wwait := wwait[1..];
        granted := granted + {cell};
        out := Woke([cell]);
      } else if rwait != [] {
        writer := false;
        var cells := rwait;
        rwait, readers := [], |cells|;
        for i := 0 to |cells|
          invariant View() == old(View()).(writer := false, rwait := [], readers := |cells|,
                                           granted := old(granted) + Elems(cells[..i]))
        {
          assert Elems(cells[..i + 1]) == Elems(cells[..i]) + {cells[i]};
          granted := granted + {cells[i]};
        }
        assert cells[..|cells|] == cells;
        out := Woke(cells);
      } else {
        writer := false;
        out := Woke([]);
      }
    }
  }
}
