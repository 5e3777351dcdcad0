/**
 The weighted FIFO semaphore with timeouts. Every guarded section is one atomic step; a
 waiter parks outside the guard, park() may return at any time, and a deadline may pass at
 any time. Clients may release any number of permits, in any order.
 */
module Semaphore {
  import opened Seqs

  type Req = nat

  datatype Waiter = Waiter(r: Req, n: nat)

  /** The semaphore object together with the granted flags of its waiter cells. */
  datatype Sem = Sem(limit: nat, held: int, waiters: seq<Waiter>, granted: set<Req>)

  datatype Answer = Raised | Yes | No | Queued

  function Ids(ws: seq<Waiter>): (ids: seq<Req>)
    ensures |ids| == |ws| && forall i :: 0 <= i < |ws| ==> ids[i] == ws[i].r
  {
    seq(|ws|, i requires 0 <= i < |ws| => ws[i].r)
  }

  function Total(ws: seq<Waiter>): nat {
    if ws == [] then 0 else Total(ws[..|ws| - 1]) + ws[|ws| - 1].n
  }

  function Drop(ws: seq<Waiter>, r: Req): seq<Waiter> {
    if ws == [] then []
    else
      var rest, w := Drop(ws[..|ws| - 1], r), ws[|ws| - 1];
      if w.r == r then rest else rest + [w]
  }

  // ---- the guarded sections -------------------------------------------------------

  /** How many waiters, from the front, fit into the free permits one after the other. */
  function Fitting(limit: nat, held: int, ws: seq<Waiter>): (k: nat)
    ensures k <= |ws|
    decreases ws
  {
    if ws != [] && held + ws[0].n <= limit then 1 + Fitting(limit, held + ws[0].n, ws[1..]) else 0
  }

  function Grant(s: Sem): (r: (Sem, seq<Req>))
    ensures r.0.limit == s.limit
  {
    var k := Fitting(s.limit, s.held, s.waiters);
    (s.(held := s.held + Total(s.waiters[..k]), waiters := s.waiters[k..],
        granted := s.granted + Elems(Ids(s.waiters[..k]))),
     Ids(s.waiters[..k]))
  }

  function Acquire(s: Sem, r: Req, n: int): (Sem, Answer) {
    if n < 0 || n > s.limit then (s, Raised)
    else if s.waiters == [] && s.held + n <= s.limit then (s.(held := s.held + n), Yes)
    else (s.(waiters := s.waiters + [Waiter(r, n)]), Queued)
  }

  function TryAcquire(s: Sem, n: int): (Sem, Answer) {
    if n < 0 then (s, Raised)
    else if s.waiters == [] && s.held + n <= s.limit then (s.(held := s.held + n), Yes)
    else (s, No)
  }

  function Release(s: Sem, n: int): (Sem, Answer, seq<Req>) {
    if n < 0 || n > s.held then (s, Raised, [])
    else
      var (g, woke) := Grant(s.(held := s.held - n));
      (g, Yes, woke)
  }

  function Expire(s: Sem, r: Req): (Sem, Answer, seq<Req>) {
    if r in s.granted then (s, Yes, [])
    else
      var (g, woke) := Grant(s.(waiters := Drop(s.waiters, r)));
      (g, No, woke)
  }

  // ---- runs of any number of fibers ---------------------------------------------------

  datatype Call = Waiting(n: nat) | Returned(ok: bool)

  /** `came`: requests in the order their guarded section ran (queued or served at once);
      `given`: requests in the order they got their permits; `lapsed`: requests removed by
      their deadline; `want`: the permits a request asked for; `freed`: permits released. */
  datatype State = State(sem: Sem, calls: map<Req, Call>, owed: set<Req>, woken: set<Req>,
                         came: seq<Req>, given: seq<Waiter>, lapsed: set<Req>, freed: nat)

  datatype Action =
    | CallAcquire(r: Req, n: int)
    | CallTryAcquire(r: Req, n: int)
    | CallRelease(n: int)
    | ParkReturns(r: Req)
    | DeadlinePasses(r: Req)
    | IssueWake(r: Req)

  /** A waiter whose park returns looks at its flag: granted, or back to waiting. */
  function Resumed(s: State, r: Req): State {
    if r !in s.calls || !s.calls[r].Waiting? then s
    else if r in s.sem.granted then s.(calls := s.calls[r := Returned(true)], woken := s.woken - {r})
    else s.(woken := s.woken - {r})
  }

  function Woken(s: State, r: Req): State {
    if r in s.owed then s.(owed := s.owed - {r}, woken := s.woken + {r}) else s
  }

  function Step(s: State, a: Action): (s': State)
    ensures s'.sem.limit == s.sem.limit
  {
    match a
    case CallAcquire(r, n) =>
      var (m, ans) := Acquire(s.sem, r, n);
      if r in s.calls || ans == Raised then s
      else if ans == Yes then
        s.(sem := m, calls := s.calls[r := Returned(true)], came := s.came + [r], given := s.given + [Waiter(r, n)])
      else s.(sem := m, calls := s.calls[r := Waiting(n)], came := s.came + [r])
    case CallTryAcquire(r, n) =>
      var (m, ans) := TryAcquire(s.sem, n);
      if r in s.calls || ans != Yes then s
      else s.(sem := m, calls := s.calls[r := Returned(true)], came := s.came + [r], given := s.given + [Waiter(r, n)])
    case CallRelease(n) =>
      var (m, ans, woke) := Release(s.sem, n);
      if ans == Raised then s
      else s.(sem := m, owed := s.owed + Elems(woke), freed := s.freed + n,
              given := s.given + s.sem.waiters[..|woke|])
    case ParkReturns(r) => Resumed(s, r)
    case DeadlinePasses(r) =>
      if r !in s.calls || !s.calls[r].Waiting? then s
      else
        var (m, ans, woke) := Expire(s.sem, r);
        if ans == Yes then s.(calls := s.calls[r := Returned(true)])
        else s.(sem := m, calls := s.calls[r := Returned(false)], owed := s.owed + Elems(woke),
                given := s.given + Drop(s.sem.waiters, r)[..|woke|], lapsed := s.lapsed + {r})
    case IssueWake(r) => Woken(s, r)
  }

  function Init(limit: nat): State {
    State(Sem(limit, 0, [], {}), map[], {}, {}, [], [], {}, 0)
  }

  function Exec(s: State, run: seq<Action>): State {
    if run == [] then s else Step(Exec(s, run[..|run| - 1]), run[|run| - 1])
  }

  // ---- the invariant ----------------------------------------------------------------------

  /** Permits in use are within the limit and are those given minus those released. */
  ghost predicate Accounted(s: State) {
    && 0 <= s.sem.held <= s.sem.limit
    && s.sem.held == Total(s.given) - s.freed
    && forall i :: 0 <= i < |s.sem.waiters| ==> s.sem.waiters[i].n <= s.sem.limit
  }

  /** Whenever the guard is free the front waiter does not fit. */
  ghost predicate Blocked(m: Sem) {
    m.waiters != [] ==> m.held + m.waiters[0].n > m.limit
  }

  /** Among requests that have not lapsed, those served and then those waiting are in arrival order. */
  ghost predicate Fifo(s: State) {
    Distinct(s.came) && Without(s.came, s.lapsed) == Ids(s.given) + Ids(s.sem.waiters)
  }

  ghost predicate Placed(s: State, r: Req) {
    && (r in s.sem.granted ==> r in Ids(s.given))
    && if r !in s.calls then r !in s.came && r !in s.lapsed
       else match s.calls[r]
         case Waiting(n) =>
           && r in s.came && r !in s.lapsed
           && (r in s.sem.granted <==> r !in Ids(s.sem.waiters))
           && (r in s.sem.granted ==> r in s.owed || r in s.woken)
         case Returned(ok) =>
           r !in Ids(s.sem.waiters) && r in s.came && (ok <==> r !in s.lapsed)
  }

  /** Everything but `Blocked`, which a release or a timeout breaks until it re-scans the queue. */
  ghost predicate Loose(s: State) {
    Accounted(s) && Fifo(s) && forall r: Req :: Placed(s, r)
  }

  ghost predicate Inv(s: State) { Loose(s) && Blocked(s.sem) }

  // ---- granting -------------------------------------------------------------------------------

  lemma {:induction false} TotalConcat(a: seq<Waiter>, b: seq<Waiter>)
    ensures Total(a + b) == Total(a) + Total(b)
    decreases |b|
  {
    if b == [] {
      assert a + b == a;
    } else {
      assert (a + b)[..|a + b| - 1] == a + b[..|b| - 1];
      TotalConcat(a, b[..|b| - 1]);
    }
  }

  lemma OneMore(ws: seq<Waiter>, k: nat)
    requires k < |ws|
    ensures Ids(ws[..k + 1]) == Ids(ws[..k]) + [ws[k].r] && Total(ws[..k + 1]) == Total(ws[..k]) + ws[k].n
  {
    assert ws[..k + 1][..k] == ws[..k];
  }

  /** The scan grants exactly the longest prefix of the queue all of whose prefixes fit. */
  lemma {:induction false} FittingIsLongest(limit: nat, held: int, ws: seq<Waiter>)
    ensures var k := Fitting(limit, held, ws);
            && (forall j :: 0 < j <= k ==> held + Total(ws[..j]) <= limit)
            && (k < |ws| ==> held + Total(ws[..k + 1]) > limit)
    decreases |ws|
  {
    if ws != [] {
      var rest := ws[1..];
      forall j | 0 < j <= |ws| ensures Total(ws[..j]) == ws[0].n + Total(rest[..j - 1]) {
        assert ws[..j] == ws[..1] + rest[..j - 1];
        assert ws[..1][..0] == [];
        assert Total(ws[..1]) == ws[0].n;
        TotalConcat(ws[..1], rest[..j - 1]);
      }
      if held + ws[0].n <= limit { FittingIsLongest(limit, held + ws[0].n, rest); }
    }
  }

  /** The state after a scan of the queue, as a release or a timeout leaves it. */
  function Scanned(s: State): State {
    var (m, woke) := Grant(s.sem);
    s.(sem := m, owed := s.owed + Elems(woke), given := s.given + s.sem.waiters[..|woke|])
  }

  lemma ScanAccounts(s: State)
    requires Accounted(s)
    ensures Accounted(Scanned(s)) && Blocked(Scanned(s).sem)
  {
    var k, ws := Fitting(s.sem.limit, s.sem.held, s.sem.waiters), s.sem.waiters;
    FittingIsLongest(s.sem.limit, s.sem.held, ws);
    TotalConcat(s.given, ws[..k]);
    assert Total(ws[..0]) == 0;
    if k < |ws| {
      assert ws[..k + 1] == ws[..k] + [ws[k]];
      TotalConcat(ws[..k], [ws[k]]);
      assert [ws[k]][..0] == [];
      assert Total([ws[k]]) == ws[k].n;
    }
  }

  lemma ScanOrders(s: State)
    requires Fifo(s)
    ensures Fifo(Scanned(s))
    ensures forall r :: r in Ids(s.sem.waiters) <==> r in Grant(s.sem).1 || r in Ids(Scanned(s).sem.waiters)
    ensures forall r :: r in Grant(s.sem).1 ==> r !in Ids(Scanned(s).sem.waiters)
    ensures forall r :: r in Ids(Scanned(s).given) <==> r in Ids(s.given) || r in Grant(s.sem).1
  {
    var k, ws, s' := Fitting(s.sem.limit, s.sem.held, s.sem.waiters), s.sem.waiters, Scanned(s);
    WithoutDistinct(s.came, s.lapsed);
    Served(Without(s.came, s.lapsed), Ids(s.given), Ids(ws), k);
    assert Ids(ws[..k]) == Ids(ws)[..k];
    assert Ids(s'.given) == Ids(s.given) + Ids(ws)[..k];
    assert Ids(s'.sem.waiters) == Ids(ws)[k..];
  }

  lemma ScanRestores(s: State)
    requires Loose(s)
    ensures Inv(Scanned(s))
  {
    ScanAccounts(s);
    ScanOrders(s);
    forall r: Req ensures Placed(Scanned(s), r) { assert Placed(s, r); }
  }

  lemma {:induction false} DropIsWithout(ws: seq<Waiter>, r: Req)
    ensures Ids(Drop(ws, r)) == Without(Ids(ws), {r})
    ensures forall w :: w in Drop(ws, r) ==> w in ws
    decreases |ws|
  {
    if ws != [] {
      var rest, w := ws[..|ws| - 1], ws[|ws| - 1];
      DropIsWithout(rest, r);
      assert ws == rest + [w];
      WithoutSnoc(Ids(rest), w.r, {r});
      assert Ids(ws) == Ids(rest) + [w.r];
      if w.r != r { assert Ids(Drop(ws, r)) == Ids(Drop(rest, r)) + [w.r]; }
    }
  }

  /** A waiter that gave up: off the queue, and its call answers False. */
  function Lapsed(s: State, r: Req): State {
    s.(sem := s.sem.(waiters := Drop(s.sem.waiters, r)), calls := s.calls[r := Returned(false)],
       lapsed := s.lapsed + {r})
  }

  /** A waiter removed by its deadline leaves the arrival order of the others alone. */
  lemma LapseOrders(s: State, r: Req)
    requires Fifo(s) && r in Ids(s.sem.waiters)
    ensures Fifo(Lapsed(s, r))
  {
    var ws := s.sem.waiters;
    DropIsWithout(ws, r);
    WithoutTwice(s.came, s.lapsed, {r});
    WithoutConcat(Ids(s.given), Ids(ws), {r});
    WithoutDistinct(s.came, s.lapsed);
    Served(Without(s.came, s.lapsed), Ids(s.given), Ids(ws), 0);
    WithoutNone(Ids(s.given), {r});
  }

  lemma LapsePlaces(s: State, r: Req, q: Req)
    requires Placed(s, q) && Placed(s, r) && r in s.calls && s.calls[r].Waiting?
    ensures Placed(Lapsed(s, r), q)
  {
    DropIsWithout(s.sem.waiters, r);
  }

  lemma LapseLoosens(s: State, r: Req)
    requires Inv(s) && r in s.calls && s.calls[r].Waiting? && r !in s.sem.granted
    ensures Loose(Lapsed(s, r))
  {
    var ws := s.sem.waiters;
    assert Placed(s, r);
    LapseOrders(s, r);
    assert Accounted(Lapsed(s, r)) by {
      DropIsWithout(ws, r);
      forall i | 0 <= i < |Drop(ws, r)| ensures Drop(ws, r)[i].n <= s.sem.limit { assert Drop(ws, r)[i] in ws; }
    }
    forall q: Req ensures Placed(Lapsed(s, r), q) { LapsePlaces(s, r, q); }
  }

  /** A request served at once: the queue is empty, so it is next in arrival order. */
  lemma ServeAtOnce(s: State, r: Req, n: nat)
    requires Inv(s) && r !in s.calls && s.sem.waiters == [] && s.sem.held + n <= s.sem.limit
    ensures Inv(s.(sem := s.sem.(held := s.sem.held + n), calls := s.calls[r := Returned(true)],
                   came := s.came + [r], given := s.given + [Waiter(r, n)]))
  {
    var w := Waiter(r, n);
    var s' := s.(sem := s.sem.(held := s.sem.held + n), calls := s.calls[r := Returned(true)],
                 came := s.came + [r], given := s.given + [w]);
    assert Placed(s, r);
    DistinctSnoc(s.came, r);
    WithoutSnoc(s.came, r, s.lapsed);
    assert [w][..0] == [];
    assert Total([w]) == n;
    TotalConcat(s.given, [w]);
    assert Ids(s'.given) == Ids(s.given) + [r];
    assert Accounted(s');
    assert Fifo(s');
    forall q: Req ensures Placed(s', q) { assert Placed(s, q); }
  }

  lemma Enqueue(s: State, r: Req, n: nat)
    requires Inv(s) && r !in s.calls && n <= s.sem.limit
    requires s.sem.waiters != [] || s.sem.held + n > s.sem.limit
    ensures Inv(s.(sem := s.sem.(waiters := s.sem.waiters + [Waiter(r, n)]), calls := s.calls[r := Waiting(n)],
                   came := s.came + [r]))
  {
    var s' := s.(sem := s.sem.(waiters := s.sem.waiters + [Waiter(r, n)]), calls := s.calls[r := Waiting(n)],
                 came := s.came + [r]);
    assert Placed(s, r);
    DistinctSnoc(s.came, r);
    WithoutSnoc(s.came, r, s.lapsed);
    assert Ids(s'.sem.waiters) == Ids(s.sem.waiters) + [r];
    Regroup(Ids(s.given), Ids(s.sem.waiters), [r]);
    assert r !in Without(s.came, s.lapsed);
    assert forall q :: q in Ids(s.given) ==> q in Without(s.came, s.lapsed);
    assert Accounted(s');
    assert Fifo(s');
    forall q: Req ensures Placed(s', q) { assert Placed(s, q); }
  }

  lemma ReleaseLoosens(s: State, n: nat)
    requires Inv(s) && n <= s.sem.held
    ensures Loose(s.(sem := s.sem.(held := s.sem.held - n), freed := s.freed + n))
  {
    var mid := s.(sem := s.sem.(held := s.sem.held - n), freed := s.freed + n);
    forall q: Req ensures Placed(mid, q) { assert Placed(s, q); }
  }

  lemma LapseIsScan(s: State, r: Req)
    requires r in s.calls && s.calls[r].Waiting? && r !in s.sem.granted
    ensures Step(s, DeadlinePasses(r)) == Scanned(Lapsed(s, r))
  {
  }

  lemma DeadlineKeeps(s: State, r: Req)
    requires Inv(s)
    ensures Inv(Step(s, DeadlinePasses(r)))
  {
    if r in s.calls && s.calls[r].Waiting? {
      assert Placed(s, r);
      if r !in s.sem.granted {
        LapseLoosens(s, r);
        ScanRestores(Lapsed(s, r));
        LapseIsScan(s, r);
      } else {
        forall q: Req ensures Placed(Step(s, DeadlinePasses(r)), q) { assert Placed(s, q); }
      }
    }
  }

  /** Wakes and returns touch neither the permits nor the queue. */
  lemma QueueUntouched(s: State, s': State)
    requires Accounted(s) && Fifo(s)
    requires s'.sem == s.sem && s'.given == s.given && s'.freed == s.freed && s'.came == s.came && s'.lapsed == s.lapsed
    ensures Accounted(s') && Fifo(s')
  {
  }

  lemma ResumedPlaces(s: State, r: Req, q: Req)
    requires Placed(s, q)
    ensures Placed(Resumed(s, r), q)
  {
  }

  lemma ResumedKeeps(s: State, r: Req)
    requires Inv(s)
    ensures Inv(Resumed(s, r))
  {
    QueueUntouched(s, Resumed(s, r));
    forall q: Req ensures Placed(Resumed(s, r), q) { ResumedPlaces(s, r, q); }
  }

  lemma WokenPlaces(s: State, r: Req, q: Req)
    requires Placed(s, q)
    ensures Placed(Woken(s, r), q)
  {
  }

  lemma WokenKeeps(s: State, r: Req)
    requires Inv(s)
    ensures Inv(Woken(s, r))
  {
    QueueUntouched(s, Woken(s, r));
    forall q: Req ensures Placed(Woken(s, r), q) { WokenPlaces(s, r, q); }
  }

  lemma ReleaseIsScan(s: State, n: nat)
    requires n <= s.sem.held
    ensures Step(s, CallRelease(n)) == Scanned(s.(sem := s.sem.(held := s.sem.held - n), freed := s.freed + n))
  {
  }

  lemma ReleaseKeeps(s: State, n: int)
    requires Inv(s)
    ensures Inv(Step(s, CallRelease(n)))
  {
    if 0 <= n <= s.sem.held {
      ReleaseIsScan(s, n);
      ReleaseLoosens(s, n);
      ScanRestores(s.(sem := s.sem.(held := s.sem.held - n), freed := s.freed + n));
    }
  }

  lemma AcquireKeeps(s: State, r: Req, n: int)
    requires Inv(s)
    ensures Inv(Step(s, CallAcquire(r, n)))
  {
    var s' := Step(s, CallAcquire(r, n));
    if r !in s.calls && 0 <= n <= s.sem.limit {
      if s.sem.waiters == [] && s.sem.held + n <= s.sem.limit {
        ServeAtOnce(s, r, n);
        assert s' == s.(sem := s.sem.(held := s.sem.held + n), calls := s.calls[r := Returned(true)],
                        came := s.came + [r], given := s.given + [Waiter(r, n)]);
      } else {
        Enqueue(s, r, n);
        assert s' == s.(sem := s.sem.(waiters := s.sem.waiters + [Waiter(r, n)]),
                        calls := s.calls[r := Waiting(n)], came := s.came + [r]);
      }
    } else {
      assert s' == s;
    }
  }

  lemma TryAcquireKeeps(s: State, r: Req, n: int)
    requires Inv(s)
    ensures Inv(Step(s, CallTryAcquire(r, n)))
  {
    var s' := Step(s, CallTryAcquire(r, n));
    if r !in s.calls && 0 <= n && s.sem.waiters == [] && s.sem.held + n <= s.sem.limit {
      ServeAtOnce(s, r, n);
      assert s' == s.(sem := s.sem.(held := s.sem.held + n), calls := s.calls[r := Returned(true)],
                      came := s.came + [r], given := s.given + [Waiter(r, n)]);
    } else {
      assert s' == s;
    }
  }

  lemma StepKeeps(s: State, a: Action)
    requires Inv(s)
    ensures Inv(Step(s, a))
  {
    match a
    case CallRelease(n) => ReleaseKeeps(s, n);
    case DeadlinePasses(r) => DeadlineKeeps(s, r);
    case CallAcquire(r, n) => AcquireKeeps(s, r, n);
    case CallTryAcquire(r, n) => TryAcquireKeeps(s, r, n);
    case ParkReturns(r) => ResumedKeeps(s, r);
    case IssueWake(r) => WokenKeeps(s, r);
  }

  lemma {:induction false} Reachable(limit: nat, run: seq<Action>)
    ensures Inv(Exec(Init(limit), run)) && Exec(Init(limit), run).sem.limit == limit
    decreases |run|
  {
    if run != [] {
      Reachable(limit, run[..|run| - 1]);
      StepKeeps(Exec(Init(limit), run[..|run| - 1]), run[|run| - 1]);
    } else {
      assert Ids([]) == [] && Total([]) == 0;
    }
  }

  // ---- the theorems ---------------------------------------------------------------------------

  /** In every run, over-releases and timeouts included: the permits in use stay within the limit
      and are those given minus those released; the front waiter does not fit; so nobody waits
      while no permit is held. */
  lemma SafeAndNeverStranded(limit: nat, run: seq<Action>)
    ensures var s := Exec(Init(limit), run);
            && 0 <= s.sem.held <= limit
            && s.sem.held == Total(s.given) - s.freed
            && (s.sem.waiters != [] ==> s.sem.held + s.sem.waiters[0].n > limit)
            && (s.sem.held == 0 ==> s.sem.waiters == [])
  {
    Reachable(limit, run);
  }

  /** What an acquire decides, in every reachable state: refused exactly for a count below zero or
      above the limit; True at once exactly when it is not refused, nobody waits and it fits;
      otherwise it joins the back of the queue. try_acquire answers True exactly when nobody
      waits and it fits, and changes nothing when it does not. */
  lemma AcquireOutcomes(limit: nat, run: seq<Action>, r: Req, n: int)
    requires r !in Exec(Init(limit), run).calls
    ensures var s := Exec(Init(limit), run);
            var now := s.sem.waiters == [] && s.sem.held + n <= limit;
            && s.sem.limit == limit
            && (Acquire(s.sem, r, n).1 == Raised <==> n < 0 || n > limit)
            && (TryAcquire(s.sem, n).1 == Raised <==> n < 0)
            && (var s' := Step(s, CallAcquire(r, n));
                if n < 0 || n > limit then s' == s
                else if now then s'.calls == s.calls[r := Returned(true)] && s'.given == s.given + [Waiter(r, n)]
                else s'.calls == s.calls[r := Waiting(n)] && s'.given == s.given
                     && s'.sem.waiters == s.sem.waiters + [Waiter(r, n)])
            && (var s' := Step(s, CallTryAcquire(r, n));
                if n >= 0 && now then s'.calls == s.calls[r := Returned(true)] && s'.given == s.given + [Waiter(r, n)]
                else s' == s)
  {
    Reachable(limit, run);
    LimitIsFixed(limit, run);
  }

  lemma {:induction false} LimitIsFixed(limit: nat, run: seq<Action>)
    ensures Exec(Init(limit), run).sem.limit == limit
    decreases |run|
  {
    if run != [] { LimitIsFixed(limit, run[..|run| - 1]); }
  }

  /** From the queue `ws`, with `held` permits out, the longest fitting prefix was served and owed
      its wakes; `s` is the state before. */
  ghost predicate Serves(s: State, s': State, ws: seq<Waiter>, held: int) {
    exists k: nat :: ServesPrefix(s, s', ws, held, k)
  }

  ghost predicate ServesPrefix(s: State, s': State, ws: seq<Waiter>, held: int, k: nat) {
    && k <= |ws|
    && (forall j :: 0 < j <= k ==> held + Total(ws[..j]) <= s.sem.limit)
    && (k < |ws| ==> held + Total(ws[..k + 1]) > s.sem.limit)
    && s'.given == s.given + ws[..k] && s'.sem.waiters == ws[k..] && s'.sem.held == held + Total(ws[..k])
    && (forall q :: q in Ids(ws[..k]) ==> q in s'.owed && q in s'.sem.granted)
  }

  lemma ScanServes(s: State, mid: State)
    requires mid.sem.limit == s.sem.limit && mid.given == s.given
    ensures Serves(s, Scanned(mid), mid.sem.waiters, mid.sem.held)
  {
    FittingIsLongest(mid.sem.limit, mid.sem.held, mid.sem.waiters);
    var k := Fitting(mid.sem.limit, mid.sem.held, mid.sem.waiters);
    assert ServesPrefix(s, Scanned(mid), mid.sem.waiters, mid.sem.held, k);
  }

  /** What a release decides: refused exactly for a count below zero or above the permits held;
      otherwise it returns that many and serves the longest prefix of the queue that fits. */
  lemma ReleaseOutcomes(s: State, n: int)
    ensures Release(s.sem, n).1 == Raised <==> n < 0 || n > s.sem.held
    ensures var s' := Step(s, CallRelease(n));
            if n < 0 || n > s.sem.held then s' == s
            else s'.freed == s.freed + n && Serves(s, s', s.sem.waiters, s.sem.held - n)
  {
    if 0 <= n <= s.sem.held {
      ReleaseIsScan(s, n);
      ScanServes(s, s.(sem := s.sem.(held := s.sem.held - n), freed := s.freed + n));
    }
  }

  /** What a deadline decides: True exactly when the request was served already; otherwise False, and
      exactly that request is taken off and the longest fitting prefix of the rest is served. */
  lemma DeadlineOutcomes(s: State, r: Req)
    requires r in s.calls && s.calls[r].Waiting?
    ensures var s' := Step(s, DeadlinePasses(r));
            if r in s.sem.granted then s'.calls == s.calls[r := Returned(true)] && s'.sem == s.sem
            else s'.calls == s.calls[r := Returned(false)] && Serves(s, s', Drop(s.sem.waiters, r), s.sem.held)
    ensures Step(s, ParkReturns(r)).calls == if r in s.sem.granted then s.calls[r := Returned(true)] else s.calls
  {
    if r !in s.sem.granted {
      LapseIsScan(s, r);
      ScanServes(s, Lapsed(s, r));
    }
  }

  /** Permits go out in arrival order among the requests that do not time out, each request is
      served at most once, and requests served at once are part of that order. */
  lemma PermitsInArrivalOrder(limit: nat, run: seq<Action>)
    ensures var s := Exec(Init(limit), run);
            && Without(s.came, s.lapsed) == Ids(s.given) + Ids(s.sem.waiters)
            && Distinct(s.came) && Distinct(Ids(s.given))
  {
    Reachable(limit, run);
    var s := Exec(Init(limit), run);
    WithoutDistinct(s.came, s.lapsed);
    assert Ids(s.given) == Without(s.came, s.lapsed)[..|s.given|];
  }

  /** A call answered True exactly when its request got its permits, False exactly when its
      deadline removed it; a call still waiting is queued, or served with its wake on the way. */
  lemma Answers(limit: nat, run: seq<Action>, r: Req)
    ensures var s := Exec(Init(limit), run);
            r in s.calls ==>
              match s.calls[r]
              case Returned(ok) => (ok <==> r in Ids(s.given)) && (!ok <==> r in s.lapsed)
              case Waiting(_) =>
                if r in s.sem.granted then r in Ids(s.given) && r in s.owed + s.woken
                else r in Ids(s.sem.waiters) && r !in Ids(s.given)
  {
    Reachable(limit, run);
    var s := Exec(Init(limit), run);
    assert Placed(s, r);
    WithoutDistinct(s.came, s.lapsed);
    Served(Without(s.came, s.lapsed), Ids(s.given), Ids(s.sem.waiters), 0);
    assert r in Without(s.came, s.lapsed) <==> r in Ids(s.given) || r in Ids(s.sem.waiters);
  }

  // ---- the object, updated in place --------------------------------------------------------------

  class WeightedSemaphore {
    const limit: nat
    var held: int
    var waiters: seq<Waiter>
    var granted: set<Req>

    function View(): Sem
      reads this
    {
      Sem(limit, held, waiters, granted)
    }

    constructor (value: nat)
      ensures View() == Init(value).sem
    {
      limit, held, waiters, granted := value, 0, [], {};
    }

    /** Grants to fitting front waiters, one at a time, until one does not fit. */
    method GrantLocked() returns (woke: seq<Req>)
      modifies this
      ensures (View(), woke) == Grant(old(View()))
    {
      woke := [];
      ghost var k, was, all := 0, held, waiters;
      assert all[0..] == all;
      while waiters != [] && held + waiters[0].n <= limit
        invariant k <= |all| && waiters == all[k..] && woke == Ids(all[..k])
        invariant held == was + Total(all[..k]) && granted == old(granted) + Elems(woke)
        invariant Fitting(limit, was, all) == k + Fitting(limit, held, waiters)
        decreases |waiters|
      {
        OneMore(all, k);
        held := held + waiters[0].n;
        granted := granted + {waiters[0].r};
        woke := woke + [waiters[0].r];
        waiters := waiters[1..];
        k := k + 1;
      }
    }

    method BeginAcquire(r: Req, n: int) returns (ans: Answer)
      modifies this
      ensures (View(), ans) == Acquire(old(View()), r, n)
    {
      if n < 0 || n > limit { return Raised; }
      if waiters == [] && held + n <= limit {
        held := held + n;
        ans := Yes;
      } else {
        waiters := waiters + [Waiter(r, n)];
        ans := Queued;
      }
    }

    method TryTake(n: int) returns (ans: Answer)
      modifies this
      ensures (View(), ans) == TryAcquire(old(View()), n)
    {
      if n < 0 { return Raised; }
      if waiters == [] && held + n <= limit {
        held := held + n;
        ans := Yes;
      } else {
        ans := No;
      }
    }

    method GiveBack(n: int) returns (ans: Answer, woke: seq<Req>)
      modifies this
      ensures (View(), ans, woke) == Release(old(View()), n)
    {
      if n < 0 || n > held { return Raised, []; }
      held := held - n;
      woke := GrantLocked();
      ans := Yes;
    }

    method TimeOut(r: Req) returns (ans: Answer, woke: seq<Req>)
      modifies this
      ensures (View(), ans, woke) == Expire(old(View()), r)
    {
      if r in granted { return Yes, []; }
      waiters := Drop(waiters, r);
      woke := GrantLocked();
      ans := No;
    }
  }
}
