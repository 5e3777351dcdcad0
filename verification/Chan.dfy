/**
 The channel: every operation is one section under the channel's lock. Waiters of a select
 carry the park they belong to; a select is claimed at most once, on this channel or on
 another, and its other waiters here are then tombstones until popped or evicted.
 */
module Chan {
  import ChanRing
  import opened Options
  import opened Seqs

  /** One send (its value) or one receive (value unused), named by a fresh identifier. */
  datatype Item = Item(id: nat, v: int)

  datatype Waiter = Waiter(item: Item, park: Option<nat>)

  /** `ring` is the buffered values, oldest first; see module ChanRing for the array. */
  datatype Chan = Chan(cap: nat, ring: seq<Item>, senders: seq<Waiter>, receivers: seq<Waiter>, closed: bool)

  /** Non-blocking; blocking in a fiber; blocking with no fiber to park. */
  datatype Mode = Try | Block | NoFiber

  datatype SendOut = SendClosed | SentTo(rx: Waiter) | SentToRing | SendWouldBlock | SendNoFiber | SenderParked

  datatype RecvOut =
    | Got(item: Item, refill: Option<Waiter>)   // from the ring; `refill`: the sender moved into it
    | GotFrom(tx: Waiter)                       // straight from a parked sender
    | RecvClosed | RecvWouldBlock | RecvNoFiber | ReceiverParked

  // ---- claiming ---------------------------------------------------------------------------

  predicate Dead(w: Waiter, claimed: set<nat>) { w.park.Some? && w.park.value in claimed }

  function Claim(w: Waiter, claimed: set<nat>): set<nat> {
    if w.park.Some? then claimed + {w.park.value} else claimed
  }

  /** waiter_pop_claimable: drops tombstones, then claims and takes the first live waiter. */
  function PopClaimable(q: seq<Waiter>, claimed: set<nat>): (r: (Option<Waiter>, seq<Waiter>))
    ensures |r.1| <= |q| && (r.0.Some? ==> |r.1| < |q|) && (r.0.None? ==> r.1 == [])
    ensures r.0.Some? ==> !Dead(r.0.value, claimed)
  {
    if q == [] then (None, [])
    else if Dead(q[0], claimed) then PopClaimable(q[1..], claimed)
    else (Some(q[0]), q[1..])
  }

  // ---- the locked sections --------------------------------------------------------------------

  /** chan_send_locked; `claimed` is every select park that has fired. */
  function Send(c: Chan, claimed: set<nat>, item: Item, mode: Mode): (Chan, set<nat>, SendOut) {
    if c.closed then (c, claimed, SendClosed)
    else
      var (rx, rest) := PopClaimable(c.receivers, claimed);
      var c' := c.(receivers := rest);
      if rx.Some? then (c', Claim(rx.value, claimed), SentTo(rx.value))
      else if c.cap > 0 && |c.ring| < c.cap then (c'.(ring := c.ring + [item]), claimed, SentToRing)
      else match mode
        case Try => (c', claimed, SendWouldBlock)
        case NoFiber => (c', claimed, SendNoFiber)
        case Block => (c'.(senders := c.senders + [Waiter(item, None)]), claimed, SenderParked)
  }

  function Recv(c: Chan, claimed: set<nat>, item: Item, mode: Mode): (Chan, set<nat>, RecvOut) {
    var (tx, rest) := PopClaimable(c.senders, claimed);
    var c' := c.(senders := rest);
    if c.ring != [] then
      var ring := c.ring[1..] + if tx.Some? then [tx.value.item] else [];
      (c'.(ring := ring), if tx.Some? then Claim(tx.value, claimed) else claimed, Got(c.ring[0], tx))
    else if tx.Some? then (c', Claim(tx.value, claimed), GotFrom(tx.value))
    else if c.closed then (c', claimed, RecvClosed)
    else match mode
      case Try => (c', claimed, RecvWouldBlock)
      case NoFiber => (c', claimed, RecvNoFiber)
      case Block => (c'.(receivers := c.receivers + [Waiter(item, None)]), claimed, ReceiverParked)
  }

  /** Claims and wakes every live waiter of a queue, first to last. */
  function WakeAll(q: seq<Waiter>, claimed: set<nat>): (r: (seq<Waiter>, set<nat>))
    decreases |q|
  {
    var (w, rest) := PopClaimable(q, claimed);
    if w.None? then ([], claimed)
    else
      var (ws, cl) := WakeAll(rest, Claim(w.value, claimed));
      ([w.value] + ws, cl)
  }

  /** Close: senders fail, receivers see the end; None when it was closed already. */
  function Close(c: Chan, claimed: set<nat>): (Chan, set<nat>, Option<(seq<Waiter>, seq<Waiter>)>) {
    if c.closed then (c, claimed, None)
    else
      var (tx, cl) := WakeAll(c.senders, claimed);
      var (rx, cl') := WakeAll(c.receivers, cl);
      (c.(closed := true, senders := [], receivers := []), cl', Some((tx, rx)))
  }

  predicate HasForeign(q: seq<Waiter>, park: nat) {
    exists i :: 0 <= i < |q| && q[i].park != Some(park)
  }

  /** A select installs a waiter unless the operation could go through now. */
  function InstallSend(c: Chan, item: Item, park: nat): (Chan, bool) {
    if c.closed || (c.cap > 0 && |c.ring| < c.cap) || HasForeign(c.receivers, park) then (c, false)
    else (c.(senders := c.senders + [Waiter(item, Some(park))]), true)
  }

  function InstallRecv(c: Chan, item: Item, park: nat): (Chan, bool) {
    if c.closed || c.ring != [] || HasForeign(c.senders, park) then (c, false)
    else (c.(receivers := c.receivers + [Waiter(item, Some(park))]), true)
  }

  /** A select takes its waiter `id` off a queue, if it is still on it. */
  function Evicted(q: seq<Waiter>, id: nat): seq<Waiter> {
    if q == [] then []
    else if q[|q| - 1].item.id == id && q[|q| - 1].park.Some? then Evicted(q[..|q| - 1], id)
    else Evicted(q[..|q| - 1], id) + [q[|q| - 1]]
  }

  function Evict(c: Chan, id: nat): Chan {
    c.(senders := Evicted(c.senders, id), receivers := Evicted(c.receivers, id))
  }

  // ---- runs ------------------------------------------------------------------------------------------

  datatype Delivery = Delivery(to: Item, item: Item)

  /** `came`/`rcame`: sends and receives in arrival order (those that went through or queued);
      `lost`/`rlost`: the queued ones that failed, were closed, or whose select went elsewhere;
      `out`: deliveries in order. */
  datatype State = State(c: Chan, claimed: set<nat>, used: set<nat>, came: seq<Item>, lost: set<Item>,
                         rcame: seq<Item>, rlost: set<Item>, out: seq<Delivery>)

  datatype Action =
    | DoSend(item: Item, mode: Mode)
    | DoRecv(item: Item, mode: Mode)
    | DoClose
    | DoInstallSend(item: Item, park: nat)
    | DoInstallRecv(item: Item, park: nat)
    | DoEvict(id: nat)
    | ClaimedElsewhere(park: nat)

  /** The items of the waiters that can still be claimed. */
  function Live(q: seq<Waiter>, claimed: set<nat>): seq<Item> {
    if q == [] then []
    else if Dead(q[|q| - 1], claimed) then Live(q[..|q| - 1], claimed)
    else Live(q[..|q| - 1], claimed) + [q[|q| - 1].item]
  }

  /** The waiters of `q` that a claim of `w`, or of park `p`, turns into tombstones. */
  function Buried(q: seq<Waiter>, claimed: set<nat>, claimed': set<nat>): set<Item> {
    set w | w in q && Dead(w, claimed') && !Dead(w, claimed) :: w.item
  }

  function Items(ws: seq<Waiter>): set<Item> { set w | w in ws :: w.item }

  /** New claims lose every queued waiter they bury. */
  function Settle(s: State, claimed: set<nat>, claimed': set<nat>): State {
    s.(claimed := claimed',
       lost := s.lost + Buried(s.c.senders, claimed, claimed'),
       rlost := s.rlost + Buried(s.c.receivers, claimed, claimed'))
  }

  function Step(s: State, a: Action): State {
    match a
    case DoSend(item, mode) =>
      if item.id in s.used then s
      else
        var (c, cl, out) := Send(s.c, s.claimed, item, mode);
        var s' := s.(c := c, used := s.used + {item.id});
        (match out
         case SentTo(rx) =>
           Settle(s', s.claimed, cl).(came := s.came + [item], out := s.out + [Delivery(rx.item, item)])
         case SentToRing => s'.(came := s.came + [item])
         case SenderParked => s'.(came := s.came + [item])
         case _ => s')
    case DoRecv(item, mode) =>
      if item.id in s.used then s
      else
        var (c, cl, out) := Recv(s.c, s.claimed, item, mode);
        var s' := s.(c := c, used := s.used + {item.id});
        (match out
         case Got(x, None) => s'.(rcame := s.rcame + [item], out := s.out + [Delivery(item, x)])
         case Got(x, Some(_)) =>
           Settle(s', s.claimed, cl).(rcame := s.rcame + [item], out := s.out + [Delivery(item, x)])
         case GotFrom(tx) =>
           Settle(s', s.claimed, cl).(rcame := s.rcame + [item], out := s.out + [Delivery(item, tx.item)])
         case ReceiverParked => s'.(rcame := s.rcame + [item])
         case _ => s')
    case DoClose =>
      var (c, cl, out) := Close(s.c, s.claimed);
      if out.None? then s
      else s.(c := c, claimed := cl, lost := s.lost + Items(s.c.senders), rlost := s.rlost + Items(s.c.receivers))
    case DoInstallSend(item, park) =>
      var (c, ok) := InstallSend(s.c, item, park);
      if item.id in s.used || !ok then s
      else s.(c := c, used := s.used + {item.id}, came := s.came + [item],
              lost := if park in s.claimed then s.lost + {item} else s.lost)
    case DoInstallRecv(item, park) =>
      var (c, ok) := InstallRecv(s.c, item, park);
      if item.id in s.used || !ok then s
      else s.(c := c, used := s.used + {item.id}, rcame := s.rcame + [item],
              rlost := if park in s.claimed then s.rlost + {item} else s.rlost)
    case DoEvict(id) =>
      s.(c := Evict(s.c, id),
         lost := s.lost + Taken(s.c.senders, id),
         rlost := s.rlost + Taken(s.c.receivers, id))
    case ClaimedElsewhere(park) => Settle(s, s.claimed, s.claimed + {park})
  }

  function Init(cap: nat): State {
    State(Chan(cap, [], [], [], false), {}, {}, [], {}, [], {}, [])
  }

  function Exec(s: State, run: seq<Action>): State {
    if run == [] then s else Step(Exec(s, run[..|run| - 1]), run[|run| - 1])
  }

  function Outs(ds: seq<Delivery>): (r: seq<Item>)
    ensures |r| == |ds| && forall i :: 0 <= i < |ds| ==> r[i] == ds[i].item
  {
    seq(|ds|, i requires 0 <= i < |ds| => ds[i].item)
  }

  function Tos(ds: seq<Delivery>): (r: seq<Item>)
    ensures |r| == |ds| && forall i :: 0 <= i < |ds| ==> r[i] == ds[i].to
  {
    seq(|ds|, i requires 0 <= i < |ds| => ds[i].to)
  }

  // ---- the invariant ------------------------------------------------------------------------------

  ghost predicate Apart(q: seq<Waiter>) {
    forall i, j :: 0 <= i < j < |q| ==> q[i].item != q[j].item
  }

  /** One side of the channel: arrivals in order, minus the lost ones, are those that are through
      and then those still queued live; tombstones are among the lost. */
  ghost predicate InOrder(came: seq<Item>, lost: set<Item>, through: seq<Item>, q: seq<Waiter>, claimed: set<nat>) {
    && Distinct(came) && Apart(q)
    && Without(came, lost) == through + Live(q, claimed)
    && (forall w :: w in q ==> w.item in came && (Dead(w, claimed) ==> w.item in lost))
  }

  ghost predicate Known(s: State) {
    && (forall x :: x in s.came ==> x.id in s.used)
    && (forall x :: x in s.rcame ==> x.id in s.used)
    && (forall x :: x in s.lost ==> x.id in s.used)
    && (forall x :: x in s.rlost ==> x.id in s.used)
  }

  /** A live receiver means an empty ring, a live sender a full one; both at once only as two
      waiters of one select; nobody is queued on a closed channel. */
  ghost predicate Matched(c: Chan, claimed: set<nat>) {
    && |c.ring| <= c.cap
    && (forall w :: w in c.receivers && !Dead(w, claimed) ==> c.ring == [])
    && (forall w :: w in c.senders && !Dead(w, claimed) ==> |c.ring| == c.cap)
    && (forall w, v :: w in c.senders && v in c.receivers && !Dead(w, claimed) && !Dead(v, claimed) ==>
          w.park.Some? && w.park == v.park)
    && (c.closed ==> c.senders == [] && c.receivers == [])
  }

  ghost predicate SendsInOrder(s: State) {
    InOrder(s.came, s.lost, Outs(s.out) + s.c.ring, s.c.senders, s.claimed)
  }

  ghost predicate RecvsInOrder(s: State) {
    InOrder(s.rcame, s.rlost, Tos(s.out), s.c.receivers, s.claimed)
  }

  ghost predicate Inv(s: State) {
    Known(s) && Matched(s.c, s.claimed) && SendsInOrder(s) && RecvsInOrder(s)
  }

  lemma OneMoreDelivery(ds: seq<Delivery>, to: Item, item: Item)
    ensures Outs(ds + [Delivery(to, item)]) == Outs(ds) + [item]
    ensures Tos(ds + [Delivery(to, item)]) == Tos(ds) + [to]
  {
  }

  // ---- queues ---------------------------------------------------------------------------------------

  lemma {:induction false} LiveConcat(a: seq<Waiter>, b: seq<Waiter>, claimed: set<nat>)
    ensures Live(a + b, claimed) == Live(a, claimed) + Live(b, claimed)
    decreases |b|
  {
    if b == [] {
      assert a + b == a;
    } else {
      assert (a + b)[..|a + b| - 1] == a + b[..|b| - 1];
      LiveConcat(a, b[..|b| - 1], claimed);
    }
  }

  lemma LiveSnoc(q: seq<Waiter>, w: Waiter, claimed: set<nat>)
    ensures Live(q + [w], claimed) == Live(q, claimed) + if Dead(w, claimed) then [] else [w.item]
  {
    assert (q + [w])[..|q|] == q;
  }

  lemma ApartSnoc(q: seq<Waiter>, w: Waiter)
    requires Apart(q) && forall v :: v in q ==> v.item != w.item
    ensures Apart(q + [w])
  {
  }

  lemma {:induction false} LiveMembers(q: seq<Waiter>, claimed: set<nat>, x: Item)
    ensures x in Live(q, claimed) <==> exists w :: w in q && !Dead(w, claimed) && w.item == x
    decreases |q|
  {
    if q != [] {
      var n := |q| - 1;
      LiveMembers(q[..n], claimed, x);
      assert q == q[..n] + [q[n]];
      if exists w :: w in q && !Dead(w, claimed) && w.item == x {
        var w :| w in q && !Dead(w, claimed) && w.item == x;
        assert w in q[..n] || w == q[n];
      }
    }
  }

  /** All waiters dead: nobody live. */
  lemma {:induction false} AllDead(q: seq<Waiter>, claimed: set<nat>)
    requires forall w :: w in q ==> Dead(w, claimed)
    ensures Live(q, claimed) == []
    decreases |q|
  {
    if q != [] {
      assert q[|q| - 1] in q;
      AllDead(q[..|q| - 1], claimed);
    }
  }

  lemma LiveHead(q: seq<Waiter>, claimed: set<nat>)
    requires q != []
    ensures Live(q, claimed) == (if Dead(q[0], claimed) then [] else [q[0].item]) + Live(q[1..], claimed)
  {
    assert q == q[..1] + q[1..] && q[..1][..0] == [];
    LiveConcat(q[..1], q[1..], claimed);
  }

  lemma ApartTail(q: seq<Waiter>)
    requires q != []
    ensures forall v :: v in q <==> v == q[0] || v in q[1..]
    ensures Apart(q) ==> Apart(q[1..]) && forall v :: v in q[1..] ==> v.item != q[0].item
  {
    assert q == [q[0]] + q[1..];
  }

  /** Popping takes the first live waiter and leaves a suffix of the queue. */
  lemma {:induction false} PopTakesFirst(q: seq<Waiter>, claimed: set<nat>)
    ensures var (w, rest) := PopClaimable(q, claimed);
            if w.None? then rest == [] && Live(q, claimed) == [] && forall v :: v in q ==> Dead(v, claimed)
            else w.value in q && Live(q, claimed) == [w.value.item] + Live(rest, claimed)
                 && rest == q[|q| - |rest|..] && (Apart(q) ==> forall v :: v in rest ==> v.item != w.value.item)
    decreases |q|
  {
    if q != [] {
      LiveHead(q, claimed);
      ApartTail(q);
      if Dead(q[0], claimed) {
        var tail := q[1..];
        PopTakesFirst(tail, claimed);
        var rest := PopClaimable(tail, claimed).1;
        assert tail[|tail| - |rest|..] == q[|q| - |rest|..];
      }
    }
  }

  /** What a pop passes over is dead. */
  lemma {:induction false} PopSkipsDead(q: seq<Waiter>, claimed: set<nat>)
    ensures var (w, rest) := PopClaimable(q, claimed);
            && (forall v :: v in rest ==> v in q)
            && (forall v :: v in q ==> v in rest || w == Some(v) || Dead(v, claimed))
    decreases |q|
  {
    if q != [] {
      assert forall v :: v in q <==> v == q[0] || v in q[1..];
      if Dead(q[0], claimed) { PopSkipsDead(q[1..], claimed); }
    }
  }

  /** A close wakes the live waiters of a queue and nobody else: every plain one, and every select
      that has a waiter there, that one exactly once. */
  lemma {:induction false} CloseWakesLive(q: seq<Waiter>, claimed: set<nat>)
    ensures var (ws, cl) := WakeAll(q, claimed);
            && (forall w :: w in ws ==> w in q && !Dead(w, claimed))
            && (forall w :: w in q && w.park.None? ==> w in ws)
            && (forall w :: w in q && w.park.Some? ==> Dead(w, cl))
            && (forall p :: p in cl <==> p in claimed || exists w :: w in ws && w.park == Some(p))
            && (forall i, j :: 0 <= i < j < |ws| && ws[i].park.Some? ==> ws[i].park != ws[j].park)
    decreases |q|
  {
    PopSkipsDead(q, claimed);
    PopTakesFirst(q, claimed);
    var (w, rest) := PopClaimable(q, claimed);
    if w.Some? {
      CloseWakesLive(rest, Claim(w.value, claimed));
      WakesOneMore(rest, claimed, w.value);
    }
  }

  lemma WakesOneMore(rest: seq<Waiter>, claimed: set<nat>, w: Waiter)
    requires var (ws, cl) := WakeAll(rest, Claim(w, claimed));
             && (forall v :: v in ws ==> !Dead(v, Claim(w, claimed)))
             && (forall p :: p in cl <==> p in Claim(w, claimed) || exists v :: v in ws && v.park == Some(p))
             && (forall i, j :: 0 <= i < j < |ws| && ws[i].park.Some? ==> ws[i].park != ws[j].park)
    ensures var (ws', cl) := WakeAll(rest, Claim(w, claimed));
            var ws := [w] + ws';
            && (forall v :: v in ws <==> v == w || v in ws')
            && (forall p :: p in cl <==> p in claimed || exists v :: v in ws && v.park == Some(p))
            && (forall i, j :: 0 <= i < j < |ws| && ws[i].park.Some? ==> ws[i].park != ws[j].park)
  {
    var (ws', cl) := WakeAll(rest, Claim(w, claimed));
    var ws := [w] + ws';
    forall i, j | 0 <= i < j < |ws| && ws[i].park.Some? ensures ws[i].park != ws[j].park {
      assert ws[j] == ws'[j - 1] && ws[j] in ws';
      if i > 0 { assert ws[i] == ws'[i - 1]; }
    }
    forall p ensures p in cl <==> p in claimed || exists v :: v in ws && v.park == Some(p) {
      if p in cl && p !in claimed {
        if w.park == Some(p) { assert w in ws; } else {
          var v :| v in ws' && v.park == Some(p);
          assert v in ws;
        }
      }
    }
  }

  lemma {:induction false} LiveAfterClaims(q: seq<Waiter>, claimed: set<nat>, claimed': set<nat>)
    requires Apart(q) && claimed <= claimed'
    ensures Live(q, claimed') == Without(Live(q, claimed), Buried(q, claimed, claimed'))
    decreases |q|
  {
    if q != [] {
      var n := |q| - 1;
      var q0, w := q[..n], q[n];
      LiveAfterClaims(q0, claimed, claimed');
      assert q == q0 + [w];
      var all, before := Buried(q, claimed, claimed'), Buried(q0, claimed, claimed');
      forall x | x in Live(q0, claimed) ensures x in all <==> x in before {
        LiveMembers(q0, claimed, x);
        assert x != w.item;
      }
      WithoutAgree(Live(q0, claimed), all, before);
      WithoutConcat(Live(q0, claimed), [w.item], all);
      if !Dead(w, claimed) && !Dead(w, claimed') {
        assert w.item !in all;
        WithoutNone([w.item], all);
      }
    }
  }

  /** Claims that bury waiters lose exactly those, and nothing that is through. */
  lemma Burial(came: seq<Item>, lost: set<Item>, through: seq<Item>, q: seq<Waiter>,
               claimed: set<nat>, claimed': set<nat>)
    requires InOrder(came, lost, through, q, claimed) && claimed <= claimed'
    ensures InOrder(came, lost + Buried(q, claimed, claimed'), through, q, claimed')
  {
    var gone := Buried(q, claimed, claimed');
    WithoutTwice(came, lost, gone);
    WithoutConcat(through, Live(q, claimed), gone);
    LiveAfterClaims(q, claimed, claimed');
    WithoutDistinct(came, lost);
    Served(Without(came, lost), through, Live(q, claimed), 0);
    forall x | x in gone ensures x in Live(q, claimed) { LiveMembers(q, claimed, x); }
    WithoutNone(through, gone);
  }

  /** Popping the first live waiter and claiming it puts it through next. */
  lemma ServeFirst(came: seq<Item>, lost: set<Item>, through: seq<Item>, q: seq<Waiter>, claimed: set<nat>)
    requires InOrder(came, lost, through, q, claimed) && PopClaimable(q, claimed).0.Some?
    ensures var (w, rest) := PopClaimable(q, claimed);
            var cl := Claim(w.value, claimed);
            InOrder(came, lost + Buried(rest, claimed, cl), through + [w.value.item], rest, cl)
  {
    var (w, rest) := PopClaimable(q, claimed);
    PopTakesFirst(q, claimed);
    Regroup(through, [w.value.item], Live(rest, claimed));
    assert Apart(rest);
    Burial(came, lost, through + [w.value.item], rest, claimed, Claim(w.value, claimed));
  }

  /** A new arrival that goes through at once when nobody is queued live. */
  lemma PassThrough(came: seq<Item>, lost: set<Item>, through: seq<Item>, q: seq<Waiter>, claimed: set<nat>, x: Item)
    requires InOrder(came, lost, through, q, claimed) && x !in came && x !in lost && Live(q, claimed) == []
    ensures InOrder(came + [x], lost, through + [x], q, claimed)
  {
    DistinctSnoc(came, x);
    WithoutSnoc(came, x, lost);
  }

  /** An arrival that goes through by claiming a waiter: what the claim buries is lost. */
  lemma TakeOrders(came: seq<Item>, lost: set<Item>, through: seq<Item>, q: seq<Waiter>,
                   claimed: set<nat>, cl: set<nat>, x: Item)
    requires InOrder(came, lost, through, q, claimed) && claimed <= cl && Live(q, cl) == [] && x !in came && x !in lost
    ensures InOrder(came + [x], lost + Buried(q, claimed, cl), through + [x], q, cl)
  {
    Burial(came, lost, through, q, claimed, cl);
    PassThrough(came, lost + Buried(q, claimed, cl), through, q, cl, x);
  }

  /** A new arrival that queues at the back. */
  lemma Enqueue(came: seq<Item>, lost: set<Item>, through: seq<Item>, q: seq<Waiter>, claimed: set<nat>, w: Waiter)
    requires InOrder(came, lost, through, q, claimed) && w.item !in came && w.item !in lost && !Dead(w, claimed)
    ensures InOrder(came + [w.item], lost, through, q + [w], claimed)
  {
    DistinctSnoc(came, w.item);
    ApartSnoc(q, w);
    WithoutSnoc(came, w.item, lost);
    LiveSnoc(q, w, claimed);
    Regroup(through, Live(q, claimed), [w.item]);
  }

  /** A waiter of a select that has fired already is a tombstone from the start. */
  lemma EnqueueDead(came: seq<Item>, lost: set<Item>, through: seq<Item>, q: seq<Waiter>, claimed: set<nat>, w: Waiter)
    requires InOrder(came, lost, through, q, claimed) && w.item !in came && w.item !in lost && Dead(w, claimed)
    ensures InOrder(came + [w.item], lost + {w.item}, through, q + [w], claimed)
  {
    DistinctSnoc(came, w.item);
    ApartSnoc(q, w);
    WithoutSnoc(came, w.item, lost + {w.item});
    WithoutAgree(came, lost + {w.item}, lost);
    LiveSnoc(q, w, claimed);
  }

  /** The waiter of a select, which may have fired already. */
  lemma Install(came: seq<Item>, lost: set<Item>, through: seq<Item>, q: seq<Waiter>, claimed: set<nat>, w: Waiter)
    requires InOrder(came, lost, through, q, claimed) && w.item !in came && w.item !in lost
    ensures InOrder(came + [w.item], if Dead(w, claimed) then lost + {w.item} else lost, through, q + [w], claimed)
  {
    if Dead(w, claimed) {
      EnqueueDead(came, lost, through, q, claimed, w);
    } else {
      Enqueue(came, lost, through, q, claimed, w);
    }
  }

  // ---- the steps keep the invariant -------------------------------------------------------------------

  lemma SendMatched(c: Chan, claimed: set<nat>, item: Item, mode: Mode)
    requires Matched(c, claimed)
    ensures Matched(Send(c, claimed, item, mode).0, Send(c, claimed, item, mode).1)
  {
    PopTakesFirst(c.receivers, claimed);
  }

  lemma RecvMatched(c: Chan, claimed: set<nat>, item: Item, mode: Mode)
    requires Matched(c, claimed)
    ensures Matched(Recv(c, claimed, item, mode).0, Recv(c, claimed, item, mode).1)
  {
    PopTakesFirst(c.senders, claimed);
    var (tx, rest) := PopClaimable(c.senders, claimed);
    var (c', cl, out) := Recv(c, claimed, item, mode);
    assert forall w :: w in rest ==> w in c.senders;
    if c.ring != [] {
      assert forall w :: w in c.receivers ==> Dead(w, claimed);
      if tx.Some? {
        assert |c'.ring| == |c.ring|;
        assert forall w :: w in rest && !Dead(w, cl) ==> !Dead(w, claimed);
      } else {
        assert c'.senders == [];
      }
    }
  }

  /** A send hands to a live receiver only when nothing is ahead of it: no buffered value, and
      every live sender is a waiter of that same select, buried by the claim. */
  lemma SendMeetsReceiver(c: Chan, claimed: set<nat>, rx: Waiter)
    requires Matched(c, claimed) && rx in c.receivers && !Dead(rx, claimed)
    ensures c.ring == [] && Live(c.senders, Claim(rx, claimed)) == []
  {
    AllDead(c.senders, Claim(rx, claimed));
  }

  lemma RecvMeetsSender(c: Chan, claimed: set<nat>, tx: Waiter)
    requires Matched(c, claimed) && tx in c.senders && !Dead(tx, claimed)
    ensures Live(c.receivers, Claim(tx, claimed)) == []
  {
    AllDead(c.receivers, Claim(tx, claimed));
  }

  /** Naming what a step did to each side is enough. */
  lemma Sends(s': State, lost: set<Item>, through: seq<Item>, q: seq<Waiter>)
    requires InOrder(s'.came, lost, through, q, s'.claimed)
    requires s'.lost == lost && Outs(s'.out) + s'.c.ring == through && s'.c.senders == q
    ensures SendsInOrder(s')
  {
  }

  lemma Receives(s': State, through: seq<Item>, q: seq<Waiter>)
    requires InOrder(s'.rcame, s'.rlost, through, q, s'.claimed)
    requires Tos(s'.out) == through && s'.c.receivers == q
    ensures RecvsInOrder(s')
  {
  }

  lemma HandoffOrdersSends(s: State, item: Item, mode: Mode)
    requires Inv(s) && item.id !in s.used && Send(s.c, s.claimed, item, mode).2.SentTo?
    ensures SendsInOrder(Step(s, DoSend(item, mode)))
  {
    var (c, cl, out) := Send(s.c, s.claimed, item, mode);
    var s', through := Step(s, DoSend(item, mode)), Outs(s.out) + s.c.ring;
    PopTakesFirst(s.c.receivers, s.claimed);
    SendMeetsReceiver(s.c, s.claimed, out.rx);
    var lost := s.lost + Buried(s.c.senders, s.claimed, cl);
    NewItem(s, item);
    TakeOrders(s.came, s.lost, through, s.c.senders, s.claimed, cl, item);
    OneMoreDelivery(s.out, out.rx.item, item);
    assert s'.c.ring == [] && through == Outs(s.out);
    assert Outs(s'.out) + s'.c.ring == through + [item];
    Sends(s', lost, through + [item], s.c.senders);
  }

  lemma BufferOrdersSends(s: State, item: Item, mode: Mode)
    requires Inv(s) && item.id !in s.used && Send(s.c, s.claimed, item, mode).2.SentToRing?
    ensures SendsInOrder(Step(s, DoSend(item, mode)))
  {
    var s', through := Step(s, DoSend(item, mode)), Outs(s.out) + s.c.ring;
    AllDead(s.c.senders, s.claimed);
    PassThrough(s.came, s.lost, through, s.c.senders, s.claimed, item);
    Regroup(Outs(s.out), s.c.ring, [item]);
    assert s'.c.ring == s.c.ring + [item] && s'.out == s.out;
    Sends(s', s.lost, through + [item], s.c.senders);
  }

  lemma NewItem(s: State, item: Item)
    requires Known(s) && item.id !in s.used
    ensures item !in s.came && item !in s.lost && item !in s.rcame && item !in s.rlost
  {
  }

  /** What a send that neither hands over nor buffers does to the senders' side. */
  lemma SendWaits(s: State, item: Item, mode: Mode)
    requires item.id !in s.used
    requires var out := Send(s.c, s.claimed, item, mode).2; !out.SentTo? && !out.SentToRing?
    ensures var s' := Step(s, DoSend(item, mode));
            && s'.lost == s.lost && s'.out == s.out && s'.c.ring == s.c.ring && s'.claimed == s.claimed
            && if Send(s.c, s.claimed, item, mode).2.SenderParked?
               then s'.came == s.came + [item] && s'.c.senders == s.c.senders + [Waiter(item, None)]
               else s'.came == s.came && s'.c.senders == s.c.senders
  {
  }

  lemma WaitOrdersSends(s: State, item: Item, mode: Mode)
    requires SendsInOrder(s) && item.id !in s.used && item !in s.came && item !in s.lost
    requires var out := Send(s.c, s.claimed, item, mode).2; !out.SentTo? && !out.SentToRing?
    ensures SendsInOrder(Step(s, DoSend(item, mode)))
  {
    SendWaits(s, item, mode);
    if Send(s.c, s.claimed, item, mode).2.SenderParked? {
      Enqueue(s.came, s.lost, Outs(s.out) + s.c.ring, s.c.senders, s.claimed, Waiter(item, None));
    }
  }

  lemma SendOrdersSends(s: State, item: Item, mode: Mode)
    requires Inv(s) && item.id !in s.used
    ensures SendsInOrder(Step(s, DoSend(item, mode)))
  {
    var out := Send(s.c, s.claimed, item, mode).2;
    NewItem(s, item);
    if out.SentTo? {
      HandoffOrdersSends(s, item, mode);
    } else if out.SentToRing? {
      BufferOrdersSends(s, item, mode);
    } else {
      WaitOrdersSends(s, item, mode);
    }
  }

  lemma SendOrdersRecvs(s: State, item: Item, mode: Mode)
    requires Inv(s) && item.id !in s.used
    ensures RecvsInOrder(Step(s, DoSend(item, mode)))
  {
    var (c, cl, out) := Send(s.c, s.claimed, item, mode);
    var s' := Step(s, DoSend(item, mode));
    if out.SentTo? {
      OneMoreDelivery(s.out, out.rx.item, item);
      ServeFirst(s.rcame, s.rlost, Tos(s.out), s.c.receivers, s.claimed);
      assert s'.c.receivers == PopClaimable(s.c.receivers, s.claimed).1 && s'.claimed == cl;
      assert Tos(s'.out) == Tos(s.out) + [out.rx.item];
    } else {
      PopTakesFirst(s.c.receivers, s.claimed);
      assert Live(s'.c.receivers, s.claimed) == Live(s.c.receivers, s.claimed);
      assert s'.rlost == s.rlost && s'.out == s.out && s'.rcame == s.rcame;
    }
  }

  lemma RingOrdersSends(s: State, item: Item, mode: Mode)
    requires Inv(s) && item.id !in s.used && Recv(s.c, s.claimed, item, mode).2.Got?
    ensures SendsInOrder(Step(s, DoRecv(item, mode)))
  {
    var (c, cl, out) := Recv(s.c, s.claimed, item, mode);
    var s', first, later := Step(s, DoRecv(item, mode)), [s.c.ring[0]], s.c.ring[1..];
    assert s.c.ring == first + later;
    Regroup(Outs(s.out), first, later);
    OneMoreDelivery(s.out, item, s.c.ring[0]);
    assert s'.out == s.out + [Delivery(item, s.c.ring[0])];
    if out.refill.Some? {
      var tx := out.refill.value.item;
      ServeFirst(s.came, s.lost, Outs(s.out) + s.c.ring, s.c.senders, s.claimed);
      Regroup(Outs(s.out) + first, later, [tx]);
      assert s'.c.ring == later + [tx];
      Sends(s', s.lost + Buried(c.senders, s.claimed, cl), Outs(s.out) + s.c.ring + [tx], c.senders);
    } else {
      PopTakesFirst(s.c.senders, s.claimed);
      assert s'.c.ring == later;
      Sends(s', s.lost, Outs(s.out) + s.c.ring, []);
    }
  }

  lemma MeetOrdersSends(s: State, item: Item, mode: Mode)
    requires Inv(s) && item.id !in s.used && Recv(s.c, s.claimed, item, mode).2.GotFrom?
    ensures SendsInOrder(Step(s, DoRecv(item, mode)))
  {
    var (c, cl, out) := Recv(s.c, s.claimed, item, mode);
    var s', through := Step(s, DoRecv(item, mode)), Outs(s.out) + s.c.ring;
    ServeFirst(s.came, s.lost, through, s.c.senders, s.claimed);
    OneMoreDelivery(s.out, item, out.tx.item);
    assert s.c.ring == [] && s'.c.ring == [] && through == Outs(s.out);
    Sends(s', s.lost + Buried(c.senders, s.claimed, cl), through + [out.tx.item], c.senders);
  }

  lemma RecvOrdersSends(s: State, item: Item, mode: Mode)
    requires Inv(s) && item.id !in s.used
    ensures SendsInOrder(Step(s, DoRecv(item, mode)))
  {
    var (c, cl, out) := Recv(s.c, s.claimed, item, mode);
    var s', through := Step(s, DoRecv(item, mode)), Outs(s.out) + s.c.ring;
    if out.Got? {
      RingOrdersSends(s, item, mode);
    } else if out.GotFrom? {
      MeetOrdersSends(s, item, mode);
    } else {
      PopTakesFirst(s.c.senders, s.claimed);
      assert s'.lost == s.lost && s'.out == s.out && s'.c.ring == s.c.ring;
      Sends(s', s.lost, through, []);
    }
  }

  /** What a successful receive found: nobody live was waiting to receive before it. */
  lemma RecvFindsNoRival(s: State, item: Item, mode: Mode)
    requires Inv(s)
    ensures var (c, cl, out) := Recv(s.c, s.claimed, item, mode);
            (out.Got? || out.GotFrom?) ==> Live(s.c.receivers, cl) == [] && s.claimed <= cl
  {
    var (c, cl, out) := Recv(s.c, s.claimed, item, mode);
    PopTakesFirst(s.c.senders, s.claimed);
    if out.Got? {
      AllDead(s.c.receivers, cl);
    } else if out.GotFrom? {
      RecvMeetsSender(s.c, s.claimed, out.tx);
    }
  }

  /** What a receive that gets a value does to the receivers' side. */
  lemma RecvSucceeds(s: State, item: Item, mode: Mode)
    requires item.id !in s.used
    requires var out := Recv(s.c, s.claimed, item, mode).2; out.Got? || out.GotFrom?
    ensures var s' := Step(s, DoRecv(item, mode));
            var cl := Recv(s.c, s.claimed, item, mode).1;
            && s'.rcame == s.rcame + [item] && s'.rlost == s.rlost + Buried(s.c.receivers, s.claimed, cl)
            && s'.claimed == cl && s'.c.receivers == s.c.receivers && Tos(s'.out) == Tos(s.out) + [item]
  {
    var out := Recv(s.c, s.claimed, item, mode).2;
    OneMoreDelivery(s.out, item, if out.Got? then out.item else out.tx.item);
  }

  lemma SuccessOrdersRecvs(s: State, item: Item, mode: Mode)
    requires Inv(s) && item.id !in s.used
    requires var out := Recv(s.c, s.claimed, item, mode).2; out.Got? || out.GotFrom?
    ensures RecvsInOrder(Step(s, DoRecv(item, mode)))
  {
    RecvFindsNoRival(s, item, mode);
    NewItem(s, item);
    TakeOrders(s.rcame, s.rlost, Tos(s.out), s.c.receivers, s.claimed, Recv(s.c, s.claimed, item, mode).1, item);
    RecvSucceeds(s, item, mode);
  }

  lemma WaitOrdersRecvs(s: State, item: Item, mode: Mode)
    requires RecvsInOrder(s) && item.id !in s.used && item !in s.rcame && item !in s.rlost
    requires var out := Recv(s.c, s.claimed, item, mode).2; !out.Got? && !out.GotFrom?
    ensures RecvsInOrder(Step(s, DoRecv(item, mode)))
  {
    var s', w := Step(s, DoRecv(item, mode)), Waiter(item, None);
    assert s'.rlost == s.rlost && s'.out == s.out && s'.claimed == s.claimed;
    if Recv(s.c, s.claimed, item, mode).2.ReceiverParked? {
      Enqueue(s.rcame, s.rlost, Tos(s.out), s.c.receivers, s.claimed, w);
      assert s'.rcame == s.rcame + [item] && s'.c.receivers == s.c.receivers + [w];
      Receives(s', Tos(s.out), s.c.receivers + [w]);
    } else {
      assert s'.rcame == s.rcame && s'.c.receivers == s.c.receivers;
      Receives(s', Tos(s.out), s.c.receivers);
    }
  }

  lemma RecvOrdersRecvs(s: State, item: Item, mode: Mode)
    requires Inv(s) && item.id !in s.used
    ensures RecvsInOrder(Step(s, DoRecv(item, mode)))
  {
    var out := Recv(s.c, s.claimed, item, mode).2;
    if out.Got? || out.GotFrom? {
      SuccessOrdersRecvs(s, item, mode);
    } else {
      NewItem(s, item);
      WaitOrdersRecvs(s, item, mode);
    }
  }

  /** Evicting takes exactly that select's waiter off, and what was live before stays in order. */
  lemma {:induction false} EvictedMembers(q: seq<Waiter>, id: nat)
    ensures forall w :: w in Evicted(q, id) <==> w in q && !(w.item.id == id && w.park.Some?)
    ensures Apart(q) ==> Apart(Evicted(q, id))
    decreases |q|
  {
    if q != [] {
      var n := |q| - 1;
      EvictedMembers(q[..n], id);
      assert q == q[..n] + [q[n]];
      assert Apart(q) ==> Apart(q[..n]) && forall w :: w in q[..n] ==> w.item != q[n].item;
    }
  }

  /** What an eviction takes off a queue. */
  function Taken(q: seq<Waiter>, id: nat): set<Item> { set w | w in q && w.item.id == id && w.park.Some? :: w.item }

  /** A select has one waiter per case. */
  ghost predicate AtMostOne(q: seq<Waiter>, id: nat) {
    forall i, j :: 0 <= i < j < |q| && q[i].item.id == id && q[i].park.Some? ==> q[j].item.id != id || q[j].park.None?
  }

  lemma {:induction false} EvictedNone(q: seq<Waiter>, id: nat)
    requires forall j :: 0 <= j < |q| ==> !(q[j].item.id == id && q[j].park.Some?)
    ensures Evicted(q, id) == q
    decreases |q|
  {
    if q != [] { EvictedNone(q[..|q| - 1], id); }
  }

  lemma {:induction false} EvictedOne(q: seq<Waiter>, id: nat, i: nat)
    requires AtMostOne(q, id) && i < |q| && q[i].item.id == id && q[i].park.Some?
    ensures Evicted(q, id) == q[..i] + q[i + 1..]
    decreases |q|
  {
    var n := |q| - 1;
    if i == n {
      EvictedNone(q[..n], id);
    } else {
      EvictedOne(q[..n], id, i);
    }
  }

  lemma TakenSnoc(q: seq<Waiter>, w: Waiter, id: nat, claimed: set<nat>)
    requires Apart(q + [w])
    ensures w.item in Taken(q + [w], id) <==> w.item.id == id && w.park.Some?
    ensures forall x :: x in Live(q, claimed) ==> (x in Taken(q + [w], id) <==> x in Taken(q, id))
  {
    assert (q + [w])[|q|] == w;
    forall v | v in q ensures v in q + [w] && v.item != w.item {
      var i :| 0 <= i < |q| && q[i] == v;
      assert (q + [w])[i] == v;
    }
    forall x | x in Live(q, claimed) ensures x in Taken(q + [w], id) <==> x in Taken(q, id) {
      LiveMembers(q, claimed, x);
    }
  }

  lemma {:induction false} LiveEvicted(q: seq<Waiter>, id: nat, claimed: set<nat>)
    requires Apart(q)
    ensures Live(Evicted(q, id), claimed) == Without(Live(q, claimed), Taken(q, id))
    decreases |q|
  {
    if q != [] {
      var n := |q| - 1;
      var q0, w, gone := q[..n], q[n], Taken(q, id);
      LiveEvicted(q0, id, claimed);
      assert q == q0 + [w];
      TakenSnoc(q0, w, id, claimed);
      WithoutAgree(Live(q0, claimed), gone, Taken(q0, id));
      WithoutSnoc(Live(q0, claimed), w.item, gone);
      LiveSnoc(Evicted(q0, id), w, claimed);
    }
  }

  lemma QueuedIsNotThrough(came: seq<Item>, lost: set<Item>, through: seq<Item>, q: seq<Waiter>, claimed: set<nat>)
    requires InOrder(came, lost, through, q, claimed)
    ensures forall w :: w in q ==> w.item !in through
  {
    WithoutDistinct(came, lost);
    Served(Without(came, lost), through, Live(q, claimed), 0);
    forall w | w in q ensures w.item !in through { LiveMembers(q, claimed, w.item); }
  }

  lemma EvictOrders(came: seq<Item>, lost: set<Item>, through: seq<Item>, q: seq<Waiter>, claimed: set<nat>, id: nat)
    requires InOrder(came, lost, through, q, claimed)
    ensures InOrder(came, lost + Taken(q, id), through, Evicted(q, id), claimed)
  {
    var gone := Taken(q, id);
    WithoutTwice(came, lost, gone);
    WithoutConcat(through, Live(q, claimed), gone);
    LiveEvicted(q, id, claimed);
    EvictedMembers(q, id);
    QueuedIsNotThrough(came, lost, through, q, claimed);
    WithoutNone(through, gone);
  }

  lemma CloseOrders(came: seq<Item>, lost: set<Item>, through: seq<Item>, q: seq<Waiter>, claimed: set<nat>)
    requires InOrder(came, lost, through, q, claimed)
    ensures InOrder(came, lost + Items(q), through, [], claimed)
  {
    WithoutTwice(came, lost, Items(q));
    WithoutConcat(through, Live(q, claimed), Items(q));
    forall x | x in Live(q, claimed) ensures x in Items(q) { LiveMembers(q, claimed, x); }
    QueuedIsNotThrough(came, lost, through, q, claimed);
    WithoutNone(through, Items(q));
    WithoutAll(Live(q, claimed), Items(q));
  }

  /** Only items that arrived are buried. */
  lemma BuriedKnown(q: seq<Waiter>, claimed: set<nat>, claimed': set<nat>, used: set<nat>)
    requires forall w :: w in q ==> w.item.id in used
    ensures forall x :: x in Buried(q, claimed, claimed') ==> x.id in used
  {
  }

  ghost predicate QueuesIn(c: Chan, used: set<nat>) {
    && (forall w :: w in c.senders ==> w.item.id in used)
    && (forall w :: w in c.receivers ==> w.item.id in used)
  }

  lemma QueuesKnown(s: State)
    requires Inv(s)
    ensures QueuesIn(s.c, s.used)
  {
  }

  lemma SendKnown(s: State, item: Item, mode: Mode)
    requires Known(s) && QueuesIn(s.c, s.used) && item.id !in s.used
    ensures Known(Step(s, DoSend(item, mode)))
  {
    var (c, cl, out) := Send(s.c, s.claimed, item, mode);
    if out.SentTo? {
      PopTakesFirst(s.c.receivers, s.claimed);
      BuriedKnown(s.c.senders, s.claimed, cl, s.used);
      BuriedKnown(c.receivers, s.claimed, cl, s.used);
    }
  }

  lemma RecvKnown(s: State, item: Item, mode: Mode)
    requires Known(s) && QueuesIn(s.c, s.used) && item.id !in s.used
    ensures Known(Step(s, DoRecv(item, mode)))
  {
    var (c, cl, out) := Recv(s.c, s.claimed, item, mode);
    if out.Got? || out.GotFrom? {
      PopTakesFirst(s.c.senders, s.claimed);
      BuriedKnown(c.senders, s.claimed, cl, s.used);
      BuriedKnown(s.c.receivers, s.claimed, cl, s.used);
    }
  }

  lemma SendKeeps(s: State, item: Item, mode: Mode)
    requires Inv(s) && item.id !in s.used
    ensures Inv(Step(s, DoSend(item, mode)))
  {
    QueuesKnown(s);
    SendKnown(s, item, mode);
    var s' := Step(s, DoSend(item, mode));
    assert s'.c == Send(s.c, s.claimed, item, mode).0 && s'.claimed == Send(s.c, s.claimed, item, mode).1;
    SendMatched(s.c, s.claimed, item, mode);
    SendOrdersSends(s, item, mode);
    SendOrdersRecvs(s, item, mode);
  }

  lemma RecvKeeps(s: State, item: Item, mode: Mode)
    requires Inv(s) && item.id !in s.used
    ensures Inv(Step(s, DoRecv(item, mode)))
  {
    QueuesKnown(s);
    RecvKnown(s, item, mode);
    var s' := Step(s, DoRecv(item, mode));
    assert s'.c == Recv(s.c, s.claimed, item, mode).0 && s'.claimed == Recv(s.c, s.claimed, item, mode).1;
    RecvMatched(s.c, s.claimed, item, mode);
    RecvOrdersSends(s, item, mode);
    RecvOrdersRecvs(s, item, mode);
  }

  lemma CloseKeeps(s: State)
    requires Inv(s)
    ensures Inv(Step(s, DoClose))
  {
    if !s.c.closed {
      CloseOrders(s.came, s.lost, Outs(s.out) + s.c.ring, s.c.senders, s.claimed);
      CloseOrders(s.rcame, s.rlost, Tos(s.out), s.c.receivers, s.claimed);
    }
  }

  lemma InstallSendMatched(c: Chan, claimed: set<nat>, item: Item, park: nat)
    requires Matched(c, claimed)
    ensures Matched(InstallSend(c, item, park).0, claimed)
  {
    if InstallSend(c, item, park).1 {
      assert forall v :: v in c.receivers ==> v.park == Some(park);
    }
  }

  lemma InstallRecvMatched(c: Chan, claimed: set<nat>, item: Item, park: nat)
    requires Matched(c, claimed)
    ensures Matched(InstallRecv(c, item, park).0, claimed)
  {
    if InstallRecv(c, item, park).1 {
      assert forall v :: v in c.senders ==> v.park == Some(park);
    }
  }

  lemma InstallSendKeeps(s: State, item: Item, park: nat)
    requires Inv(s) && item.id !in s.used
    ensures Inv(Step(s, DoInstallSend(item, park)))
  {
    InstallSendMatched(s.c, s.claimed, item, park);
    Install(s.came, s.lost, Outs(s.out) + s.c.ring, s.c.senders, s.claimed, Waiter(item, Some(park)));
  }

  lemma InstallRecvKeeps(s: State, item: Item, park: nat)
    requires Inv(s) && item.id !in s.used
    ensures Inv(Step(s, DoInstallRecv(item, park)))
  {
    InstallRecvMatched(s.c, s.claimed, item, park);
    Install(s.rcame, s.rlost, Tos(s.out), s.c.receivers, s.claimed, Waiter(item, Some(park)));
  }

  lemma EvictKeeps(s: State, id: nat)
    requires Inv(s)
    ensures Inv(Step(s, DoEvict(id)))
  {
    EvictedMembers(s.c.senders, id);
    EvictedMembers(s.c.receivers, id);
    EvictOrders(s.came, s.lost, Outs(s.out) + s.c.ring, s.c.senders, s.claimed, id);
    EvictOrders(s.rcame, s.rlost, Tos(s.out), s.c.receivers, s.claimed, id);
  }

  lemma ClaimKeeps(s: State, park: nat)
    requires Inv(s)
    ensures Inv(Step(s, ClaimedElsewhere(park)))
  {
    Burial(s.came, s.lost, Outs(s.out) + s.c.ring, s.c.senders, s.claimed, s.claimed + {park});
    Burial(s.rcame, s.rlost, Tos(s.out), s.c.receivers, s.claimed, s.claimed + {park});
  }

  lemma StepKeeps(s: State, a: Action)
    requires Inv(s)
    ensures Inv(Step(s, a))
  {
    match a
    case DoSend(item, mode) => if item.id !in s.used { SendKeeps(s, item, mode); }
    case DoRecv(item, mode) => if item.id !in s.used { RecvKeeps(s, item, mode); }
    case DoClose => CloseKeeps(s);
    case DoInstallSend(item, park) => if item.id !in s.used { InstallSendKeeps(s, item, park); }
    case DoInstallRecv(item, park) => if item.id !in s.used { InstallRecvKeeps(s, item, park); }
    case DoEvict(id) => EvictKeeps(s, id);
    case ClaimedElsewhere(park) => ClaimKeeps(s, park);
  }

  lemma {:induction false} Reachable(cap: nat, run: seq<Action>)
    ensures Inv(Exec(Init(cap), run))
    decreases |run|
  {
    if run != [] {
      Reachable(cap, run[..|run| - 1]);
      StepKeeps(Exec(Init(cap), run[..|run| - 1]), run[|run| - 1]);
    }
  }

  // ---- the theorems ------------------------------------------------------------------------------------

  /** The channel is a FIFO on both sides, in every run with any mix of blocking and non-blocking
      operations, closes and selects: the values delivered, then the buffered ones, then those of
      the live parked senders spell the sends that were not lost, in arrival order; those served
      and then the live parked receivers spell the receives that were not lost, in arrival order. */
  lemma FifoBothWays(cap: nat, run: seq<Action>)
    ensures var s := Exec(Init(cap), run);
            && Without(s.came, s.lost) == Outs(s.out) + s.c.ring + Live(s.c.senders, s.claimed)
            && Without(s.rcame, s.rlost) == Tos(s.out) + Live(s.c.receivers, s.claimed)
            && Distinct(s.came) && Distinct(s.rcame)
  {
    Reachable(cap, run);
  }

  /** So the n-th send that is not lost goes to the n-th receive that is not lost. */
  lemma NthToNth(cap: nat, run: seq<Action>, n: nat)
    ensures var s := Exec(Init(cap), run);
            n < |s.out| ==>
              && n < |Without(s.came, s.lost)| && s.out[n].item == Without(s.came, s.lost)[n]
              && n < |Without(s.rcame, s.rlost)| && s.out[n].to == Without(s.rcame, s.rlost)[n]
  {
    FifoBothWays(cap, run);
    var s := Exec(Init(cap), run);
    if n < |s.out| {
      assert (Outs(s.out) + s.c.ring + Live(s.c.senders, s.claimed))[n] == Outs(s.out)[n];
    }
  }

  /** Who can be parked: a receiver only on an empty ring, a sender only on a full one, both only
      as waiters of one select, nobody on a closed channel; tombstones do not count. */
  lemma ParkedImplies(cap: nat, run: seq<Action>)
    ensures var s := Exec(Init(cap), run);
            && |s.c.ring| <= s.c.cap
            && (Live(s.c.receivers, s.claimed) != [] ==> s.c.ring == [])
            && (Live(s.c.senders, s.claimed) != [] ==> |s.c.ring| == s.c.cap)
            && (forall w, v :: w in s.c.senders && v in s.c.receivers && !Dead(w, s.claimed) && !Dead(v, s.claimed)
                  ==> w.park.Some? && w.park == v.park)
            && (s.c.closed ==> s.c.senders == [] && s.c.receivers == [])
  {
    Reachable(cap, run);
    var s := Exec(Init(cap), run);
    var rx, tx := Live(s.c.receivers, s.claimed), Live(s.c.senders, s.claimed);
    if rx != [] { LiveMembers(s.c.receivers, s.claimed, rx[0]); }
    if tx != [] { LiveMembers(s.c.senders, s.claimed, tx[0]); }
  }

  // ---- what an operation answers -------------------------------------------------------------------------

  /** What a receive answers, on every channel: it gets a value exactly when one is buffered or a live
      sender is parked, the oldest of them; it answers closed exactly when there is none and the
      channel is closed; otherwise the caller's mode decides. A value taken from the ring makes
      room for the first live sender's. */
  lemma RecvOutcomes(c: Chan, claimed: set<nat>, item: Item, mode: Mode)
    ensures var (c', cl, out) := Recv(c, claimed, item, mode);
            var live := Live(c.senders, claimed);
            && (out.Got? <==> c.ring != [])
            && (out.GotFrom? <==> c.ring == [] && live != [])
            && (out.RecvClosed? <==> c.ring == [] && live == [] && c.closed)
            && (c.ring == [] && live == [] && !c.closed ==>
                  out == match mode case Try => RecvWouldBlock case NoFiber => RecvNoFiber case Block => ReceiverParked)
            && (out.Got? ==>
                  && out.item == c.ring[0] && out.refill.Some? == (live != [])
                  && (live != [] ==> out.refill.value.item == live[0])
                  && c'.ring == c.ring[1..] + if live != [] then [live[0]] else [])
            && (out.GotFrom? ==> out.tx.item == live[0] && c'.ring == [])
            && c'.closed == c.closed
            && c'.receivers == c.receivers + if out.ReceiverParked? then [Waiter(item, None)] else []
  {
    PopTakesFirst(c.senders, claimed);
  }

  /** What a send answers, on every channel: refused exactly when it is closed; handed to the first
      live receiver exactly when there is one; buffered exactly when there is none and there is
      room; otherwise the caller's mode decides. */
  lemma SendOutcomes(c: Chan, claimed: set<nat>, item: Item, mode: Mode)
    ensures var (c', cl, out) := Send(c, claimed, item, mode);
            var live, room := Live(c.receivers, claimed), c.cap > 0 && |c.ring| < c.cap;
            && (out.SendClosed? <==> c.closed)
            && (out.SentTo? <==> !c.closed && live != [])
            && (out.SentToRing? <==> !c.closed && live == [] && room)
            && (!c.closed && live == [] && !room ==>
                  out == match mode case Try => SendWouldBlock case NoFiber => SendNoFiber case Block => SenderParked)
            && (out.SentTo? ==> out.rx.item == live[0])
            && c'.ring == c.ring + (if out.SentToRing? then [item] else [])
            && c'.senders == c.senders + (if out.SenderParked? then [Waiter(item, None)] else [])
            && c'.closed == c.closed
  {
    PopTakesFirst(c.receivers, claimed);
  }

  /** What a close does, on every channel: refused exactly when it is closed already; otherwise nobody
      is left queued, every plain waiter is woken, and so is every select with a live waiter on
      either queue, each exactly once, and nobody else. */
  lemma CloseOutcomes(c: Chan, claimed: set<nat>)
    ensures var (c', cl, out) := Close(c, claimed);
            && (out.None? <==> c.closed)
            && (out.Some? ==>
                  var (tx, rx) := out.value;
                  && c' == c.(closed := true, senders := [], receivers := [])
                  && (forall w :: w in tx ==> w in c.senders && !Dead(w, claimed))
                  && (forall w :: w in rx ==> w in c.receivers && !Dead(w, claimed))
                  && (forall w :: w in c.senders && w.park.None? ==> w in tx)
                  && (forall w :: w in c.receivers && w.park.None? ==> w in rx)
                  && (forall w :: w in c.senders + c.receivers ==> w.park.None? || Dead(w, cl))
                  && (forall p :: p in cl <==> p in claimed || exists w :: w in tx + rx && w.park == Some(p))
                  && (forall i, j :: 0 <= i < j < |tx + rx| && (tx + rx)[i].park.Some? ==>
                        (tx + rx)[i].park != (tx + rx)[j].park))
  {
    if !c.closed {
      CloseWakesLive(c.senders, claimed);
      var (tx, cl) := WakeAll(c.senders, claimed);
      CloseWakesLive(c.receivers, cl);
      WokenOnce(c, claimed);
    }
  }

  /** Between the two queues of one channel: whoever the first drain claimed is dead to the second. */
  lemma WokenOnce(c: Chan, claimed: set<nat>)
    ensures var (tx, cl) := WakeAll(c.senders, claimed);
            var (rx, cl') := WakeAll(c.receivers, cl);
            && cl <= cl'
            && (forall p :: p in cl' <==> p in claimed || exists w :: w in tx + rx && w.park == Some(p))
            && (forall i, j :: 0 <= i < j < |tx + rx| && (tx + rx)[i].park.Some? ==>
                  (tx + rx)[i].park != (tx + rx)[j].park)
  {
    CloseWakesLive(c.senders, claimed);
    var (tx, cl) := WakeAll(c.senders, claimed);
    CloseWakesLive(c.receivers, cl);
    var (rx, cl') := WakeAll(c.receivers, cl);
    var all := tx + rx;
    forall i, j | 0 <= i < j < |all| && all[i].park.Some? ensures all[i].park != all[j].park {
      if i < |tx| <= j {
        assert all[i] in tx && all[i].park.value in cl;
        assert all[j] == rx[j - |tx|] && !Dead(rx[j - |tx|], cl);
      } else if |tx| <= i {
        assert all[i] == rx[i - |tx|] && all[j] == rx[j - |tx|];
      }
    }
    forall p ensures p in cl' <==> p in claimed || exists w :: w in all && w.park == Some(p) {
      if w :| w in tx && w.park == Some(p) { assert w in all; }
      if w :| w in rx && w.park == Some(p) { assert w in all; }
      if w :| w in all && w.park == Some(p) { assert w in tx || w in rx; }
    }
  }

  /** What an install decides: the waiter is queued exactly when the channel is open and the operation
      has nobody to meet but waiters of the same select; so a select parks on a case only if a
      non-blocking attempt by it would block, or would meet itself. */
  lemma InstallOutcomes(c: Chan, claimed: set<nat>, item: Item, park: nat)
    ensures var (c', ok) := InstallSend(c, item, park);
            var out := Send(c, claimed, item, Try).2;
            && (ok ==> out.SendWouldBlock? || (out.SentTo? && out.rx.park == Some(park)))
            && (!ok ==> c' == c && (c.closed || (c.cap > 0 && |c.ring| < c.cap) || HasForeign(c.receivers, park)))
            && (ok ==> c' == c.(senders := c.senders + [Waiter(item, Some(park))]))
    ensures var (c', ok) := InstallRecv(c, item, park);
            var out := Recv(c, claimed, item, Try).2;
            && (ok ==> out.RecvWouldBlock? || (out.GotFrom? && out.tx.park == Some(park)))
            && (!ok ==> c' == c && (c.closed || c.ring != [] || HasForeign(c.senders, park)))
            && (ok ==> c' == c.(receivers := c.receivers + [Waiter(item, Some(park))]))
  {
    PopTakesFirst(c.receivers, claimed);
    PopTakesFirst(c.senders, claimed);
  }

  // ---- what can be lost ------------------------------------------------------------------------------

  /** The items that selects put on this channel. */
  function Selected(run: seq<Action>): set<Item> {
    if run == [] then {}
    else Selected(run[..|run| - 1]) + SelectedBy(run[|run| - 1])
  }

  function SelectedBy(a: Action): set<Item> { if a.DoInstallSend? || a.DoInstallRecv? then {a.item} else {} }

  ghost predicate ByParks(q: seq<Waiter>, sel: set<Item>) { forall w :: w in q && w.park.Some? ==> w.item in sel }

  ghost predicate OnlySelects(s: State, sel: set<Item>) {
    && ByParks(s.c.senders, sel) && ByParks(s.c.receivers, sel)
    && (!s.c.closed ==> s.lost <= sel && s.rlost <= sel)
  }

  lemma SendLosesSelects(s: State, item: Item, mode: Mode, sel: set<Item>)
    requires OnlySelects(s, sel)
    ensures OnlySelects(Step(s, DoSend(item, mode)), sel)
  {
    PopSkipsDead(s.c.receivers, s.claimed);
  }

  lemma RecvLosesSelects(s: State, item: Item, mode: Mode, sel: set<Item>)
    requires OnlySelects(s, sel)
    ensures OnlySelects(Step(s, DoRecv(item, mode)), sel)
  {
    PopSkipsDead(s.c.senders, s.claimed);
  }

  lemma StepLosesSelects(s: State, a: Action, sel: set<Item>)
    requires OnlySelects(s, sel)
    ensures OnlySelects(Step(s, a), sel + SelectedBy(a))
  {
    match a
    case DoSend(item, mode) => SendLosesSelects(s, item, mode, sel);
    case DoRecv(item, mode) => RecvLosesSelects(s, item, mode, sel);
    case DoEvict(id) => EvictedMembers(s.c.senders, id); EvictedMembers(s.c.receivers, id);
    case _ =>
  }

  /** While the channel is open only waiters of selects are ever lost: a plain send or receive that
      queued stays queued until it is served. */
  lemma {:induction false} OpenLosesOnlySelects(cap: nat, run: seq<Action>)
    ensures OnlySelects(Exec(Init(cap), run), Selected(run))
    decreases |run|
  {
    if run != [] {
      OpenLosesOnlySelects(cap, run[..|run| - 1]);
      StepLosesSelects(Exec(Init(cap), run[..|run| - 1]), run[|run| - 1], Selected(run[..|run| - 1]));
    }
  }

  // ---- the object ------------------------------------------------------------------------------------------

  /** The claim words of all selects. */
  class Parks {
    var claimed: set<nat>

    constructor ()
      ensures claimed == {}
    {
      claimed := {};
    }
  }

  class Channel {
    const ring: ChanRing.Ring<Item>
    var senders: seq<Waiter>
    var receivers: seq<Waiter>
    var closed: bool

    ghost predicate Valid()
      reads this, ring, ring.buf
    {
      ring.Valid()
    }

    ghost function View(): Chan
      requires Valid()
      reads this, ring, ring.buf
    {
      Chan(ring.buf.Length, ring.Contents(), senders, receivers, closed)
    }

    constructor (cap: nat)
      ensures Valid() && View() == Init(cap).c && fresh(ring) && fresh(ring.buf)
    {
      ring := new ChanRing.Ring(cap);
      senders, receivers, closed := [], [], false;
    }

    /** Pops tombstones off a queue until a waiter is claimed or the queue is empty. */
    static method PopFrom(q: seq<Waiter>, parks: Parks) returns (w: Option<Waiter>, rest: seq<Waiter>)
      modifies parks
      ensures (w, rest) == PopClaimable(q, old(parks.claimed))
      ensures parks.claimed == if w.Some? then Claim(w.value, old(parks.claimed)) else old(parks.claimed)
    {
      w, rest := None, q;
      while rest != []
        invariant parks.claimed == old(parks.claimed) && w.None?
        invariant PopClaimable(rest, parks.claimed) == PopClaimable(q, parks.claimed)
        decreases |rest|
      {
        var first := rest[0];
        rest := rest[1..];
        if !Dead(first, parks.claimed) {
          w := Some(first);
          parks.claimed := Claim(first, parks.claimed);
          return;
        }
      }
    }

    method SendLocked(item: Item, mode: Mode, parks: Parks) returns (out: SendOut)
      requires Valid()
      modifies this, ring, ring.buf, parks
      ensures Valid() && (View(), parks.claimed, out) == Send(old(View()), old(parks.claimed), item, mode)
    {
      if closed { return SendClosed; }
      var rx;
      rx, receivers := PopFrom(receivers, parks);
      if rx.Some? { return SentTo(rx.value); }
      if ring.buf.Length > 0 && ring.len < ring.buf.Length {
        ring.Push(item);
        return SentToRing;
      }
      match mode
      case Try => out := SendWouldBlock;
      case NoFiber => out := SendNoFiber;
      case Block =>
        senders := senders + [Waiter(item, None)];
        out := SenderParked;
    }

    /** The oldest buffered value comes out; the first parked sender's value takes its place. */
    method TakeLocked(parks: Parks) returns (out: RecvOut)
      requires Valid() && ring.len > 0
      modifies this, ring, ring.buf, parks
      ensures Valid()
      ensures forall item, mode ::
                (View(), parks.claimed, out) == Recv(old(View()), old(parks.claimed), item, mode)
    {
      var result := ring.Pop();
      assert ring.Contents() == old(ring.Contents())[1..];
      var tx;
      tx, senders := PopFrom(senders, parks);
      if tx.Some? { ring.Push(tx.value.item); }
      assert ring.Contents() == old(ring.Contents())[1..] + if tx.Some? then [tx.value.item] else [];
      out := Got(result, tx);
    }

    method RecvLocked(item: Item, mode: Mode, parks: Parks) returns (out: RecvOut)
      requires Valid()
      modifies this, ring, ring.buf, parks
      ensures Valid() && (View(), parks.claimed, out) == Recv(old(View()), old(parks.claimed), item, mode)
    {
      if ring.len > 0 {
        out := TakeLocked(parks);
        return;
      }
      var tx;
      tx, senders := PopFrom(senders, parks);
      if tx.Some? { return GotFrom(tx.value); }
      if closed { return RecvClosed; }
      match mode
      case Try => out := RecvWouldBlock;
      case NoFiber => out := RecvNoFiber;
      case Block =>
        receivers := receivers + [Waiter(item, None)];
        out := ReceiverParked;
    }

    /** Claims and wakes every live waiter of a queue. */
    static method Drain(q: seq<Waiter>, parks: Parks) returns (woken: seq<Waiter>)
      modifies parks
      ensures (woken, parks.claimed) == WakeAll(q, old(parks.claimed))
    {
      woken := [];
      var rest := q;
      assert woken + WakeAll(q, parks.claimed).0 == WakeAll(q, parks.claimed).0;
      while true
        invariant var (ws, cl) := WakeAll(rest, parks.claimed);
                  (woken + ws, cl) == WakeAll(q, old(parks.claimed))
        decreases |rest|
      {
        var w;
        w, rest := PopFrom(rest, parks);
        if w.None? {
          assert woken + [] == woken;
          return;
        }
        var tail := WakeAll(rest, parks.claimed);
        assert woken + ([w.value] + tail.0) == woken + [w.value] + tail.0;
        woken := woken + [w.value];
      }
    }

    method CloseLocked(parks: Parks) returns (out: Option<(seq<Waiter>, seq<Waiter>)>)
      requires Valid()
      modifies this, parks
      ensures Valid() && (View(), parks.claimed, out) == Close(old(View()), old(parks.claimed))
    {
      if closed { return None; }
      closed := true;
      var tx := Drain(senders, parks);
      senders := [];
      var rx := Drain(receivers, parks);
      receivers := [];
      out := Some((tx, rx));
    }

    method InstallSendLocked(item: Item, park: nat) returns (ok: bool)
      requires Valid()
      modifies this
      ensures Valid() && (View(), ok) == InstallSend(old(View()), item, park)
    {
      ok := !(closed || (ring.buf.Length > 0 && ring.len < ring.buf.Length) || HasForeign(receivers, park));
      if ok { senders := senders + [Waiter(item, Some(park))]; }
    }

    method InstallRecvLocked(item: Item, park: nat) returns (ok: bool)
      requires Valid()
      modifies this
      ensures Valid() && (View(), ok) == InstallRecv(old(View()), item, park)
    {
      ok := !(closed || ring.len > 0 || HasForeign(senders, park));
      if ok { receivers := receivers + [Waiter(item, Some(park))]; }
    }

    /** Takes a select's waiter out of a queue, wherever it stands. */
    static method Unlink(q: seq<Waiter>, id: nat) returns (rest: seq<Waiter>)
      requires AtMostOne(q, id)
      ensures rest == Evicted(q, id)
    {
      var i := 0;
      while i < |q| && !(q[i].item.id == id && q[i].park.Some?)
        invariant 0 <= i <= |q|
        invariant forall j :: 0 <= j < i ==> !(q[j].item.id == id && q[j].park.Some?)
      {
        i := i + 1;
      }
      if i == |q| {
        EvictedNone(q, id);
        return q;
      }
      EvictedOne(q, id, i);
      rest := q[..i] + q[i + 1..];
    }

    method EvictLocked(id: nat)
      requires Valid() && AtMostOne(senders, id) && AtMostOne(receivers, id)
      modifies this
      ensures Valid() && View() == Evict(old(View()), id)
    {
      senders := Unlink(senders, id);
      receivers := Unlink(receivers, id);
    }
  }
}
