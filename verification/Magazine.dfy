/**
 The stack magazine: a cache per thread and a shared depot under a lock. Cache operations are
 private to their thread; depot operations are atomic. What a thread has cut off its cache
 for a flush, or mapped for a prewarm, is in transit until it gets the depot lock.
 */
module Magazine {
  import opened Options
  import opened Seqs

  const TLS_CAP := 64
  const TLS_KEEP := 32
  const REFILL_BATCH := 32

  /** A mapped stack: its lowest usable address and its usable size. */
  datatype Stk = Stk(addr: nat, size: nat)

  // ---- the operations on the two lists, heads first --------------------------------------------

  /** How many entries at the head have another size; they are unmapped. */
  function Mismatched(cache: seq<Stk>, size: nat): (k: nat)
    ensures k <= |cache| && (k < |cache| ==> cache[k].size == size)
    ensures forall i :: 0 <= i < k ==> cache[i].size != size
  {
    if cache == [] || cache[0].size == size then 0 else 1 + Mismatched(cache[1..], size)
  }

  /** Pop: the stack, what is left of the cache, and what was unmapped on the way. */
  function PopLocal(cache: seq<Stk>, size: nat): (Option<Stk>, seq<Stk>, seq<Stk>) {
    var k := Mismatched(cache, size);
    if k < |cache| then (Some(cache[k]), cache[k + 1..], cache[..k]) else (None, [], cache)
  }

  /** Refill: up to `room` matching stacks move from the depot to the cache, others are unmapped. */
  function Refill(cache: seq<Stk>, depot: seq<Stk>, size: nat, room: nat): (seq<Stk>, seq<Stk>, seq<Stk>)
    decreases depot
  {
    if room == 0 || depot == [] then (cache, depot, [])
    else if depot[0].size != size then
      var (c, d, gone) := Refill(cache, depot[1..], size, room);
      (c, d, [depot[0]] + gone)
    else Refill([depot[0]] + cache, depot[1..], size, room - 1)
  }

  /** Flush: entries move to the depot while it is below its cap, the rest are unmapped. */
  function Flush(depot: seq<Stk>, moved: seq<Stk>, cap: nat): (r: (seq<Stk>, seq<Stk>))
    ensures |r.0| <= if |depot| < cap then cap else |depot|
    decreases moved
  {
    if moved == [] then (depot, [])
    else if |depot| < cap then Flush([moved[0]] + depot, moved[1..], cap)
    else
      var (d, gone) := Flush(depot, moved[1..], cap);
      (d, [moved[0]] + gone)
  }

  // ---- conservation of the operations ---------------------------------------------------------------

  lemma PopLocalConserves(cache: seq<Stk>, size: nat)
    ensures var (got, rest, gone) := PopLocal(cache, size);
            && multiset(cache) ==
               multiset(rest) + multiset(gone) + (if got.Some? then multiset{got.value} else multiset{})
            && (got.Some? ==> got.value.size == size)
  {
    var k := Mismatched(cache, size);
    if k < |cache| {
      assert cache == cache[..k] + [cache[k]] + cache[k + 1..];
    }
  }

  lemma Carry(x: Stk, a: multiset<Stk>, b: multiset<Stk>, c: multiset<Stk>, d: multiset<Stk>)
    requires a + b == c + d
    ensures a + (multiset{x} + b) == c + (multiset{x} + d)
  {
    assert a + (multiset{x} + b) == multiset{x} + (a + b);
    assert c + (multiset{x} + d) == multiset{x} + (c + d);
  }

  lemma {:induction false} RefillConserves(cache: seq<Stk>, depot: seq<Stk>, size: nat, room: nat)
    ensures var (c, d, gone) := Refill(cache, depot, size, room);
            && multiset(cache) + multiset(depot) == multiset(c) + multiset(d) + multiset(gone)
            && |c| <= |cache| + room && |d| <= |depot|
            && (forall x :: x in cache ==> x in c)
            && (forall x :: x in d ==> x in depot)
    decreases depot
  {
    if room > 0 && depot != [] {
      assert multiset(depot) == multiset{depot[0]} + multiset(depot[1..]) by {
        assert depot == [depot[0]] + depot[1..];
      }
      if depot[0].size != size {
        RefillConserves(cache, depot[1..], size, room);
        var (c, d, gone) := Refill(cache, depot[1..], size, room);
        assert Refill(cache, depot, size, room) == (c, d, [depot[0]] + gone);
        Carry(depot[0], multiset(cache), multiset(depot[1..]), multiset(c) + multiset(d), multiset(gone));
        assert multiset([depot[0]] + gone) == multiset{depot[0]} + multiset(gone);
      } else {
        RefillConserves([depot[0]] + cache, depot[1..], size, room - 1);
      }
    }
  }

  lemma {:induction false} FlushConserves(depot: seq<Stk>, moved: seq<Stk>, cap: nat)
    ensures var (d, gone) := Flush(depot, moved, cap);
            && multiset(depot) + multiset(moved) == multiset(d) + multiset(gone)
            && (forall x :: x in depot ==> x in d)
    decreases moved
  {
    if moved != [] {
      assert multiset(moved) == multiset{moved[0]} + multiset(moved[1..]) by {
        assert moved == [moved[0]] + moved[1..];
      }
      if |depot| < cap {
        FlushConserves([moved[0]] + depot, moved[1..], cap);
      } else {
        FlushConserves(depot, moved[1..], cap);
        var (d, gone) := Flush(depot, moved[1..], cap);
        assert Flush(depot, moved, cap) == (d, [moved[0]] + gone);
        Carry(moved[0], multiset(depot), multiset(moved[1..]), multiset(d), multiset(gone));
        assert multiset([moved[0]] + gone) == multiset{moved[0]} + multiset(gone);
      }
    }
  }

  // ---- what the operations use and what they give up -----------------------------------------------

  function OfSize(s: seq<Stk>, size: nat): (r: seq<Stk>)
    ensures forall x :: x in r <==> x in s && x.size == size
  {
    if s == [] then [] else (if s[0].size == size then [s[0]] else []) + OfSize(s[1..], size)
  }

  function OtherSize(s: seq<Stk>, size: nat): seq<Stk> {
    if s == [] then [] else (if s[0].size != size then [s[0]] else []) + OtherSize(s[1..], size)
  }

  function Reversed(s: seq<Stk>): seq<Stk> { if s == [] then [] else Reversed(s[1..]) + [s[0]] }

  /** A pop takes the first stack of the size asked for, unmaps exactly those before it, and finds
      none exactly when there is none. */
  lemma PopTakesFirstMatch(cache: seq<Stk>, size: nat)
    ensures var (got, rest, gone) := PopLocal(cache, size);
            && (got.Some? <==> exists x :: x in cache && x.size == size)
            && cache == gone + (if got.Some? then [got.value] else []) + rest
            && (got.Some? ==> got.value.size == size)
            && (forall x :: x in gone ==> x.size != size)
  {
    var k := Mismatched(cache, size);
    if k < |cache| {
      assert cache == cache[..k] + [cache[k]] + cache[k + 1..];
      assert cache[k] in cache;
    }
  }

  /** A refill goes through the depot from its head until it has found `room` matches or is at the
      end; it moves all matches it passes and unmaps all others. `k` is how far it goes. */
  lemma {:induction false} RefillTakesMatches(cache: seq<Stk>, depot: seq<Stk>, size: nat, room: nat)
    returns (k: nat)
    ensures k <= |depot|
    ensures Refill(cache, depot, size, room) ==
              (Reversed(OfSize(depot[..k], size)) + cache, depot[k..], OtherSize(depot[..k], size))
    ensures |OfSize(depot[..k], size)| <= room
    ensures |OfSize(depot[..k], size)| == room || k == |depot|
    decreases depot
  {
    if room == 0 || depot == [] {
      k := 0;
      assert [] + cache == cache;
    } else {
      var x, rest := depot[0], depot[1..];
      var j: nat;
      if x.size != size {
        j := RefillTakesMatches(cache, rest, size, room);
      } else {
        j := RefillTakesMatches([x] + cache, rest, size, room - 1);
        Regrouped(Reversed(OfSize(rest[..j], size)), x, cache);
      }
      k := j + 1;
      assert depot[..k][1..] == rest[..j] && depot[k..] == rest[j..];
      OneMoreFront(depot[..k], size);
    }
  }

  lemma Regrouped(a: seq<Stk>, x: Stk, b: seq<Stk>)
    ensures a + ([x] + b) == a + [x] + b
  {
  }

  lemma OneMoreFront(s: seq<Stk>, size: nat)
    requires s != []
    ensures s[0].size == size ==>
              OfSize(s, size) == [s[0]] + OfSize(s[1..], size) && OtherSize(s, size) == OtherSize(s[1..], size)
              && Reversed(OfSize(s, size)) == Reversed(OfSize(s[1..], size)) + [s[0]]
    ensures s[0].size != size ==>
              OfSize(s, size) == OfSize(s[1..], size) && OtherSize(s, size) == [s[0]] + OtherSize(s[1..], size)
  {
    if s[0].size == size { assert ([s[0]] + OfSize(s[1..], size))[1..] == OfSize(s[1..], size); }
  }

  /** A flush fills the depot up to its cap, and unmaps exactly what is over. */
  lemma {:induction false} FlushFillsToCap(depot: seq<Stk>, moved: seq<Stk>, cap: nat)
    ensures var room := if |depot| < cap then cap - |depot| else 0;
            var k := if |moved| < room then |moved| else room;
            Flush(depot, moved, cap) == (Reversed(moved[..k]) + depot, moved[k..])
    decreases moved
  {
    if moved == [] {
      assert [] + depot == depot;
    } else if |depot| < cap {
      var rest := moved[1..];
      FlushFillsToCap([moved[0]] + depot, rest, cap);
      var room := cap - |depot|;
      var k := if |moved| < room then |moved| else room;
      assert moved[..k][1..] == rest[..k - 1] && moved[k..] == rest[k - 1..];
      Regrouped(Reversed(rest[..k - 1]), moved[0], depot);
    } else {
      FlushFillsToCap(depot, moved[1..], cap);
      assert [moved[0]] + moved[1..] == moved;
      assert [] + depot == depot;
    }
  }

  /** No stack is in a list twice exactly when its count never exceeds one. */
  lemma {:induction false} Counted(s: seq<Stk>)
    ensures Distinct(s) <==> forall x :: multiset(s)[x] <= 1
    decreases |s|
  {
    if s != [] {
      var rest := s[1..];
      Counted(rest);
      assert s == [s[0]] + rest;
      assert Distinct(s) <==> Distinct(rest) && s[0] !in rest by {
        if Distinct(rest) && s[0] !in rest {
          forall i, j | 0 <= i < j < |s| ensures s[i] != s[j] {
            assert s[j] == rest[j - 1];
            if i > 0 { assert s[i] == rest[i - 1]; }
          }
        }
      }
      if s[0] in rest { assert multiset(s)[s[0]] == 1 + multiset(rest)[s[0]]; }
      forall x ensures multiset(rest)[x] <= multiset(s)[x] {}
    }
  }

  ghost predicate Apart(a: seq<Stk>, b: seq<Stk>) { forall x :: x in a ==> x !in b }

  /** Nothing is lost or doubled between cache, depot and the unmapped. */
  lemma RefillSound(cache: seq<Stk>, depot: seq<Stk>, size: nat, room: nat)
    requires Distinct(cache) && Distinct(depot) && Apart(cache, depot)
    ensures var (c, d, gone) := Refill(cache, depot, size, room);
            && Distinct(c) && Distinct(d)
            && (forall x :: x in c <==> x in cache || (x in depot && x !in d && x !in gone))
            && (forall x :: x in d ==> x in depot && x !in gone)
            && (forall x :: x in gone ==> x in depot)
  {
    RefillConserves(cache, depot, size, room);
    var (c, d, gone) := Refill(cache, depot, size, room);
    Counted(cache); Counted(depot); Counted(c); Counted(d);
    forall x
      ensures multiset(c)[x] + multiset(d)[x] + multiset(gone)[x] == multiset(cache)[x] + multiset(depot)[x] <= 1
    {
      assert (multiset(cache) + multiset(depot))[x] == (multiset(c) + multiset(d) + multiset(gone))[x];
      assert !(x in cache && x in depot);
      assert (x in cache <==> multiset(cache)[x] > 0) && (x in depot <==> multiset(depot)[x] > 0);
    }
    assert forall x :: x in c <==> multiset(c)[x] > 0;
    assert forall x :: x in d <==> multiset(d)[x] > 0;
    assert forall x :: x in gone <==> multiset(gone)[x] > 0;
    assert forall x :: x in cache <==> multiset(cache)[x] > 0;
    assert forall x :: x in depot <==> multiset(depot)[x] > 0;
  }

  lemma FlushSound(depot: seq<Stk>, moved: seq<Stk>, cap: nat)
    requires Distinct(depot) && Distinct(moved) && Apart(moved, depot)
    ensures var (d, gone) := Flush(depot, moved, cap);
            && Distinct(d)
            && (forall x :: x in d <==> x in depot || (x in moved && x !in gone))
            && (forall x :: x in gone ==> x in moved)
  {
    FlushConserves(depot, moved, cap);
    var (d, gone) := Flush(depot, moved, cap);
    Counted(depot); Counted(moved); Counted(d);
    forall x
      ensures multiset(d)[x] + multiset(gone)[x] == multiset(depot)[x] + multiset(moved)[x] <= 1
    {
      assert (multiset(depot) + multiset(moved))[x] == (multiset(d) + multiset(gone))[x];
      assert !(x in moved && x in depot);
      assert (x in moved <==> multiset(moved)[x] > 0) && (x in depot <==> multiset(depot)[x] > 0);
    }
    assert forall x :: x in d <==> multiset(d)[x] > 0;
    assert forall x :: x in gone <==> multiset(gone)[x] > 0;
    assert forall x :: x in moved <==> multiset(moved)[x] > 0;
    assert forall x :: x in depot <==> multiset(depot)[x] > 0;
  }

  lemma PopLocalSound(cache: seq<Stk>, size: nat)
    requires Distinct(cache)
    ensures var (got, rest, gone) := PopLocal(cache, size);
            && Distinct(rest) && |rest| <= |cache|
            && (forall x :: x in rest ==> x in cache && x !in gone && got != Some(x))
            && (forall x :: x in gone ==> x in cache && got != Some(x))
            && (forall x :: x in cache ==> x in rest || x in gone || got == Some(x))
            && (got.Some? ==> got.value in cache)
            && (got.None? ==> rest == [])
  {
    var k := Mismatched(cache, size);
    if k < |cache| {
      assert cache == cache[..k] + [cache[k]] + cache[k + 1..];
    }
  }

  // ---- runs of any number of threads ------------------------------------------------------------------

  datatype Pc =
    | Ready
    | Refilling(size: nat)        // the cache had no match
    | Popping(size: nat)          // after the refill
    | Flushing(moved: seq<Stk>)   // cut off the cache, depot lock not yet taken
    | Mapping(size: nat)          // prewarm saw room in the depot
    | Pushing(x: Stk)             // prewarm mapped a stack

  datatype Thread = Thread(cache: seq<Stk>, pc: Pc)

  datatype Place = InUse | Cached(t: nat) | Transit(t: nat) | InDepot

  /** `place`: every stack mapped now, and where it belongs; the lists must agree with it. */
  datatype State = State(threads: map<nat, Thread>, depot: seq<Stk>, held: set<Stk>, place: map<Stk, Place>)

  datatype Action =
    | CallAcquire(t: nat, size: nat)
    | TakeDepotLock(t: nat, cap: nat)          // `cap`: the depot's bound, which may change over a run
    | PopAgain(t: nat, mapped: Option<nat>)   // `mapped`: where mmap puts a stack if it comes to that
    | CallRelease(t: nat, x: Stk, unmap: bool) // by the holder; `unmap`: the sampled guard release
    | ThreadExits(t: nat)
    | CallPrewarm(t: nat, size: nat, cap: nat)
    | WarmupMaps(t: nat, size: nat, mapped: Option<nat>)
    | PrewarmMaps(t: nat, mapped: Option<nat>)

  function At(s: State, t: nat): Thread { if t in s.threads then s.threads[t] else Thread([], Ready) }

  function Put(place: map<Stk, Place>, xs: seq<Stk>, p: Place): map<Stk, Place> {
    place + map x | x in xs :: p
  }

  function Taken(place: map<Stk, Place>, x: Option<Stk>): map<Stk, Place> {
    if x.Some? then place[x.value := InUse] else place
  }

  function Held(held: set<Stk>, x: Option<Stk>): set<Stk> { if x.Some? then held + {x.value} else held }

  predicate Unused(s: State, addr: nat) { forall x :: x in s.place ==> x.addr != addr }

  function AcquireStep(s: State, t: nat, size: nat): State {
    var th := At(s, t);
    var (got, rest, gone) := PopLocal(th.cache, size);
    State(s.threads[t := Thread(rest, if got.Some? then Ready else Refilling(size))], s.depot,
          Held(s.held, got), Taken(s.place - Elems(gone), got))
  }

  function RefillStep(s: State, t: nat, size: nat): State {
    var (c, d, gone) := Refill(At(s, t).cache, s.depot, size, REFILL_BATCH);
    s.(threads := s.threads[t := Thread(c, Popping(size))], depot := d,
       place := Put(s.place - Elems(gone), c, Cached(t)))
  }

  function FlushStep(s: State, t: nat, moved: seq<Stk>, cap: nat): State {
    var (d, gone) := Flush(s.depot, moved, cap);
    s.(threads := s.threads[t := Thread(At(s, t).cache, Ready)], depot := d,
       place := Put(s.place - Elems(gone), d, InDepot))
  }

  function PushStep(s: State, t: nat, x: Stk, cap: nat): State {
    var threads := s.threads[t := Thread(At(s, t).cache, Ready)];
    if |s.depot| < cap then s.(threads := threads, depot := [x] + s.depot, place := s.place[x := InDepot])
    else s.(threads := threads, place := s.place - {x})
  }

  /** mmap: it may fail, and it never gives an address in use. */
  function Map(s: State, mapped: Option<nat>, size: nat): State {
    if mapped.Some? && Unused(s, mapped.value) then
      var x := Stk(mapped.value, size);
      s.(held := s.held + {x}, place := s.place[x := InUse])
    else s
  }

  function PopAgainStep(s: State, t: nat, size: nat, mapped: Option<nat>): State {
    var (got, rest, gone) := PopLocal(At(s, t).cache, size);
    var s' := State(s.threads[t := Thread(rest, Ready)], s.depot, Held(s.held, got), Taken(s.place - Elems(gone), got));
    if got.Some? then s' else Map(s', mapped, size)
  }

  /** Cut everything after the first `keep` entries off the cache. */
  function Cut(s: State, t: nat, keep: nat): State {
    var cache := At(s, t).cache;
    if |cache| <= keep then s
    else s.(threads := s.threads[t := Thread(cache[..keep], Flushing(cache[keep..]))],
            place := Put(s.place, cache[keep..], Transit(t)))
  }

  function ReleaseStep(s: State, t: nat, x: Stk): State {
    var s' := s.(threads := s.threads[t := Thread([x] + At(s, t).cache, Ready)],
                 held := s.held - {x}, place := s.place[x := Cached(t)]);
    if |At(s', t).cache| > TLS_CAP then Cut(s', t, TLS_KEEP) else s'
  }

  function PrewarmMapStep(s: State, t: nat, size: nat, mapped: Option<nat>): State {
    var th := At(s, t);
    if mapped.None? || !Unused(s, mapped.value) then s.(threads := s.threads[t := Thread(th.cache, Ready)])
    else
      var x := Stk(mapped.value, size);
      s.(threads := s.threads[t := Thread(th.cache, Pushing(x))], place := s.place[x := Transit(t)])
  }

  function Step(s: State, a: Action): State {
    match a
    case CallAcquire(t, size) => if At(s, t).pc.Ready? then AcquireStep(s, t, size) else s
    case TakeDepotLock(t, cap) =>
      (match At(s, t).pc
       case Refilling(size) => RefillStep(s, t, size)
       case Flushing(moved) => FlushStep(s, t, moved, cap)
       case Pushing(x) => PushStep(s, t, x, cap)
       case _ => s)
    case PopAgain(t, mapped) => if At(s, t).pc.Popping? then PopAgainStep(s, t, At(s, t).pc.size, mapped) else s
    case CallRelease(t, x, unmap) =>
      if !At(s, t).pc.Ready? || x !in s.held then s
      else if unmap then s.(held := s.held - {x}, place := s.place - {x})
      else ReleaseStep(s, t, x)
    case ThreadExits(t) => if At(s, t).pc.Ready? then Cut(s, t, 0) else s
    case CallPrewarm(t, size, cap) =>
      if At(s, t).pc.Ready? && |s.depot| < cap
      then s.(threads := s.threads[t := Thread(At(s, t).cache, Mapping(size))]) else s
    case PrewarmMaps(t, mapped) => if At(s, t).pc.Mapping? then PrewarmMapStep(s, t, At(s, t).pc.size, mapped) else s
    case WarmupMaps(t, size, mapped) => if At(s, t).pc.Ready? then Map(s, mapped, size) else s
  }

  function Init(): State { State(map[], [], {}, map[]) }

  function Exec(s: State, run: seq<Action>): State {
    if run == [] then s else Step(Exec(s, run[..|run| - 1]), run[|run| - 1])
  }

  // ---- the invariant ---------------------------------------------------------------------------------------

  function InTransit(pc: Pc): seq<Stk> {
    match pc
    case Flushing(moved) => moved
    case Pushing(x) => [x]
    case _ => []
  }

  /** A list holds exactly the stacks whose place it is, each once. */
  ghost predicate Lists(xs: seq<Stk>, place: map<Stk, Place>, p: Place) {
    && Distinct(xs)
    && forall x :: x in xs <==> x in place && place[x] == p
  }

  ghost predicate ThreadInv(s: State, t: nat) {
    && Lists(At(s, t).cache, s.place, Cached(t))
    && Lists(InTransit(At(s, t).pc), s.place, Transit(t))
    && |At(s, t).cache| <= TLS_CAP
    && (At(s, t).pc.Refilling? ==> At(s, t).cache == [])
  }

  /** What is not about one thread. The size of the depot is a separate matter: it depends on the caps in force. */
  ghost predicate SharedInv(s: State) {
    && (forall x, y :: x in s.place && y in s.place && x.addr == y.addr ==> x == y)
    && Lists(s.depot, s.place, InDepot)
    && (forall x :: x in s.held <==> x in s.place && s.place[x] == InUse)
  }

  ghost predicate Inv(s: State) { SharedInv(s) && forall t: nat :: ThreadInv(s, t) }

  // ---- each step keeps it -------------------------------------------------------------------------------

  /** Threads whose lists and places a step does not touch keep their invariant. */
  lemma Others(s: State, s': State, t: nat)
    requires forall u: nat | u != t :: ThreadInv(s, u)
    requires forall u: nat :: u != t ==> At(s', u) == At(s, u)
    requires forall x, u: nat | u != t ::
               (x in s'.place && s'.place[x] == Cached(u)) <==> (x in s.place && s.place[x] == Cached(u))
    requires forall x, u: nat | u != t ::
               (x in s'.place && s'.place[x] == Transit(u)) <==> (x in s.place && s.place[x] == Transit(u))
    requires ThreadInv(s', t)
    ensures forall u: nat :: ThreadInv(s', u)
  {
    forall u: nat ensures ThreadInv(s', u) {
      if u != t { assert ThreadInv(s, u); }
    }
  }

  lemma AcquireKeeps(s: State, t: nat, size: nat)
    requires Inv(s) && At(s, t).pc.Ready?
    ensures Inv(AcquireStep(s, t, size))
  {
    assert ThreadInv(s, t);
    PopLocalSound(At(s, t).cache, size);
    var s' := AcquireStep(s, t, size);
    assert ThreadInv(s', t);
    Others(s, s', t);
  }

  lemma RefillKeeps(s: State, t: nat, size: nat)
    requires Inv(s) && At(s, t).pc == Refilling(size)
    ensures Inv(RefillStep(s, t, size))
    ensures |RefillStep(s, t, size).depot| <= |s.depot|
  {
    assert ThreadInv(s, t);
    RefillConserves(At(s, t).cache, s.depot, size, REFILL_BATCH);
    RefillSound(At(s, t).cache, s.depot, size, REFILL_BATCH);
    var s' := RefillStep(s, t, size);
    assert ThreadInv(s', t);
    Others(s, s', t);
  }

  lemma FlushKeeps(s: State, t: nat, cap: nat)
    requires Inv(s) && At(s, t).pc.Flushing?
    ensures Inv(FlushStep(s, t, At(s, t).pc.moved, cap))
  {
    assert ThreadInv(s, t);
    FlushSound(s.depot, At(s, t).pc.moved, cap);
    var s' := FlushStep(s, t, At(s, t).pc.moved, cap);
    assert ThreadInv(s', t);
    Others(s, s', t);
  }

  lemma PushKeeps(s: State, t: nat, cap: nat)
    requires Inv(s) && At(s, t).pc.Pushing?
    ensures Inv(PushStep(s, t, At(s, t).pc.x, cap))
  {
    assert ThreadInv(s, t);
    assert At(s, t).pc.x in InTransit(At(s, t).pc);
    var s' := PushStep(s, t, At(s, t).pc.x, cap);
    assert ThreadInv(s', t);
    Others(s, s', t);
  }

  lemma MapKeeps(s: State, mapped: Option<nat>, size: nat)
    requires Inv(s)
    ensures Inv(Map(s, mapped, size))
  {
    var s' := Map(s, mapped, size);
    assert ThreadInv(s, 0);
    assert ThreadInv(s', 0);
    Others(s, s', 0);
  }

  lemma PopAgainKeeps(s: State, t: nat, mapped: Option<nat>)
    requires Inv(s) && At(s, t).pc.Popping?
    ensures Inv(PopAgainStep(s, t, At(s, t).pc.size, mapped))
  {
    assert ThreadInv(s, t);
    var size := At(s, t).pc.size;
    PopLocalSound(At(s, t).cache, size);
    var (got, rest, gone) := PopLocal(At(s, t).cache, size);
    var s' := State(s.threads[t := Thread(rest, Ready)], s.depot, Held(s.held, got), Taken(s.place - Elems(gone), got));
    assert ThreadInv(s', t);
    Others(s, s', t);
    MapKeeps(s', mapped, size);
  }

  lemma Halves(s: seq<Stk>, k: nat)
    requires Distinct(s) && k <= |s|
    ensures Distinct(s[..k]) && Distinct(s[k..])
    ensures forall x :: x in s <==> x in s[..k] || x in s[k..]
    ensures forall x :: x in s[..k] ==> x !in s[k..]
  {
    assert s == s[..k] + s[k..];
    forall x | x in s[..k] ensures x !in s[k..] {
      var i :| 0 <= i < k && s[i] == x;
    }
  }

  lemma CutLists(cache: seq<Stk>, place: map<Stk, Place>, t: nat, keep: nat)
    requires keep <= |cache| && Lists(cache, place, Cached(t)) && Lists([], place, Transit(t))
    ensures var place' := Put(place, cache[keep..], Transit(t));
            Lists(cache[..keep], place', Cached(t)) && Lists(cache[keep..], place', Transit(t))
  {
    Halves(cache, keep);
  }

  lemma CutShares(s: State, t: nat, keep: nat)
    requires SharedInv(s) && Lists(At(s, t).cache, s.place, Cached(t))
    ensures SharedInv(Cut(s, t, keep))
  {
    var s', cache := Cut(s, t, keep), At(s, t).cache;
    if |cache| > keep {
      Halves(cache, keep);
      forall x ensures x in s'.place <==> x in s.place {}
      forall x | x in s.place && s.place[x] != Cached(t) ensures s'.place[x] == s.place[x] {}
      forall x | x in s.place && s.place[x] == Cached(t)
        ensures s'.place[x] == Cached(t) || s'.place[x] == Transit(t)
      {
      }
    }
  }

  lemma CutKeeps(s: State, t: nat, keep: nat)
    requires forall u: nat | u != t :: ThreadInv(s, u)
    requires Lists(At(s, t).cache, s.place, Cached(t)) && Lists([], s.place, Transit(t)) && At(s, t).pc.Ready?
    requires keep <= TLS_CAP
    requires SharedInv(s)
    ensures Inv(Cut(s, t, keep))
  {
    var s', cache := Cut(s, t, keep), At(s, t).cache;
    CutShares(s, t, keep);
    if |cache| > keep { CutLists(cache, s.place, t, keep); }
    assert ThreadInv(s', t);
    Others(s, s', t);
  }

  lemma ReleaseKeeps(s: State, t: nat, x: Stk)
    requires Inv(s) && At(s, t).pc.Ready? && x in s.held
    ensures Inv(ReleaseStep(s, t, x))
  {
    assert ThreadInv(s, t);
    var cache := At(s, t).cache;
    var s' := s.(threads := s.threads[t := Thread([x] + cache, Ready)],
                 held := s.held - {x}, place := s.place[x := Cached(t)]);
    assert Distinct([x] + cache);
    assert Lists([x] + cache, s'.place, Cached(t));
    forall u: nat | u != t ensures ThreadInv(s', u) { assert ThreadInv(s, u); }
    if |cache| + 1 > TLS_CAP {
      CutKeeps(s', t, TLS_KEEP);
    } else {
      assert Cut(s', t, TLS_CAP) == s';
      CutKeeps(s', t, TLS_CAP);
    }
  }

  lemma UnmapKeeps(s: State, x: Stk)
    requires Inv(s) && x in s.held
    ensures Inv(s.(held := s.held - {x}, place := s.place - {x}))
  {
    var s' := s.(held := s.held - {x}, place := s.place - {x});
    assert ThreadInv(s, 0);
    assert ThreadInv(s', 0);
    Others(s, s', 0);
  }

  lemma PrewarmKeeps(s: State, t: nat, pc: Pc)
    requires Inv(s) && (At(s, t).pc.Ready? || At(s, t).pc.Mapping?)
    requires pc.Ready? || pc.Mapping? || (pc.Pushing? && Unused(s, pc.x.addr))
    ensures Inv(s.(threads := s.threads[t := Thread(At(s, t).cache, pc)],
                   place := if pc.Pushing? then s.place[pc.x := Transit(t)] else s.place))
  {
    assert ThreadInv(s, t);
    var s' := s.(threads := s.threads[t := Thread(At(s, t).cache, pc)],
                 place := if pc.Pushing? then s.place[pc.x := Transit(t)] else s.place);
    assert ThreadInv(s', t);
    Others(s, s', t);
  }

  lemma StepKeeps(s: State, a: Action)
    requires Inv(s)
    ensures Inv(Step(s, a))
  {
    match a
    case CallAcquire(t, size) => if At(s, t).pc.Ready? { AcquireKeeps(s, t, size); }
    case TakeDepotLock(t, cap) => {
      var pc := At(s, t).pc;
      if pc.Refilling? { RefillKeeps(s, t, pc.size); }
      else if pc.Flushing? { FlushKeeps(s, t, cap); }
      else if pc.Pushing? { PushKeeps(s, t, cap); }
    }
    case PopAgain(t, mapped) => if At(s, t).pc.Popping? { PopAgainKeeps(s, t, mapped); }
    case CallRelease(t, x, unmap) =>
      if At(s, t).pc.Ready? && x in s.held { if unmap { UnmapKeeps(s, x); } else { ReleaseKeeps(s, t, x); } }
    case ThreadExits(t) => if At(s, t).pc.Ready? { assert ThreadInv(s, t); CutKeeps(s, t, 0); }
    case CallPrewarm(t, size, cap) => if At(s, t).pc.Ready? { PrewarmKeeps(s, t, Mapping(size)); }
    case PrewarmMaps(t, mapped) =>
      if At(s, t).pc.Mapping? {
        if mapped.Some? && Unused(s, mapped.value) { PrewarmKeeps(s, t, Pushing(Stk(mapped.value, At(s, t).pc.size))); }
        else { PrewarmKeeps(s, t, Ready); }
      }
    case WarmupMaps(t, size, mapped) => MapKeeps(s, mapped, size);
  }

  lemma {:induction false} Reachable(run: seq<Action>)
    ensures Inv(Exec(Init(), run))
    decreases |run|
  {
    if run != [] {
      Reachable(run[..|run| - 1]);
      StepKeeps(Exec(Init(), run[..|run| - 1]), run[|run| - 1]);
    }
  }

  // ---- what it gives ----------------------------------------------------------------------------------------

  /** The lists a mapped stack can be on. */
  datatype Site = Depot | Cache(t: nat) | Flight(t: nat)

  function ListAt(s: State, site: Site): seq<Stk> {
    match site
    case Depot => s.depot
    case Cache(t) => At(s, t).cache
    case Flight(t) => InTransit(At(s, t).pc)
  }

  /** After every run: a mapped stack is in use or on exactly one list, once; what is on a list or
      in use is mapped; two mapped stacks never share an address; no cache is over its cap. */
  lemma OnePlace(run: seq<Action>, x: Stk)
    ensures var s := Exec(Init(), run);
            && (x in s.place <==> x in s.held || exists site :: x in ListAt(s, site))
            && (forall site, site' :: x in ListAt(s, site) && x in ListAt(s, site') ==> site == site')
            && (forall site :: x in ListAt(s, site) ==> x !in s.held && multiset(ListAt(s, site))[x] == 1)
            && (forall y :: x in s.place && y in s.place && x.addr == y.addr ==> x == y)
            && (forall t: nat :: |At(s, t).cache| <= TLS_CAP)
  {
    var s := Exec(Init(), run);
    Reachable(run);
    forall site ensures x in ListAt(s, site) <==> x in s.place && s.place[x] == Home(site)
                ensures Distinct(ListAt(s, site))
    {
      if !site.Depot? { assert ThreadInv(s, site.t); }
    }
    forall site | x in ListAt(s, site) ensures multiset(ListAt(s, site))[x] == 1 { Counted(ListAt(s, site)); }
    forall t: nat ensures |At(s, t).cache| <= TLS_CAP { assert ThreadInv(s, t); }
    if x in s.place && x !in s.held {
      var p := s.place[x];
      var site := if p.Cached? then Cache(p.t) else if p.Transit? then Flight(p.t) else Depot;
      assert x in ListAt(s, site);
    }
  }

  function Home(site: Site): Place {
    match site
    case Depot => InDepot
    case Cache(t) => Cached(t)
    case Flight(t) => Transit(t)
  }

  /** What a step may newly put in use, and for whom. */
  predicate Acquires(s: State, a: Action, x: Stk) {
    match a
    case CallAcquire(t, size) => x.size == size && x in At(s, t).cache
    case PopAgain(t, _) =>
      At(s, t).pc == Popping(x.size) && (x in At(s, t).cache || (a.mapped == Some(x.addr) && x !in s.place))
    case WarmupMaps(_, size, _) => x.size == size && a.mapped == Some(x.addr) && Unused(s, x.addr)
    case _ => false
  }

  lemma NewlyHeld(s: State, a: Action, x: Stk)
    requires x in Step(s, a).held && x !in s.held
    requires a.PopAgain? ==> forall y :: y in At(s, a.t).cache ==> y in s.place
    ensures Acquires(s, a, x)
  {
    match a
    case CallAcquire(t, size) => PopLocalConserves(At(s, t).cache, size);
    case PopAgain(t, mapped) => PopLocalConserves(At(s, t).cache, At(s, t).pc.size);
    case _ =>
  }

  /** Whatever a step newly puts in use has the size asked for, comes off the acquiring thread's own
      cache or is freshly mapped, and is afterwards on no list. */
  lemma AcquireIsExclusive(run: seq<Action>, a: Action, x: Stk)
    requires x in Step(Exec(Init(), run), a).held && x !in Exec(Init(), run).held
    ensures Acquires(Exec(Init(), run), a, x)
    ensures forall site :: x !in ListAt(Step(Exec(Init(), run), a), site)
  {
    var s := Exec(Init(), run);
    Reachable(run);
    StepKeeps(s, a);
    var s' := Step(s, a);
    forall site ensures x !in ListAt(s', site) {
      if !site.Depot? { assert ThreadInv(s', site.t); }
    }
    if a.PopAgain? { assert ThreadInv(s, a.t); }
    NewlyHeld(s, a, x);
  }

  /** An acquire that finds a match on its own cache is done at once, with the first one. */
  lemma CacheIsUsed(run: seq<Action>, t: nat, size: nat)
    requires At(Exec(Init(), run), t).pc.Ready?
    ensures var s := Exec(Init(), run);
            var s' := Step(s, CallAcquire(t, size));
            if exists x :: x in At(s, t).cache && x.size == size
            then exists x :: x in At(s, t).cache && x.size == size && s'.held == s.held + {x} && At(s', t).pc.Ready?
            else s'.held == s.held && At(s', t).pc == Refilling(size)
  {
    var s := Exec(Init(), run);
    PopTakesFirstMatch(At(s, t).cache, size);
    var got := PopLocal(At(s, t).cache, size).0;
    if got.Some? { assert got.value in At(s, t).cache; }
  }

  /** The cache and the depot of a refilling thread once it has the lock. */
  lemma RefillFindsDepotMatch(depot: seq<Stk>, size: nat)
    ensures var (c, d, _) := Refill([], depot, size, REFILL_BATCH);
            && (c != [] <==> exists x :: x in depot && x.size == size)
            && (c != [] ==> PopLocal(c, size).0 == Some(c[0]) && c[0] in depot && c[0].size == size)
            && (c == [] ==> PopLocal(c, size).0 == None)
  {
    var k := RefillTakesMatches([], depot, size, REFILL_BATCH);
    var c, found := Refill([], depot, size, REFILL_BATCH).0, OfSize(depot[..k], size);
    assert c == Reversed(found);
    ReversedMembers(found);
    forall x | x in found ensures x in depot {}
    if x :| x in depot && x.size == size {
      if k == |depot| { assert depot[..k] == depot; }
    }
  }

  lemma {:induction false} ReversedMembers(s: seq<Stk>)
    ensures |Reversed(s)| == |s| && forall x :: x in Reversed(s) <==> x in s
    decreases |s|
  {
    if s != [] {
      ReversedMembers(s[1..]);
      assert s == [s[0]] + s[1..];
    }
  }

  /** An acquire whose cache had no match takes one from the depot if there is one there at the
      lock, and maps a new stack only if there is none. */
  lemma DepotIsUsed(run: seq<Action>, t: nat, cap: nat, mapped: Option<nat>)
    requires At(Exec(Init(), run), t).pc.Refilling?
    ensures var s := Exec(Init(), run);
            var size := At(s, t).pc.size;
            var s1 := Step(s, TakeDepotLock(t, cap));
            var s2 := Step(s1, PopAgain(t, mapped));
            && At(s2, t).pc.Ready?
            && if exists x :: x in s.depot && x.size == size
               then exists x :: x in s.depot && x.size == size && s2.held == s.held + {x}
               else s2.held ==
                      s.held + if mapped.Some? && Unused(s1, mapped.value) then {Stk(mapped.value, size)} else {}
  {
    Reachable(run);
    var s := Exec(Init(), run);
    var size := At(s, t).pc.size;
    assert ThreadInv(s, t);
    RefillFindsDepotMatch(s.depot, size);
    var s1 := Step(s, TakeDepotLock(t, cap));
    assert At(s1, t) == Thread(Refill([], s.depot, size, REFILL_BATCH).0, Popping(size)) && s1.held == s.held;
  }

  /** A release keeps the stack on the caller's cache and unmaps nothing; over the cap, exactly the
      oldest entries are cut off for the depot. */
  lemma ReleaseKeepsNewest(run: seq<Action>, t: nat, x: Stk)
    requires var s := Exec(Init(), run); At(s, t).pc.Ready? && x in s.held
    ensures var s := Exec(Init(), run);
            var s', all := Step(s, CallRelease(t, x, false)), [x] + At(s, t).cache;
            && s'.held == s.held - {x} && s'.depot == s.depot && s'.place.Keys == s.place.Keys
            && At(s', t) == if |all| <= 64 then Thread(all, Ready) else Thread(all[..32], Flushing(all[32..]))
  {
    Reachable(run);
    var s := Exec(Init(), run);
    assert ThreadInv(s, t);
  }

  /** A prewarm goes on exactly while the depot is below its cap; the stack it maps goes to the depot
      exactly if there is still room at the lock, and is unmapped otherwise. */
  lemma PrewarmOutcomes(run: seq<Action>, t: nat, size: nat, cap: nat, mapped: nat)
    ensures var s := Exec(Init(), run);
            && (At(s, t).pc.Ready? ==>
                  (At(Step(s, CallPrewarm(t, size, cap)), t).pc == Mapping(size) <==> |s.depot| < cap))
            && (At(s, t).pc.Mapping? && Unused(s, mapped) ==>
                  var x := Stk(mapped, At(s, t).pc.size);
                  var s' := Step(s, PrewarmMaps(t, Some(mapped)));
                  At(s', t).pc == Pushing(x) && x in s'.place)
            && (At(s, t).pc.Pushing? ==>
                  var x, s' := At(s, t).pc.x, Step(s, TakeDepotLock(t, cap));
                  && At(s', t).pc.Ready?
                  && if |s.depot| < cap then s'.depot == [x] + s.depot && s'.place.Keys == s.place.Keys
                     else s'.depot == s.depot && x !in s'.place)
  {
    Reachable(run);
    var s := Exec(Init(), run);
    assert ThreadInv(s, t);
    if At(s, t).pc.Pushing? { assert At(s, t).pc.x in InTransit(At(s, t).pc); }
  }

  /** A thread that exits leaves its whole cache to the depot, as far as there is room. */
  lemma ExitDrains(run: seq<Action>, t: nat, cap: nat)
    requires At(Exec(Init(), run), t).pc.Ready?
    ensures var s := Exec(Init(), run);
            var s' := Step(Step(s, ThreadExits(t)), TakeDepotLock(t, cap));
            At(s', t) == Thread([], Ready) && s'.depot == Flush(s.depot, At(s, t).cache, cap).0
  {
    var s := Exec(Init(), run);
    assert At(s, t).cache[0..] == At(s, t).cache;
  }

  /** A depot whose caps never exceed `bound` never does either. */
  lemma {:induction false} DepotBounded(run: seq<Action>, bound: nat)
    requires forall i :: 0 <= i < |run| && run[i].TakeDepotLock? ==> run[i].cap <= bound
    ensures |Exec(Init(), run).depot| <= bound
    decreases |run|
  {
    if run != [] {
      var before := run[..|run| - 1];
      DepotBounded(before, bound);
      Reachable(before);
      var s, a := Exec(Init(), before), run[|run| - 1];
      if a.TakeDepotLock? && At(s, a.t).pc.Refilling? { RefillKeeps(s, a.t, At(s, a.t).pc.size); }
    }
  }
}
