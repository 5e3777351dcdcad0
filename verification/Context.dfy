/**
 The cancellation tree. Registration of a child under its parent's lock, the locked part of
 a cancel (set the error, close done, snapshot and clear the children) and the detach from
 the parent are atomic steps of threads that interleave arbitrarily; each thread keeps the
 call stack of its recursive fan-out.
 */
module Context {
  import opened Options
  import opened Seqs

  type Id = nat

  datatype Reason = Canceled | DeadlineExceeded

  /** A cancellable context; `parent` is None under the background context. */
  datatype Ctx = Ctx(parent: Option<Id>, err: Option<Reason>, done: bool, children: seq<Id>)

  /** A thread's call stack, innermost frame first. */
  datatype Stack =
    | Empty
    | Register(c: Id)                                                     // in the constructor of c
    | Enter(c: Id, reason: Reason, detach: bool, rest: Stack)             // about to lock c in _cancel
    | Fan(c: Id, reason: Reason, todo: seq<Id>, detach: bool, rest: Stack) // past the lock, children left

  /** Contexts are named in the order they are created. */
  datatype State = State(ctxs: seq<Ctx>, threads: map<nat, Stack>)

  datatype Action =
    | NewChild(t: nat, parent: Option<Id>)
    | CallCancel(t: nat, c: Id, reason: Reason)   // cancel(), or the deadline waker
    | Advance(t: nat)

  function At(s: State, t: nat): Stack { if t in s.threads then s.threads[t] else Empty }

  // ---- the locked sections ----------------------------------------------------------------

  /** Under the parent's lock: appended to its children, or told that it is cancelled already. */
  function Registered(p: Ctx, c: Id): (Ctx, Option<Reason>) {
    if p.err.None? then (p.(children := p.children + [c]), None) else (p, p.err)
  }

  /** Under the context's own lock: the first cancel wins and takes the children. */
  function Cancelled(c: Ctx, reason: Reason): (Ctx, Option<seq<Id>>) {
    if c.err.Some? then (c, None) else (Ctx(c.parent, Some(reason), true, []), Some(c.children))
  }

  function Detached(p: Ctx, c: Id): Ctx { p.(children := Without(p.children, {c})) }

  // ---- steps ----------------------------------------------------------------------------------

  /** Parents are older than their children; child lists and frames name existing contexts. */
  ghost predicate Rooted(cs: seq<Ctx>) {
    forall c :: 0 <= c < |cs| ==>
      && (cs[c].parent.Some? ==> cs[c].parent.value < c)
      && (forall k :: k in cs[c].children ==> k < |cs|)
  }

  ghost predicate InRange(st: Stack, n: nat) {
    match st
    case Empty => true
    case Register(c) => c < n
    case Enter(c, _, _, rest) => c < n && InRange(rest, n)
    case Fan(c, _, todo, _, rest) => c < n && (forall x :: x in todo ==> x < n) && InRange(rest, n)
  }

  ghost predicate Named(s: State) {
    && Rooted(s.ctxs)
    && (forall t :: t in s.threads ==> InRange(s.threads[t], |s.ctxs|))
  }

  /** The innermost frame of a thread makes one atomic move. */
  function Move(cs: seq<Ctx>, st: Stack): (r: (seq<Ctx>, Stack))
    requires Rooted(cs) && InRange(st, |cs|)
    ensures |r.0| == |cs| && Rooted(r.0) && InRange(r.1, |cs|)
  {
    match st
    case Empty => (cs, st)
    case Register(c) =>
      if cs[c].parent.None? then (cs, Empty)
      else
        var p := cs[c].parent.value;
        var (x, already) := Registered(cs[p], c);
        (cs[p := x], if already.None? then Empty else Enter(c, already.value, false, Empty))
    case Enter(c, reason, detach, rest) =>
      var (x, snapshot) := Cancelled(cs[c], reason);
      (cs[c := x], if snapshot.None? then rest else Fan(c, reason, snapshot.value, detach, rest))
    case Fan(c, reason, todo, detach, rest) =>
      if todo != [] then
        assert todo[0] in todo && forall x :: x in todo[1..] ==> x in todo;
        (cs, Enter(todo[0], reason, false, Fan(c, reason, todo[1..], detach, rest)))
      else if detach && cs[c].parent.Some? then
        var p := cs[c].parent.value;
        (cs[p := Detached(cs[p], c)], rest)
      else (cs, rest)
  }

  lemma {:induction false} InRangeGrows(st: Stack, n: nat, m: nat)
    requires InRange(st, n) && n <= m
    ensures InRange(st, m)
  {
    if st.Enter? || st.Fan? { InRangeGrows(st.rest, n, m); }
  }

  /** The constructor of `c` has registered it, so others may hold a reference to it. */
  ghost predicate Constructed(s: State, c: Id) {
    c < |s.ctxs| && forall t :: t in s.threads ==> s.threads[t] != Register(c)
  }

  /** One step; an action that is not possible there changes nothing. */
  ghost function Step(s: State, a: Action): (s': State)
    requires Named(s)
    ensures Named(s')
  {
    match a
    case NewChild(t, parent) =>
      if At(s, t) != Empty || (parent.Some? && !Constructed(s, parent.value)) then s
      else
        var s' := State(s.ctxs + [Ctx(parent, None, false, [])], s.threads[t := Register(|s.ctxs|)]);
        assert Named(s') by {
          forall u | u in s'.threads ensures InRange(s'.threads[u], |s'.ctxs|) {
            if u != t { InRangeGrows(s.threads[u], |s.ctxs|, |s'.ctxs|); }
          }
        }
        s'
    case CallCancel(t, c, reason) =>
      if At(s, t) != Empty || !Constructed(s, c) then s
      else s.(threads := s.threads[t := Enter(c, reason, true, Empty)])
    case Advance(t) =>
      var (cs, st) := Move(s.ctxs, At(s, t));
      State(cs, s.threads[t := st])
  }

  function Init(): State { State([], map[]) }

  ghost function Exec(s: State, run: seq<Action>): (s': State)
    requires Named(s)
    ensures Named(s')
    decreases |run|
  {
    if run == [] then s else Step(Exec(s, run[..|run| - 1]), run[|run| - 1])
  }

  // ---- the invariant ------------------------------------------------------------------------------

  /** Some frame of this stack is bound to cancel `c`, or to register it first. */
  ghost predicate Covers(st: Stack, c: Id) {
    match st
    case Empty => false
    case Register(x) => x == c
    case Enter(x, _, _, rest) => x == c || Covers(rest, c)
    case Fan(_, _, todo, _, rest) => c in todo || Covers(rest, c)
  }

  ghost predicate Pending(s: State, c: Id) {
    exists t :: t in s.threads && Covers(s.threads[t], c)
  }

  /** Some frame of this stack is bound to detach `c` from its parent. */
  ghost predicate Detaches(st: Stack, c: Id) {
    match st
    case Empty => false
    case Register(_) => false
    case Enter(_, _, _, rest) => Detaches(rest, c)
    case Fan(x, _, _, detach, rest) => (x == c && detach) || Detaches(rest, c)
  }

  ghost predicate Leaving(s: State, c: Id) {
    exists t :: t in s.threads && Detaches(s.threads[t], c)
  }

  /** Fan-out frames belong to cancelled contexts and hold children of theirs; a cancel that
      will not detach comes from a cancelled parent. */
  ghost predicate Sound(cs: seq<Ctx>, st: Stack)
    requires Rooted(cs) && InRange(st, |cs|)
  {
    match st
    case Empty => true
    case Register(_) => true
    case Enter(c, _, detach, rest) =>
      && (!detach ==> cs[c].parent.Some? && cs[cs[c].parent.value].err.Some?)
      && !rest.Register? && Sound(cs, rest)
    case Fan(c, _, todo, _, rest) =>
      && cs[c].err.Some?
      && (forall x :: x in todo ==> cs[x].parent == Some(c))
      && !rest.Register? && Sound(cs, rest)
  }

  /** A context's own fields. */
  ghost predicate Shaped(cs: seq<Ctx>, c: Id)
    requires Rooted(cs) && c < |cs|
  {
    && (cs[c].done <==> cs[c].err.Some?)
    && (cs[c].err.Some? ==> cs[c].children == [])
    && Distinct(cs[c].children)
    && (forall k :: k in cs[c].children ==> cs[k].parent == Some(c))
  }

  /** Not cancelled: on its parent's list, or on its way to it or to being cancelled.
      Cancelled: off its parent's list, or on its way off. */
  ghost predicate Followed(s: State, c: Id)
    requires Named(s) && c < |s.ctxs|
  {
    s.ctxs[c].parent.Some? ==>
      var listed := c in s.ctxs[s.ctxs[c].parent.value].children;
      if s.ctxs[c].err.None? then listed || Pending(s, c) else listed ==> Leaving(s, c)
  }

  /** Until its constructor registers a context nobody else has it: no list, no other frame. */
  ghost predicate Private(s: State, t: nat)
    requires Named(s)
  {
    t in s.threads && s.threads[t].Register? ==>
      var c := s.threads[t].c;
      && s.ctxs[c].err.None?
      && (forall u :: u in s.threads && u != t ==> !Covers(s.threads[u], c))
      && (forall p :: 0 <= p < |s.ctxs| ==> c !in s.ctxs[p].children)
  }

  ghost predicate Inv(s: State) {
    && Named(s)
    && (forall t :: t in s.threads ==> Sound(s.ctxs, s.threads[t]) && Private(s, t))
    && (forall c :: 0 <= c < |s.ctxs| ==> Shaped(s.ctxs, c) && Followed(s, c))
  }

  // ---- proofs ----------------------------------------------------------------------------------------

  /** Contexts are only added, parents fixed, errors set once and kept. */
  ghost predicate Grows(cs: seq<Ctx>, cs': seq<Ctx>) {
    && |cs| <= |cs'|
    && forall c :: 0 <= c < |cs| ==> cs'[c].parent == cs[c].parent && (cs[c].err.Some? ==> cs'[c].err == cs[c].err)
  }

  lemma {:induction false} SoundGrows(cs: seq<Ctx>, cs': seq<Ctx>, st: Stack)
    requires Rooted(cs) && Rooted(cs') && InRange(st, |cs|) && InRange(st, |cs'|) && Grows(cs, cs') && Sound(cs, st)
    ensures Sound(cs', st)
    decreases st
  {
    if st.Enter? || st.Fan? { SoundGrows(cs, cs', st.rest); }
  }

  lemma {:induction false} MoveKeeps(cs: seq<Ctx>, st: Stack, c: Id)
    requires Rooted(cs) && InRange(st, |cs|) && c < |cs|
    ensures var cs' := Move(cs, st).0;
            cs'[c].parent == cs[c].parent && (cs[c].err.Some? ==> cs'[c].err == cs[c].err)
  {
  }

  lemma MoveGrows(cs: seq<Ctx>, st: Stack)
    requires Rooted(cs) && InRange(st, |cs|)
    ensures Grows(cs, Move(cs, st).0)
  {
    forall c | 0 <= c < |cs|
      ensures Move(cs, st).0[c].parent == cs[c].parent
      ensures cs[c].err.Some? ==> Move(cs, st).0[c].err == cs[c].err
    {
      MoveKeeps(cs, st, c);
    }
  }

  lemma {:induction false} MoveSound(cs: seq<Ctx>, st: Stack)
    requires Rooted(cs) && InRange(st, |cs|) && Sound(cs, st) && (forall c :: 0 <= c < |cs| ==> Shaped(cs, c))
    ensures Sound(Move(cs, st).0, Move(cs, st).1)
  {
    var (cs', st') := Move(cs, st);
    MoveGrows(cs, st);
    if st.Enter? || st.Fan? { SoundGrows(cs, cs', st.rest); }
    if st.Enter? { assert Shaped(cs, st.c); }
  }

  lemma {:induction false} MoveShaped(cs: seq<Ctx>, st: Stack, c: Id)
    requires Rooted(cs) && InRange(st, |cs|) && c < |cs| && Shaped(cs, c)
    requires st.Register? ==> st.c !in cs[c].children
    ensures Shaped(Move(cs, st).0, c)
  {
    WithoutDistinct(cs[c].children, if st.Fan? then {st.c} else {});
  }

  /** A move never drops a context that was due to be cancelled or registered. */
  lemma {:induction false} MoveCovers(cs: seq<Ctx>, st: Stack, c: Id)
    requires Rooted(cs) && InRange(st, |cs|) && c < |cs| && cs[c].parent.Some? && Covers(st, c)
    ensures var (cs', st') := Move(cs, st);
            cs'[c].err.Some? || Covers(st', c) || c in cs'[cs'[c].parent.value].children
  {
  }

  lemma {:induction false} MoveDetaches(cs: seq<Ctx>, st: Stack, c: Id)
    requires Rooted(cs) && InRange(st, |cs|) && c < |cs| && cs[c].parent.Some? && Detaches(st, c)
    ensures var (cs', st') := Move(cs, st);
            Detaches(st', c) || c !in cs'[cs'[c].parent.value].children
  {
  }

  /** A move makes a context due only if it was due before or some child list held it. */
  lemma {:induction false} MoveTakesListed(cs: seq<Ctx>, st: Stack, c: Id)
    requires Rooted(cs) && InRange(st, |cs|) && c < |cs| && !Covers(st, c)
    requires forall p :: 0 <= p < |cs| ==> c !in cs[p].children
    ensures var (cs', st') := Move(cs, st);
            && !Covers(st', c) && cs'[c].err == cs[c].err
            && (forall p :: 0 <= p < |cs| ==> c !in cs'[p].children)
  {
  }

  lemma AdvanceFollows(s: State, t: nat, c: Id)
    requires Inv(s) && c < |s.ctxs| && t in s.threads
    ensures Followed(Step(s, Advance(t)), c)
  {
    var st, s' := s.threads[t], Step(s, Advance(t));
    var (cs', st') := Move(s.ctxs, st);
    MoveKeeps(s.ctxs, st, c);
    assert Shaped(s.ctxs, c) && Followed(s, c) && Sound(s.ctxs, st) && Private(s, t);
    assert s'.threads[t] == st' && forall u :: u in s.threads && u != t ==> s'.threads[u] == s.threads[u];
    if s.ctxs[c].parent.Some? {
      var p := s.ctxs[c].parent.value;
      assert Shaped(s.ctxs, p);
      var listed, listed' := c in s.ctxs[p].children, c in cs'[p].children;
      if cs'[c].err.None? {
        if listed {
          if !listed' { assert Covers(st', c); }
        } else {
          var u :| u in s.threads && Covers(s.threads[u], c);
          if u == t { MoveCovers(s.ctxs, st, c); }
          assert listed' || Covers(s'.threads[u], c);
        }
      } else if listed' {
        if s.ctxs[c].err.None? {
          assert st.Enter? && st.c == c;
          assert Detaches(st', c);
        } else {
          assert listed;
          var u :| u in s.threads && Detaches(s.threads[u], c);
          if u == t { MoveDetaches(s.ctxs, st, c); }
          assert Detaches(s'.threads[u], c);
        }
      }
    }
  }

  lemma AdvancePrivate(s: State, t: nat, u: nat)
    requires Inv(s) && t in s.threads && u in s.threads
    ensures Private(Step(s, Advance(t)), u)
  {
    var st, s' := s.threads[t], Step(s, Advance(t));
    assert Private(s, u) && Sound(s.ctxs, st);
    if s'.threads[u].Register? && u != t {
      MoveTakesListed(s.ctxs, st, s.threads[u].c);
    }
  }

  lemma AdvanceKeeps(s: State, t: nat)
    requires Inv(s) && t in s.threads
    ensures Inv(Step(s, Advance(t)))
  {
    var st, s' := s.threads[t], Step(s, Advance(t));
    assert Sound(s.ctxs, st) && Private(s, t);
    MoveGrows(s.ctxs, st);
    forall u | u in s'.threads ensures Sound(s'.ctxs, s'.threads[u]) && Private(s', u) {
      if u == t { MoveSound(s.ctxs, st); } else { SoundGrows(s.ctxs, s'.ctxs, s.threads[u]); }
      AdvancePrivate(s, t, u);
    }
    forall c | 0 <= c < |s'.ctxs| ensures Shaped(s'.ctxs, c) && Followed(s', c) {
      assert Shaped(s.ctxs, c);
      MoveShaped(s.ctxs, st, c);
      AdvanceFollows(s, t, c);
    }
  }

  lemma {:induction false} Unmentioned(st: Stack, n: nat)
    requires InRange(st, n)
    ensures !Covers(st, n)
    decreases st
  {
    if st.Enter? || st.Fan? { Unmentioned(st.rest, n); }
  }

  lemma NewChildKeeps(s: State, t: nat, parent: Option<Id>)
    requires Inv(s)
    ensures Inv(Step(s, NewChild(t, parent)))
  {
    var s' := Step(s, NewChild(t, parent));
    if s' != s {
      var n := |s.ctxs|;
      assert s'.threads[t] == Register(n) && Covers(s'.threads[t], n);
      forall u | u in s'.threads ensures Sound(s'.ctxs, s'.threads[u]) && Private(s', u) {
        if u != t {
          SoundGrows(s.ctxs, s'.ctxs, s.threads[u]);
          assert Private(s, u);
        } else {
          forall v | v in s'.threads && v != t ensures !Covers(s'.threads[v], n) { Unmentioned(s.threads[v], n); }
        }
      }
      forall c | 0 <= c < |s'.ctxs| ensures Shaped(s'.ctxs, c) && Followed(s', c) {
        if c < n {
          assert Shaped(s.ctxs, c) && Followed(s, c);
          SamePendings(s, s', t, c);
        }
      }
    }
  }

  /** A thread that was idle takes nothing away from what the others are due to do. */
  lemma SamePendings(s: State, s': State, t: nat, c: Id)
    requires At(s, t) == Empty
    requires forall u :: u in s.threads && u != t ==> u in s'.threads && s'.threads[u] == s.threads[u]
    ensures Pending(s, c) ==> Pending(s', c)
    ensures Leaving(s, c) ==> Leaving(s', c)
  {
    if Pending(s, c) {
      var u :| u in s.threads && Covers(s.threads[u], c);
      assert Covers(s'.threads[u], c);
    }
    if Leaving(s, c) {
      var u :| u in s.threads && Detaches(s.threads[u], c);
      assert Detaches(s'.threads[u], c);
    }
  }

  lemma CallCancelKeeps(s: State, t: nat, c: Id, reason: Reason)
    requires Inv(s)
    ensures Inv(Step(s, CallCancel(t, c, reason)))
  {
    var s' := Step(s, CallCancel(t, c, reason));
    if s' != s {
      forall u | u in s'.threads ensures Sound(s'.ctxs, s'.threads[u]) && Private(s', u) {
        if u != t { assert Private(s, u) && Sound(s.ctxs, s.threads[u]); }
      }
      forall k | 0 <= k < |s'.ctxs| ensures Shaped(s'.ctxs, k) && Followed(s', k) {
        assert Shaped(s.ctxs, k) && Followed(s, k);
        SamePendings(s, s', t, k);
      }
    }
  }

  lemma StepKeeps(s: State, a: Action)
    requires Inv(s)
    ensures Inv(Step(s, a))
  {
    match a
    case NewChild(t, parent) => NewChildKeeps(s, t, parent);
    case CallCancel(t, c, reason) => CallCancelKeeps(s, t, c, reason);
    case Advance(t) =>
      if t in s.threads {
        AdvanceKeeps(s, t);
      } else {
        var s' := Step(s, a);
        assert s' == s.(threads := s.threads[t := Empty]);
        forall c | 0 <= c < |s'.ctxs| ensures Shaped(s'.ctxs, c) && Followed(s', c) {
          assert Shaped(s.ctxs, c) && Followed(s, c);
          SamePendings(s, s', t, c);
        }
        forall u | u in s'.threads ensures Sound(s'.ctxs, s'.threads[u]) && Private(s', u) {
          if u != t { assert Private(s, u); }
        }
      }
  }

  lemma {:induction false} Reachable(run: seq<Action>)
    ensures Inv(Exec(Init(), run))
    decreases |run|
  {
    if run != [] {
      Reachable(run[..|run| - 1]);
      StepKeeps(Exec(Init(), run[..|run| - 1]), run[|run| - 1]);
    }
  }

  // ---- the theorems --------------------------------------------------------------------------------------

  /** No cancel and no constructor is in progress. */
  ghost predicate Quiet(s: State) { forall t :: t in s.threads ==> s.threads[t] == Empty }

  /** `a` is a proper ancestor of `c`. */
  ghost predicate Above(cs: seq<Ctx>, a: Id, c: Id)
    requires Rooted(cs) && c < |cs|
    decreases c
  {
    cs[c].parent.Some? && (cs[c].parent.value == a || Above(cs, a, cs[c].parent.value))
  }

  lemma {:induction false} DescendantsFollow(s: State, a: Id, c: Id)
    requires Inv(s) && Quiet(s) && c < |s.ctxs| && a < |s.ctxs| && s.ctxs[a].err.Some? && Above(s.ctxs, a, c)
    ensures s.ctxs[c].err.Some?
    decreases c
  {
    var p := s.ctxs[c].parent.value;
    if p != a { DescendantsFollow(s, a, p); }
    assert Shaped(s.ctxs, p) && Followed(s, c);
    forall t | t in s.threads ensures !Covers(s.threads[t], c) { assert s.threads[t] == Empty; }
  }

  /** Transitive cancellation: in every interleaving of constructors, direct cancels and deadline
      cancels, once nothing is in progress every descendant of a cancelled context is cancelled,
      a child whose registration raced its parent's snapshot included. */
  lemma TransitiveCancellation(run: seq<Action>)
    ensures var s := Exec(Init(), run);
            Quiet(s) ==>
              forall a, c :: 0 <= a < |s.ctxs| && 0 <= c < |s.ctxs| && s.ctxs[a].err.Some? && Above(s.ctxs, a, c)
                ==> s.ctxs[c].err.Some?
  {
    Reachable(run);
    var s := Exec(Init(), run);
    if Quiet(s) {
      forall a, c | 0 <= a < |s.ctxs| && 0 <= c < |s.ctxs| && s.ctxs[a].err.Some? && Above(s.ctxs, a, c)
        ensures s.ctxs[c].err.Some?
      {
        DescendantsFollow(s, a, c);
      }
    }
  }

  lemma QuietLists(s: State, p: Id, k: Id)
    requires Inv(s) && Quiet(s) && p < |s.ctxs| && k in s.ctxs[p].children
    ensures k < |s.ctxs| && s.ctxs[k].err.None?
  {
    assert Shaped(s.ctxs, p) && Followed(s, k);
    forall t | t in s.threads ensures !Detaches(s.threads[t], k) { assert s.threads[t] == Empty; }
  }

  /** No leak: once nothing is in progress no child list holds a cancelled context, and the list
      of a cancelled context is empty; `done` is closed exactly when the error is set. */
  lemma NoLeak(run: seq<Action>)
    ensures var s := Exec(Init(), run);
            && (forall c :: 0 <= c < |s.ctxs| ==> (s.ctxs[c].done <==> s.ctxs[c].err.Some?))
            && (forall c :: 0 <= c < |s.ctxs| && s.ctxs[c].err.Some? ==> s.ctxs[c].children == [])
            && (Quiet(s) ==>
                  forall p, k :: 0 <= p < |s.ctxs| && k in s.ctxs[p].children
                    ==> k < |s.ctxs| && s.ctxs[k].err.None?)
  {
    Reachable(run);
    var s := Exec(Init(), run);
    forall c | 0 <= c < |s.ctxs|
      ensures s.ctxs[c].done <==> s.ctxs[c].err.Some?
      ensures s.ctxs[c].err.Some? ==> s.ctxs[c].children == []
    {
      assert Shaped(s.ctxs, c);
    }
    if Quiet(s) {
      forall p, k | 0 <= p < |s.ctxs| && k in s.ctxs[p].children ensures k < |s.ctxs| && s.ctxs[k].err.None? {
        QuietLists(s, p, k);
      }
    }
  }

  /** Cancelled once: whatever happens later, a set error never changes, nor does the parent. */
  lemma {:induction false} ErrIsFinal(s: State, more: seq<Action>)
    requires Named(s)
    ensures Grows(s.ctxs, Exec(s, more).ctxs)
    decreases |more|
  {
    if more != [] {
      var m, a := Exec(s, more[..|more| - 1]), more[|more| - 1];
      ErrIsFinal(s, more[..|more| - 1]);
      if a.Advance? { MoveGrows(m.ctxs, At(m, a.t)); }
    }
  }

  // ---- a cancel cancels, with which reason, and comes to an end --------------------------------------------

  /** A cancel of a constructed context takes effect at its first step: the error is set, to this
      reason unless it was set before, and `done` is closed; and no later step takes that back. */
  lemma CancelTakesEffect(run: seq<Action>, t: nat, c: Id, reason: Reason)
    requires var s := Exec(Init(), run); At(s, t) == Empty && Constructed(s, c)
    ensures var s := Exec(Init(), run);
            var s' := Step(Step(s, CallCancel(t, c, reason)), Advance(t));
            && s'.ctxs[c].done
            && s'.ctxs[c].err == if s.ctxs[c].err.Some? then s.ctxs[c].err else Some(reason)
  {
    Reachable(run);
    assert Shaped(Exec(Init(), run).ctxs, c);
  }

  /** A new context is created uncancelled under the parent given, and its constructor goes on to
      register it. */
  lemma NewChildIsCreated(run: seq<Action>, t: nat, parent: Option<Id>)
    requires var s := Exec(Init(), run); At(s, t) == Empty && (parent.Some? ==> Constructed(s, parent.value))
    ensures var s := Exec(Init(), run);
            var s' := Step(s, NewChild(t, parent));
            && s'.ctxs == s.ctxs + [Ctx(parent, None, false, [])] && At(s', t) == Register(|s.ctxs|)
            && forall u :: u != t ==> At(s', u) == At(s, u)
  {
  }

  /** What registering decides: the child of an uncancelled parent is on its list, the child of a
      cancelled one goes on to be cancelled with the parent's reason. */
  lemma RegisterTakesEffect(run: seq<Action>, t: nat)
    requires At(Exec(Init(), run), t).Register?
    ensures var s := Exec(Init(), run);
            var c := At(s, t).c;
            var s' := Step(s, Advance(t));
            match s.ctxs[c].parent
            case None => At(s', t) == Empty
            case Some(p) =>
              if s.ctxs[p].err.None? then c in s'.ctxs[p].children && At(s', t) == Empty
              else At(s', t) == Enter(c, s.ctxs[p].err.value, false, Empty)
  {
    Reachable(run);
  }

  /** The direct cancels of a run. */
  function Direct(run: seq<Action>): set<(Id, Reason)> {
    if run == [] then {}
    else Direct(run[..|run| - 1]) + DirectBy(run[|run| - 1])
  }

  function DirectBy(a: Action): set<(Id, Reason)> { if a.CallCancel? then {(a.c, a.reason)} else {} }

  /** This reason reaches `c` by a direct cancel, or from its cancelled parent. */
  ghost predicate Caused(cs: seq<Ctx>, c: Id, reason: Reason, direct: set<(Id, Reason)>)
    requires Rooted(cs) && c < |cs|
  {
    (c, reason) in direct || (cs[c].parent.Some? && cs[cs[c].parent.value].err == Some(reason))
  }

  ghost predicate StackCaused(cs: seq<Ctx>, st: Stack, direct: set<(Id, Reason)>)
    requires Rooted(cs) && InRange(st, |cs|)
  {
    match st
    case Empty => true
    case Register(_) => true
    case Enter(c, reason, _, rest) => Caused(cs, c, reason, direct) && StackCaused(cs, rest, direct)
    case Fan(c, reason, todo, _, rest) =>
      && cs[c].err == Some(reason) && (forall x :: x in todo ==> cs[x].parent == Some(c))
      && StackCaused(cs, rest, direct)
  }

  ghost predicate AllCaused(s: State, direct: set<(Id, Reason)>)
    requires Named(s)
  {
    && (forall c :: 0 <= c < |s.ctxs| && s.ctxs[c].err.Some? ==> Caused(s.ctxs, c, s.ctxs[c].err.value, direct))
    && (forall t :: t in s.threads ==> StackCaused(s.ctxs, s.threads[t], direct))
  }

  lemma {:induction false} StackCausedGrows(cs: seq<Ctx>, cs': seq<Ctx>, st: Stack, direct: set<(Id, Reason)>,
                                            more: set<(Id, Reason)>)
    requires Rooted(cs) && Rooted(cs') && InRange(st, |cs|) && InRange(st, |cs'|) && Grows(cs, cs')
    requires direct <= more && StackCaused(cs, st, direct)
    ensures StackCaused(cs', st, more)
    decreases st
  {
    if st.Enter? || st.Fan? { StackCausedGrows(cs, cs', st.rest, direct, more); }
  }

  lemma {:induction false} MoveCaused(cs: seq<Ctx>, st: Stack, direct: set<(Id, Reason)>)
    requires Rooted(cs) && InRange(st, |cs|) && StackCaused(cs, st, direct)
    requires forall c :: 0 <= c < |cs| ==> Shaped(cs, c)
    requires forall c :: 0 <= c < |cs| && cs[c].err.Some? ==> Caused(cs, c, cs[c].err.value, direct)
    ensures var (cs', st') := Move(cs, st);
            && StackCaused(cs', st', direct)
            && (forall c :: 0 <= c < |cs| && cs'[c].err.Some? ==> Caused(cs', c, cs'[c].err.value, direct))
  {
    var (cs', st') := Move(cs, st);
    MoveGrows(cs, st);
    if st.Enter? || st.Fan? { StackCausedGrows(cs, cs', st.rest, direct, direct); }
    if st.Enter? { assert Shaped(cs, st.c); }
    forall c | 0 <= c < |cs| && cs'[c].err.Some? ensures Caused(cs', c, cs'[c].err.value, direct) {
      if cs[c].err.Some? { assert Caused(cs, c, cs[c].err.value, direct); }
    }
  }

  lemma AdvanceCaused(s: State, t: nat, direct: set<(Id, Reason)>)
    requires Inv(s) && AllCaused(s, direct)
    ensures AllCaused(Step(s, Advance(t)), direct)
  {
    var s', st := Step(s, Advance(t)), At(s, t);
    assert StackCaused(s.ctxs, st, direct);
    MoveCaused(s.ctxs, st, direct);
    MoveGrows(s.ctxs, st);
    forall u | u in s'.threads ensures StackCaused(s'.ctxs, s'.threads[u], direct) {
      if u != t { StackCausedGrows(s.ctxs, s'.ctxs, s.threads[u], direct, direct); }
    }
  }

  lemma CallCaused(s: State, a: Action, direct: set<(Id, Reason)>)
    requires Inv(s) && AllCaused(s, direct) && !a.Advance? && Step(s, a) != s
    ensures AllCaused(Step(s, a), direct + DirectBy(a))
  {
    var s', more := Step(s, a), direct + DirectBy(a);
    forall u | u in s'.threads ensures StackCaused(s'.ctxs, s'.threads[u], more) {
      if u != a.t { StackCausedGrows(s.ctxs, s'.ctxs, s.threads[u], direct, more); }
    }
    forall c | 0 <= c < |s'.ctxs| && s'.ctxs[c].err.Some? ensures Caused(s'.ctxs, c, s'.ctxs[c].err.value, more) {
      assert c < |s.ctxs| && Caused(s.ctxs, c, s.ctxs[c].err.value, direct);
    }
  }

  lemma NothingCaused(s: State, direct: set<(Id, Reason)>, more: set<(Id, Reason)>)
    requires Inv(s) && AllCaused(s, direct) && direct <= more
    ensures AllCaused(s, more)
  {
    forall u | u in s.threads ensures StackCaused(s.ctxs, s.threads[u], more) {
      StackCausedGrows(s.ctxs, s.ctxs, s.threads[u], direct, more);
    }
  }

  lemma StepCaused(s: State, a: Action, direct: set<(Id, Reason)>)
    requires Inv(s) && AllCaused(s, direct)
    ensures AllCaused(Step(s, a), direct + DirectBy(a))
  {
    if a.Advance? {
      AdvanceCaused(s, a.t, direct);
      assert direct + DirectBy(a) == direct;
    } else if Step(s, a) != s {
      CallCaused(s, a, direct);
    } else {
      NothingCaused(s, direct, direct + DirectBy(a));
    }
  }

  /** In every run a context's error is the reason of a direct cancel of that context, or is its
      parent's error. */
  lemma {:induction false} ReasonsComeFromAbove(run: seq<Action>)
    ensures AllCaused(Exec(Init(), run), Direct(run))
    decreases |run|
  {
    if run != [] {
      ReasonsComeFromAbove(run[..|run| - 1]);
      Reachable(run[..|run| - 1]);
      StepCaused(Exec(Init(), run[..|run| - 1]), run[|run| - 1], Direct(run[..|run| - 1]));
    }
  }

  /** Contexts not cancelled yet. */
  function Uncancelled(cs: seq<Ctx>): nat {
    if cs == [] then 0 else Uncancelled(cs[..|cs| - 1]) + if cs[|cs| - 1].err.None? then 1 else 0
  }

  /** Moves left to a call stack while it cancels nothing new. */
  function Weight(st: Stack): nat {
    match st
    case Empty => 0
    case Register(_) => 2
    case Enter(_, _, _, rest) => 1 + Weight(rest)
    case Fan(_, _, todo, _, rest) => 1 + 2 * |todo| + Weight(rest)
  }

  lemma {:induction false} UncancelledAt(cs: seq<Ctx>, c: Id, x: Ctx)
    requires c < |cs|
    ensures Uncancelled(cs[c := x]) ==
              Uncancelled(cs) - (if cs[c].err.None? then 1 else 0) + (if x.err.None? then 1 else 0)
    decreases |cs|
  {
    var n := |cs| - 1;
    if c == n {
      assert cs[c := x][..n] == cs[..n];
    } else {
      assert cs[c := x][..n] == cs[..n][c := x];
      UncancelledAt(cs[..n], c, x);
    }
  }

  /** Every move of a thread that has something to do cancels a context or gets nearer to its end. */
  lemma {:induction false} MoveProgresses(cs: seq<Ctx>, st: Stack)
    requires Rooted(cs) && InRange(st, |cs|) && st != Empty
    ensures var (cs', st') := Move(cs, st);
            && Uncancelled(cs') <= Uncancelled(cs)
            && (Uncancelled(cs') == Uncancelled(cs) ==> Weight(st') < Weight(st))
  {
    match st
    case Register(c) =>
      if cs[c].parent.Some? {
        var p := cs[c].parent.value;
        UncancelledAt(cs, p, Registered(cs[p], c).0);
      }
    case Enter(c, reason, _, _) => UncancelledAt(cs, c, Cancelled(cs[c], reason).0);
    case Fan(c, _, todo, detach, _) =>
      if todo == [] && detach && cs[c].parent.Some? {
        var p := cs[c].parent.value;
        UncancelledAt(cs, p, Detached(cs[p], c));
      }
  }

  ghost function Turns(t: nat, k: nat): seq<Action> { seq(k, _ => Advance(t)) }

  /** So from every reachable state a thread that runs alone finishes what it is doing. */
  lemma {:induction false} ThreadFinishes(s: State, t: nat) returns (k: nat)
    requires Named(s)
    ensures At(Exec(s, Turns(t, k)), t) == Empty
    decreases Uncancelled(s.ctxs), Weight(At(s, t))
  {
    if At(s, t) == Empty {
      k := 0;
    } else {
      MoveProgresses(s.ctxs, At(s, t));
      var j := ThreadFinishes(Step(s, Advance(t)), t);
      k := j + 1;
      TurnsFromFront(s, t, j);
    }
  }

  lemma {:induction false} TurnsFromFront(s: State, t: nat, k: nat)
    requires Named(s)
    ensures Exec(s, Turns(t, k + 1)) == Exec(Step(s, Advance(t)), Turns(t, k))
    decreases k
  {
    assert Turns(t, k + 1)[..k] == Turns(t, k);
    if k > 0 {
      TurnsFromFront(s, t, k - 1);
      assert Turns(t, k)[..k - 1] == Turns(t, k - 1);
    }
  }

  lemma {:induction false} OthersStayQuiet(s: State, t: nat, k: nat)
    requires Named(s) && forall u :: u in s.threads && u != t ==> s.threads[u] == Empty
    ensures var s' := Exec(s, Turns(t, k)); forall u :: u in s'.threads && u != t ==> s'.threads[u] == Empty
    decreases k
  {
    if k > 0 {
      OthersStayQuiet(s, t, k - 1);
      assert Turns(t, k)[..k - 1] == Turns(t, k - 1);
      assert Exec(s, Turns(t, k)) == Step(Exec(s, Turns(t, k - 1)), Advance(t));
    }
  }

  lemma {:induction false} ExecConcat(s: State, a: seq<Action>, b: seq<Action>)
    requires Named(s)
    ensures Exec(s, a + b) == Exec(Exec(s, a), b)
    decreases |b|
  {
    if b == [] {
      assert a + b == a;
    } else {
      assert (a + b)[..|a + b| - 1] == a + b[..|b| - 1];
      ExecConcat(s, a, b[..|b| - 1]);
    }
  }

  /** A cancel from any quiet reachable state, run to its end, cancels the context and everything
      below it. */
  lemma CancelReachesAll(run: seq<Action>, t: nat, c: Id, reason: Reason) returns (more: seq<Action>)
    requires Quiet(Exec(Init(), run)) && c < |Exec(Init(), run).ctxs|
    ensures var s' := Exec(Init(), run + more);
            && Quiet(s') && c < |s'.ctxs| && s'.ctxs[c].err.Some?
            && forall d :: 0 <= d < |s'.ctxs| && Above(s'.ctxs, c, d) ==> s'.ctxs[d].err.Some?
  {
    var s := Exec(Init(), run);
    assert At(s, t) == Empty && Constructed(s, c);
    CancelTakesEffect(run, t, c, reason);
    var s1 := Step(s, CallCancel(t, c, reason));
    var s2 := Step(s1, Advance(t));
    var k := ThreadFinishes(s2, t);
    var start := [CallCancel(t, c, reason), Advance(t)];
    assert start[..1][..0] == [];
    assert Exec(s, start[..1]) == s1 && Exec(s, start) == s2;
    more := start + Turns(t, k);
    ExecConcat(Init(), run, more);
    ExecConcat(s, start, Turns(t, k));
    OthersStayQuiet(s2, t, k);
    ErrIsFinal(s2, Turns(t, k));
    var s' := Exec(Init(), run + more);
    assert Quiet(s') by {
      forall u | u in s'.threads ensures s'.threads[u] == Empty {}
    }
    TransitiveCancellation(run + more);
  }

  // ---- the object ----------------------------------------------------------------------------------------

  /** The mutable part of one context; each method is a section run under that context's lock. */
  class CancelCtx {
    const parent: Option<Id>
    var err: Option<Reason>
    var done: bool
    var children: seq<Id>

    function View(): Ctx
      reads this
    {
      Ctx(parent, err, done, children)
    }

    constructor (p: Option<Id>)
      ensures View() == Ctx(p, None, false, [])
    {
      parent, err, done, children := p, None, false, [];
    }

    method RegisterChild(c: Id) returns (already: Option<Reason>)
      modifies this
      ensures (View(), already) == Registered(old(View()), c)
    {
      already := err;
      if already.None? { children := children + [c]; }
    }

    method CancelLocked(reason: Reason) returns (snapshot: Option<seq<Id>>)
      modifies this
      ensures (View(), snapshot) == Cancelled(old(View()), reason)
    {
      if err.Some? { return None; }
      err, done := Some(reason), true;
      snapshot := Some(children);
      children := [];
    }

    method RemoveChild(c: Id)
      modifies this
      ensures View() == Detached(old(View()), c)
    {
      children := Without(children, {c});
    }
  }
}
