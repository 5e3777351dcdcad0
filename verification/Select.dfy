/**
 One blocking attempt of select: install a waiter on every case, park, and work out which
 case fired. Peers (a sender, receiver or closer on one of the channels) pop a waiter, claim
 the select by compare-and-swap, write the result into the waiter and wake the fiber, all
 under that channel's lock but not atomically for the select, which reads its claim word
 and its waiters without that lock.
 */
module Select {
  import opened Options

  /** What the peer that claims a case does: hand a value over, or report the close. */
  datatype Kind = Deliver | Close

  /** A peer inside the lock of a case's channel, having popped this select's waiter there. */
  datatype Peer = NoPeer | Popped(k: Kind) | Won(k: Kind) | Written(k: Kind)

  /** Where the selecting fiber is. `EvictAll`'s flag: it claimed itself, to start over. */
  datatype Pc =
    | Install(i: nat)
    | AbortCas(i: nat)
    | Parked
    | ReadFired
    | EvictAll(j: nat, mine: bool)
    | ReRead
    | EvictOthers(f: nat, j: nat)
    | Outcome(f: nat)
    | Returned(f: nat)   // the delivered case
    | StartOver          // nothing delivered: scan again, or report the closed send

  /** Per case: its channel, is its waiter queued, the peer that popped it, the result written.
      Several cases may name one channel. `winner` is the peer whose claim succeeded; `woken`:
      it has issued its wake. */
  datatype State = State(ch: seq<nat>, queued: seq<bool>, peers: seq<Peer>, wrote: seq<Option<Kind>>,
                         fired: Option<nat>, winner: Option<(nat, Kind)>, woken: bool, pc: Pc)

  datatype Action =
    | SelectMoves(ready: bool)    // `ready`: what the re-check of the channel finds
    | Resume(spurious: bool)
    | PeerArrives(i: nat, k: Kind)
    | PeerMoves(i: nat)

  ghost predicate Sized(s: State) {
    && |s.ch| == |s.queued| && |s.peers| == |s.queued| && |s.wrote| == |s.queued|
    && (s.pc.Install? ==> s.pc.i <= |s.queued|)
    && (s.pc.AbortCas? ==> s.pc.i < |s.queued|)
    && (s.pc.EvictAll? ==> s.pc.j <= |s.queued|)
    && (s.pc.EvictOthers? ==> s.pc.f < |s.queued| && s.pc.j <= |s.queued|)
    && (s.pc.Outcome? ==> s.pc.f < |s.queued|)
    && (s.fired.Some? ==> s.fired.value < |s.queued|)
  }

  /** Steps under the lock of case j's channel wait until no peer is inside it, whichever of the
      cases on that channel the peer popped. */
  predicate Free(s: State, j: nat)
    requires |s.ch| == |s.queued| && |s.peers| == |s.queued| && j < |s.queued|
  {
    forall i :: 0 <= i < |s.peers| && s.ch[i] == s.ch[j] ==> s.peers[i].NoPeer?
  }

  function SelectNext(s: State, ready: bool): (s': State)
    requires Sized(s)
    ensures Sized(s') && s'.ch == s.ch
  {
    var n := |s.queued|;
    match s.pc
    case Install(i) =>
      if i == n then s.(pc := Parked)
      else if !Free(s, i) then s
      else if ready then s.(pc := AbortCas(i))
      else s.(queued := s.queued[i := true], pc := Install(i + 1))
    case AbortCas(i) =>
      if s.fired.None? then s.(fired := Some(i), pc := EvictAll(0, true)) else s.(pc := Parked)
    case Parked => s
    case ReadFired => s.(pc := if s.fired.None? then EvictAll(0, false) else EvictOthers(s.fired.value, 0))
    case EvictAll(j, mine) =>
      if j == n then s.(pc := if mine then StartOver else ReRead)
      else if !Free(s, j) then s
      else s.(queued := s.queued[j := false], pc := EvictAll(j + 1, mine))
    case ReRead => s.(pc := if s.fired.None? then StartOver else EvictOthers(s.fired.value, 0))
    case EvictOthers(f, j) =>
      if j == n then s.(pc := Outcome(f))
      else if j == f then s.(pc := EvictOthers(f, j + 1))
      else if !Free(s, j) then s
      else s.(queued := s.queued[j := false], pc := EvictOthers(f, j + 1))
    case Outcome(f) => s.(pc := if s.wrote[f] == Some(Deliver) then Returned(f) else StartOver)
    case Returned(_) => s
    case StartOver => s
  }

  function PeerNext(s: State, i: nat): (s': State)
    requires Sized(s) && i < |s.queued|
    ensures Sized(s') && s'.ch == s.ch
  {
    match s.peers[i]
    case NoPeer => s
    case Popped(k) =>
      if s.fired.None? then s.(fired := Some(i), winner := Some((i, k)), peers := s.peers[i := Won(k)])
      else s.(peers := s.peers[i := NoPeer])
    case Won(k) => s.(wrote := s.wrote[i := Some(k)], peers := s.peers[i := Written(k)])
    case Written(k) => s.(woken := true, peers := s.peers[i := NoPeer])
  }

  function Step(s: State, a: Action): (s': State)
    requires Sized(s)
    ensures Sized(s') && s'.ch == s.ch
  {
    match a
    case SelectMoves(ready) => SelectNext(s, ready)
    case Resume(spurious) => if s.pc.Parked? && (spurious || s.woken) then s.(pc := ReadFired) else s
    case PeerArrives(i, k) =>
      if i < |s.queued| && s.queued[i] && Free(s, i)
      then s.(queued := s.queued[i := false], peers := s.peers[i := Popped(k)]) else s
    case PeerMoves(i) => if i < |s.queued| then PeerNext(s, i) else s
  }

  function Init(ch: seq<nat>): (s: State)
    ensures Sized(s)
  {
    var n := |ch|;
    State(ch, seq(n, _ => false), seq(n, _ => NoPeer), seq(n, _ => None), None, None, false, Install(0))
  }

  function Exec(s: State, run: seq<Action>): (s': State)
    requires Sized(s)
    ensures Sized(s') && s'.ch == s.ch
    decreases |run|
  {
    if run == [] then s else Step(Exec(s, run[..|run| - 1]), run[|run| - 1])
  }

  // ---- exactly one claim --------------------------------------------------------------------------

  ghost predicate WonAt(s: State, i: nat) { s.winner.Some? && s.winner.value.0 == i }

  ghost predicate CaseInv(s: State, i: nat)
    requires Sized(s) && i < |s.queued|
  {
    var p := s.peers[i];
    && (!p.NoPeer? ==> !s.queued[i])
    && (p.Won? || p.Written? ==> s.winner == Some((i, p.k)))
    && (p.Won? ==> s.wrote[i].None?)
    && (s.wrote[i].Some? ==> s.winner == Some((i, s.wrote[i].value)))
    && (WonAt(s, i) ==> !s.queued[i] && !p.Popped?)
    && (WonAt(s, i) ==> s.wrote[i] == Some(s.winner.value.1) || p == Won(s.winner.value.1))
    && (s.pc.Install? && s.pc.i <= i ==> !s.queued[i] && p.NoPeer? && !WonAt(s, i))
    && (s.woken ==> !p.Won? && !p.Written?)
  }

  /** Everything in the invariant that is not about one case; a channel's lock holds one peer. */
  ghost predicate WholeInv(s: State) {
    && Sized(s)
    && (s.winner.Some? ==> s.winner.value.0 < |s.queued| && s.fired == Some(s.winner.value.0))
    && (s.fired.Some? && s.winner.None? ==> (s.pc.EvictAll? && s.pc.mine) || s.pc.StartOver?)
    && (s.pc.EvictAll? && s.pc.mine ==> s.winner.None? && s.fired.Some?)
    && (s.pc.EvictOthers? || s.pc.Outcome? ==> s.fired == Some(s.pc.f))
    && (s.pc.Returned? ==> s.pc.f < |s.queued| && s.wrote[s.pc.f] == Some(Deliver))
    && (s.woken ==> s.winner.Some?)
  }

  ghost predicate OnePeerPerLock(s: State)
    requires Sized(s)
  {
    forall i, j :: 0 <= i < j < |s.peers| && !s.peers[i].NoPeer? && !s.peers[j].NoPeer? ==> s.ch[i] != s.ch[j]
  }

  ghost predicate Inv(s: State) {
    WholeInv(s) && OnePeerPerLock(s) && forall i :: 0 <= i < |s.queued| ==> CaseInv(s, i)
  }

  lemma SelectKeepsCase(s: State, ready: bool, i: nat)
    requires WholeInv(s) && i < |s.queued| && CaseInv(s, i)
    ensures CaseInv(SelectNext(s, ready), i)
  {
  }

  lemma PeerKeepsCase(s: State, j: nat, i: nat)
    requires WholeInv(s) && i < |s.queued| && j < |s.queued| && CaseInv(s, i) && CaseInv(s, j)
    ensures CaseInv(PeerNext(s, j), i)
  {
  }

  lemma CaseKept(s: State, a: Action, i: nat)
    requires Inv(s) && i < |s.queued|
    ensures CaseInv(Step(s, a), i)
  {
    assert CaseInv(s, i);
    match a
    case SelectMoves(ready) => SelectKeepsCase(s, ready, i);
    case PeerMoves(j) => if j < |s.queued| { assert CaseInv(s, j); PeerKeepsCase(s, j, i); }
    case _ =>
  }

  lemma WholeKept(s: State, a: Action)
    requires Inv(s)
    ensures WholeInv(Step(s, a))
  {
    if a.PeerMoves? && a.i < |s.queued| { assert CaseInv(s, a.i); }
    if a.SelectMoves? && s.pc.Outcome? { assert CaseInv(s, s.pc.f); }
  }

  lemma LocksKept(s: State, a: Action)
    requires Sized(s) && OnePeerPerLock(s)
    ensures OnePeerPerLock(Step(s, a))
  {
  }

  lemma StepKeeps(s: State, a: Action)
    requires Inv(s)
    ensures Inv(Step(s, a))
  {
    WholeKept(s, a);
    LocksKept(s, a);
    forall i | 0 <= i < |s.queued| ensures CaseInv(Step(s, a), i) { CaseKept(s, a, i); }
  }

  lemma {:induction false} Reachable(ch: seq<nat>, run: seq<Action>)
    ensures Inv(Exec(Init(ch), run))
    decreases |run|
  {
    if run != [] {
      Reachable(ch, run[..|run| - 1]);
      StepKeeps(Exec(Init(ch), run[..|run| - 1]), run[|run| - 1]);
    }
  }

  ghost predicate ClaimedAt(s: State, i: nat)
    requires Sized(s) && i < |s.queued|
  {
    s.peers[i].Won? || s.wrote[i].Some?
  }

  /** Exactly once: at most one peer's claim ever succeeds, no peer's does once the select has
      claimed itself, and what the select returns is what that peer delivered. */
  lemma ClaimedOnce(ch: seq<nat>, run: seq<Action>)
    ensures var s, n := Exec(Init(ch), run), |ch|;
            && (forall i, j :: 0 <= i < n && 0 <= j < n && ClaimedAt(s, i) && ClaimedAt(s, j) ==> i == j)
            && (s.pc.EvictAll? && s.pc.mine ==> s.winner.None?)
            && (s.pc.Returned? ==>
                  s.pc.f < n && s.winner == Some((s.pc.f, Deliver)) && s.wrote[s.pc.f] == Some(Deliver))
  {
    Reachable(ch, run);
    var s, n := Exec(Init(ch), run), |ch|;
    forall i, j | 0 <= i < n && 0 <= j < n && ClaimedAt(s, i) && ClaimedAt(s, j) ensures i == j {
      assert CaseInv(s, i) && CaseInv(s, j);
    }
    if s.pc.Returned? { assert CaseInv(s, s.pc.f); }
  }

  // ---- what can go wrong, and from when on it cannot ---------------------------------------------------

  /** A peer handed a value to this select, and the select went on as if nothing was delivered. */
  ghost predicate Dropped(s: State) {
    s.pc.StartOver? && s.winner.Some? && s.winner.value.1 == Deliver
  }

  /** The select has given its waiters back to the allocator, and a peer still uses one. */
  ghost predicate Outlived(s: State) {
    (s.pc.Returned? || s.pc.StartOver?) && exists i :: 0 <= i < |s.peers| && !s.peers[i].NoPeer?
  }

  /** Another case, still to be evicted, is on the channel of case f: that eviction waits for the
      channel's lock, hence for whoever popped case f. */
  ghost predicate Mate(ch: seq<nat>, f: nat, from: nat)
    requires f < |ch|
  {
    exists k :: from <= k < |ch| && k != f && ch[k] == ch[f]
  }

  /** No other case is on the channel of case f. */
  ghost predicate Lone(ch: seq<nat>, f: nat) { f < |ch| && forall k :: 0 <= k < |ch| && k != f ==> ch[k] != ch[f] }

  lemma LoneOrMate(ch: seq<nat>, f: nat)
    requires f < |ch|
    ensures Lone(ch, f) <==> !Mate(ch, f, 0)
  {
  }

  ghost predicate Gone(s: State, i: nat)
    requires Sized(s) && i < |s.queued|
  {
    s.peers[i].NoPeer? && !s.queued[i]
  }

  /** From here on no delivery can be dropped: the locks taken while evicting have let every peer
      that had popped a waiter finish, or the winner has written its result already or will
      before the eviction gets its channel's lock. */
  ghost predicate Secure(s: State)
    requires Sized(s)
  {
    match s.pc
    case EvictAll(j, mine) => mine || forall i :: 0 <= i < j ==> Gone(s, i)
    case ReRead => forall i :: 0 <= i < |s.queued| ==> Gone(s, i)
    case EvictOthers(f, j) => s.peers[f] != Won(Deliver) || Mate(s.ch, f, j)
    case Outcome(f) => s.peers[f] != Won(Deliver)
    case Returned(_) => true
    case StartOver => !Dropped(s) && forall i :: 0 <= i < |s.queued| ==> s.fired.Some? || Gone(s, i)
    case _ => false
  }

  lemma GoneStays(s: State, a: Action)
    requires Sized(s) && !s.pc.Install?
    ensures forall i :: 0 <= i < |s.queued| && Gone(s, i) ==> Gone(Step(s, a), i)
  {
  }

  /** One turn of the last eviction: past its lock, the mate's channel has no peer left. */
  lemma MateWaits(s: State, ready: bool)
    requires Sized(s) && s.pc.EvictOthers? && Mate(s.ch, s.pc.f, s.pc.j)
    ensures var s' := SelectNext(s, ready);
            s'.pc.EvictOthers? && s'.pc.f == s.pc.f && (s.peers[s.pc.f].NoPeer? || Mate(s.ch, s.pc.f, s'.pc.j))
  {
    var f, j := s.pc.f, s.pc.j;
    var k :| j <= k < |s.ch| && k != f && s.ch[k] == s.ch[f];
  }

  lemma SelectSecures(s: State, ready: bool)
    requires Inv(s) && Secure(s)
    ensures Secure(SelectNext(s, ready))
  {
    GoneStays(s, SelectMoves(ready));
    assert SelectNext(s, ready) == Step(s, SelectMoves(ready));
    match s.pc
    case ReRead => if s.fired.Some? { assert Gone(s, s.fired.value); }
    case EvictOthers(f, j) => if Mate(s.ch, f, j) { MateWaits(s, ready); }
    case Outcome(f) => assert CaseInv(s, f);
    case _ =>
  }

  lemma PeerSecures(s: State, i: nat)
    requires Inv(s) && Secure(s) && i < |s.queued|
    ensures Secure(PeerNext(s, i))
  {
    GoneStays(s, PeerMoves(i));
    assert PeerNext(s, i) == Step(s, PeerMoves(i));
    assert CaseInv(s, i);
    if s.pc.StartOver? && s.fired.None? { assert Gone(s, i); }
  }

  lemma SecureStays(s: State, a: Action)
    requires Inv(s) && Secure(s)
    ensures Secure(Step(s, a))
  {
    match a
    case SelectMoves(ready) => SelectSecures(s, ready);
    case PeerMoves(i) => if i < |s.queued| { PeerSecures(s, i); }
    case _ => GoneStays(s, a);
  }

  lemma {:induction false} SecureForever(s: State, more: seq<Action>)
    requires Inv(s) && Secure(s)
    ensures Inv(Exec(s, more)) && Secure(Exec(s, more))
    decreases |more|
  {
    if more != [] {
      SecureForever(s, more[..|more| - 1]);
      StepKeeps(Exec(s, more[..|more| - 1]), more[|more| - 1]);
      SecureStays(Exec(s, more[..|more| - 1]), more[|more| - 1]);
    }
  }

  /** From here on no peer outlives the select's waiters: those evicted are off their queues with
      nobody holding them, and so is the fired one, or it will be before the eviction is through. */
  ghost predicate Clean(s: State)
    requires Sized(s)
  {
    match s.pc
    case EvictAll(j, _) => forall i :: 0 <= i < j ==> Gone(s, i)
    case EvictOthers(f, j) =>
      && (forall i :: 0 <= i < j && i != f ==> Gone(s, i))
      && !s.queued[f] && (s.peers[f].NoPeer? || Mate(s.ch, f, j))
    case ReRead => forall i :: 0 <= i < |s.queued| ==> Gone(s, i)
    case Outcome(_) => forall i :: 0 <= i < |s.queued| ==> Gone(s, i)
    case Returned(_) => forall i :: 0 <= i < |s.queued| ==> Gone(s, i)
    case StartOver => forall i :: 0 <= i < |s.queued| ==> Gone(s, i)
    case _ => false
  }

  lemma SelectCleans(s: State, ready: bool)
    requires Inv(s) && Clean(s)
    ensures Clean(SelectNext(s, ready))
  {
    GoneStays(s, SelectMoves(ready));
    assert SelectNext(s, ready) == Step(s, SelectMoves(ready));
    match s.pc
    case ReRead => if s.fired.Some? { assert Gone(s, s.fired.value); }
    case EvictOthers(f, j) => if Mate(s.ch, f, j) { MateWaits(s, ready); }
    case _ =>
  }

  lemma PeerCleans(s: State, i: nat)
    requires Inv(s) && Clean(s) && i < |s.queued|
    ensures Clean(PeerNext(s, i))
  {
    GoneStays(s, PeerMoves(i));
    assert PeerNext(s, i) == Step(s, PeerMoves(i));
    assert CaseInv(s, i);
  }

  lemma CleanStays(s: State, a: Action)
    requires Inv(s) && Clean(s)
    ensures Clean(Step(s, a))
  {
    match a
    case SelectMoves(ready) => SelectCleans(s, ready);
    case PeerMoves(i) => if i < |s.queued| { PeerCleans(s, i); }
    case _ => GoneStays(s, a);
  }

  lemma {:induction false} CleanForever(s: State, more: seq<Action>)
    requires Inv(s) && Clean(s)
    ensures Inv(Exec(s, more)) && Clean(Exec(s, more)) && !Outlived(Exec(s, more))
    decreases |more|
  {
    if more != [] {
      CleanForever(s, more[..|more| - 1]);
      StepKeeps(Exec(s, more[..|more| - 1]), more[|more| - 1]);
      CleanStays(Exec(s, more[..|more| - 1]), more[|more| - 1]);
    }
    var s' := Exec(s, more);
    forall i | 0 <= i < |s'.peers| && (s'.pc.Returned? || s'.pc.StartOver?) ensures s'.peers[i].NoPeer? {
      assert Gone(s', i);
    }
  }

  // ---- resumed only by the winner ------------------------------------------------------------------------

  /** No resume in this run was spurious. */
  ghost predicate OnlyRealWakes(run: seq<Action>) {
    forall i :: 0 <= i < |run| ==> run[i] != Resume(true)
  }

  /** Before the select reads its claim word, a resume by a real wake finds the winner finished. */
  ghost predicate Undisturbed(s: State)
    requires Sized(s)
  {
    || s.pc.Install? || s.pc.AbortCas? || s.pc.Parked? || (s.pc.ReadFired? && s.woken)
    || (Secure(s) && Clean(s))
  }

  lemma UndisturbedStays(s: State, a: Action)
    requires Inv(s) && Undisturbed(s) && a != Resume(true)
    ensures Undisturbed(Step(s, a))
  {
    if s.pc.ReadFired? {
      assert CaseInv(s, s.winner.value.0);
    } else if Secure(s) && Clean(s) {
      SecureStays(s, a);
      CleanStays(s, a);
    }
  }

  /** If every resume is the winner's wake, no delivery is dropped and the select gives its
      waiters back only when no peer uses one any more. */
  lemma {:induction false} RealWakesAreSafe(ch: seq<nat>, run: seq<Action>)
    requires OnlyRealWakes(run)
    ensures var s := Exec(Init(ch), run); Undisturbed(s) && !Dropped(s) && !Outlived(s)
    decreases |run|
  {
    Reachable(ch, run);
    if run != [] {
      Reachable(ch, run[..|run| - 1]);
      RealWakesAreSafe(ch, run[..|run| - 1]);
      UndisturbedStays(Exec(Init(ch), run[..|run| - 1]), run[|run| - 1]);
    }
    var s := Exec(Init(ch), run);
    if s.pc.Returned? || s.pc.StartOver? { CleanForever(s, []); }
  }

  // ---- resumed by anyone: exactly when it goes wrong ---------------------------------------------------------

  ghost predicate DropsAfter(s: State, more: seq<Action>)
    requires Sized(s)
  {
    Dropped(Exec(s, more))
  }

  ghost predicate OutlivedAfter(s: State, more: seq<Action>)
    requires Sized(s)
  {
    Outlived(Exec(s, more))
  }

  lemma {:induction false} ExecConcat(s: State, a: seq<Action>, b: seq<Action>)
    requires Sized(s)
    ensures Exec(s, a + b) == Exec(Exec(s, a), b)
    decreases |b|
  {
    if b == [] {
      assert a + b == a;
    } else {
      assert (a + b)[..|a + b| - 1] == a + b[..|b| - 1];
      ExecConcat(s, a, b[..|b| - 1]);
    }
  }

  lemma ExecOne(s: State, a: Action)
    requires Sized(s)
    ensures Exec(s, [a]) == Step(s, a)
  {
    assert [a][..0] == [];
  }

  /** Whoever is inside the lock of another case's channel has lost its claim, and leaves. */
  lemma OthersLeave(s: State, f: nat, j: nat) returns (more: seq<Action>)
    requires Inv(s) && s.pc.EvictOthers? && s.pc.f == f && !s.peers[f].NoPeer? && Lone(s.ch, f)
    requires j < |s.queued| && j != f
    ensures var s' := Exec(s, more);
            Inv(s') && Free(s', j) && s'.pc == s.pc && s'.peers[f] == s.peers[f] && s'.ch == s.ch
  {
    if Free(s, j) {
      more := [];
    } else {
      var i :| 0 <= i < |s.peers| && s.ch[i] == s.ch[j] && !s.peers[i].NoPeer?;
      assert CaseInv(s, i) && CaseInv(s, f);
      more := [PeerMoves(i)];
      ExecOne(s, PeerMoves(i));
      StepKeeps(s, PeerMoves(i));
    }
  }

  /** The others leave, the select evicts, and all the while the winner does not move. */
  lemma {:induction false} RunToOutcome(s: State, f: nat) returns (more: seq<Action>)
    requires Inv(s) && s.pc.EvictOthers? && s.pc.f == f && !s.peers[f].NoPeer? && Lone(s.ch, f)
    ensures var s' := Exec(s, more); Inv(s') && s'.pc == Outcome(f) && s'.peers[f] == s.peers[f]
    decreases |s.queued| - s.pc.j
  {
    var turn := SelectMoves(false);
    var clear: seq<Action>, s1 := [], s;
    if s.pc.j < |s.queued| && s.pc.j != f {
      clear := OthersLeave(s, f, s.pc.j);
      s1 := Exec(s, clear);
    }
    ExecOne(s1, turn);
    ExecConcat(s, clear, [turn]);
    StepKeeps(s1, turn);
    more := clear + [turn];
    if s.pc.j < |s.queued| {
      var rest := RunToOutcome(Step(s1, turn), f);
      ExecConcat(s, more, rest);
      more := more + rest;
    }
  }

  /** From the read of a claim word that a peer alone on its channel has won and not let go of,
      the select can be done before that peer moves again. */
  lemma DoneBeforeThePeer(s: State, f: nat) returns (more: seq<Action>)
    requires Inv(s) && s.pc.ReadFired? && Lone(s.ch, f) && (s.peers[f].Won? || s.peers[f].Written?)
    ensures OutlivedAfter(Step(s, SelectMoves(false)), more)
    ensures s.peers[f] == Won(Deliver) ==> DropsAfter(Step(s, SelectMoves(false)), more)
  {
    var turn := SelectMoves(false);
    assert CaseInv(s, f);
    StepKeeps(s, turn);
    var s1 := Step(s, turn);
    var mid := RunToOutcome(s1, f);
    var s2 := Exec(s1, mid);
    assert CaseInv(s2, f);
    ExecOne(s2, turn);
    ExecConcat(s1, mid, [turn]);
    more := mid + [turn];
    assert !Step(s2, turn).peers[f].NoPeer?;
  }

  /** Exactly when a delivery can be dropped, at the moment the select reads its claim word: the
      peer that claimed it is between its claim and its write, and no other case of the select is
      on that peer's channel. That takes a resume that was not the winner's wake. */
  lemma DropsExactlyMidDelivery(ch: seq<nat>, run: seq<Action>)
    requires Exec(Init(ch), run).pc.ReadFired?
    ensures var s := Exec(Init(ch), run);
            (exists more :: DropsAfter(Step(s, SelectMoves(false)), more))
              <==> exists f: nat :: Lone(ch, f) && s.peers[f] == Won(Deliver)
  {
    Reachable(ch, run);
    var s := Exec(Init(ch), run);
    var s1 := Step(s, SelectMoves(false));
    StepKeeps(s, SelectMoves(false));
    if f: nat :| Lone(ch, f) && s.peers[f] == Won(Deliver) {
      var more := DoneBeforeThePeer(s, f);
    } else {
      if s.fired.Some? { LoneOrMate(ch, s.fired.value); }
      assert Secure(s1);
      forall more ensures !DropsAfter(s1, more) { SecureForever(s1, more); }
    }
  }

  /** Exactly when a peer can outlive the waiter it is using: it has won the claim and not finished
      its wake, whatever it delivers and written or not, and is alone on its channel. */
  lemma OutlivedExactlyMidPeer(ch: seq<nat>, run: seq<Action>)
    requires Exec(Init(ch), run).pc.ReadFired?
    ensures var s := Exec(Init(ch), run);
            (exists more :: OutlivedAfter(Step(s, SelectMoves(false)), more))
              <==> exists f: nat :: Lone(ch, f) && (s.peers[f].Won? || s.peers[f].Written?)
  {
    Reachable(ch, run);
    var s := Exec(Init(ch), run);
    var s1 := Step(s, SelectMoves(false));
    StepKeeps(s, SelectMoves(false));
    if f: nat :| Lone(ch, f) && (s.peers[f].Won? || s.peers[f].Written?) {
      var more := DoneBeforeThePeer(s, f);
    } else {
      if s.fired.Some? {
        LoneOrMate(ch, s.fired.value);
        assert CaseInv(s, s.fired.value);
      }
      assert Clean(s1);
      forall more ensures !OutlivedAfter(s1, more) { CleanForever(s1, more); }
    }
  }

  // ---- the same, before the call --------------------------------------------------------------------------------

  function Turns(k: nat): seq<Action> { seq(k, _ => SelectMoves(false)) }

  lemma {:induction false} Installs(ch: seq<nat>, k: nat)
    requires k <= |ch|
    ensures var s := Exec(Init(ch), Turns(k));
            && s.pc == Install(k) && s.fired.None? && s.winner.None?
            && forall i :: 0 <= i < |ch| ==> s.peers[i].NoPeer? && s.queued[i] == (i < k)
    decreases k
  {
    if k > 0 {
      Installs(ch, k - 1);
      assert Turns(k)[..k - 1] == Turns(k - 1);
      assert Free(Exec(Init(ch), Turns(k - 1)), k - 1);
    }
  }

  /** All cases installed, the select parked, a peer claims case f, and a spurious resume. */
  lemma ReachesWindow(ch: seq<nat>, f: nat) returns (run: seq<Action>)
    requires f < |ch|
    ensures var s := Exec(Init(ch), run); s.pc.ReadFired? && s.peers[f] == Won(Deliver)
  {
    Installs(ch, |ch|);
    run := Turns(|ch|);
    var rest := [SelectMoves(false), PeerArrives(f, Deliver), PeerMoves(f), Resume(true)];
    var s := Exec(Init(ch), run);
    var i := 0;
    while i < 4
      invariant 0 <= i <= 4 && s == Exec(Init(ch), run) && s.ch == ch
      invariant i == 0 ==> s.pc == Install(|ch|) && s.queued[f] && s.fired.None? && Free(s, f)
      invariant i == 1 ==> s.pc == Parked && s.queued[f] && s.fired.None? && Free(s, f)
      invariant i == 2 ==> s.pc == Parked && s.peers[f] == Popped(Deliver) && s.fired.None?
      invariant i == 3 ==> s.pc == Parked && s.peers[f] == Won(Deliver)
      invariant i == 4 ==> s.pc == ReadFired && s.peers[f] == Won(Deliver)
    {
      ExecOne(s, rest[i]);
      ExecConcat(Init(ch), run, [rest[i]]);
      run, s := run + [rest[i]], Step(s, rest[i]);
      i := i + 1;
    }
  }

  /** Nothing went wrong yet, on a select none of whose cases is alone on its channel. */
  ghost predicate Sheltered(s: State)
    requires Sized(s)
  {
    || s.pc.Install? || s.pc.AbortCas? || s.pc.Parked? || s.pc.ReadFired?
    || (Secure(s) && Clean(s))
  }

  lemma ShelteredStays(s: State, a: Action)
    requires Inv(s) && Sheltered(s) && forall f: nat :: !Lone(s.ch, f)
    ensures Sheltered(Step(s, a))
  {
    if s.pc.ReadFired? {
      if s.fired.Some? {
        LoneOrMate(s.ch, s.fired.value);
        assert CaseInv(s, s.fired.value);
      }
    } else if Secure(s) && Clean(s) {
      SecureStays(s, a);
      CleanStays(s, a);
    }
  }

  lemma {:induction false} NobodyAloneIsSafe(ch: seq<nat>, run: seq<Action>)
    requires forall f: nat :: !Lone(ch, f)
    ensures var s := Exec(Init(ch), run); Sheltered(s) && !Dropped(s) && !Outlived(s)
    decreases |run|
  {
    Reachable(ch, run);
    if run != [] {
      var s, a := Exec(Init(ch), run[..|run| - 1]), run[|run| - 1];
      Reachable(ch, run[..|run| - 1]);
      NobodyAloneIsSafe(ch, run[..|run| - 1]);
      ShelteredStays(s, a);
    }
    var s := Exec(Init(ch), run);
    if s.pc.Returned? || s.pc.StartOver? { CleanForever(s, []); }
  }

  /** What a caller can tell from the cases alone: some run of this select drops a delivery, or lets
      a peer outlive its waiter, if and only if some case has a channel to itself. */
  lemma UnsafeExactlyWithALoneCase(ch: seq<nat>)
    ensures (exists run :: DropsAfter(Init(ch), run)) <==> exists f: nat :: Lone(ch, f)
    ensures (exists run :: OutlivedAfter(Init(ch), run)) <==> exists f: nat :: Lone(ch, f)
  {
    if f: nat :| Lone(ch, f) {
      var run := ReachesWindow(ch, f);
      Reachable(ch, run);
      var s, turn := Exec(Init(ch), run), SelectMoves(false);
      var more := DoneBeforeThePeer(s, f);
      ExecOne(s, turn);
      ExecConcat(Init(ch), run, [turn]);
      ExecConcat(Init(ch), run + [turn], more);
      assert DropsAfter(Init(ch), run + [turn] + more) && OutlivedAfter(Init(ch), run + [turn] + more);
    } else {
      forall run ensures !DropsAfter(Init(ch), run) && !OutlivedAfter(Init(ch), run) { NobodyAloneIsSafe(ch, run); }
    }
  }

  // ---- what the select decides when it runs on undisturbed --------------------------------------------------------

  ghost predicate NobodyInside(s: State) { forall i :: 0 <= i < |s.peers| ==> s.peers[i].NoPeer? }

  /** Where the select ends up. Past its resume: it returns the case a peer delivered to, and starts
      over if there was no delivery. A re-check that found its channel ready: it starts over, unless
      a peer claimed it before. Still installing, nothing ready: it parks. */
  function Verdict(s: State): Pc {
    match s.pc
    case Install(_) => Parked
    case AbortCas(_) => if s.fired.None? then StartOver else Parked
    case Parked => s.pc
    case Returned(_) => s.pc
    case StartOver => s.pc
    case EvictAll(_, true) => StartOver
    case _ => if s.winner.Some? && s.winner.value.1 == Deliver then Returned(s.winner.value.0) else StartOver
  }

  /** Moves left until then. */
  function Left(s: State): nat
    requires Sized(s)
  {
    var n := |s.queued|;
    match s.pc
    case Install(i) => n - i + n + 3
    case AbortCas(_) => n + 2
    case ReadFired => 2 * n + 5
    case EvictAll(j, mine) => n - j + if mine then 1 else n + 4
    case ReRead => n + 3
    case EvictOthers(_, j) => n - j + 2
    case Outcome(_) => 1
    case _ => 0
  }

  lemma LeftShrinks(s: State)
    requires Sized(s) && NobodyInside(s) && Left(s) > 0
    ensures NobodyInside(SelectNext(s, false)) && Left(SelectNext(s, false)) < Left(s)
  {
    assert s.pc.Install? && s.pc.i < |s.queued| ==> Free(s, s.pc.i);
  }

  lemma VerdictStays(s: State)
    requires Inv(s) && NobodyInside(s)
    ensures Verdict(SelectNext(s, false)) == Verdict(s)
  {
    if s.pc.Outcome? { assert CaseInv(s, s.pc.f); }
  }

  lemma {:induction false} RunsToVerdict(s: State) returns (k: nat)
    requires Inv(s) && NobodyInside(s)
    ensures Exec(s, Turns(k)).pc == Verdict(s)
    decreases Left(s)
  {
    if Left(s) == 0 {
      k := 0;
    } else {
      LeftShrinks(s);
      VerdictStays(s);
      StepKeeps(s, SelectMoves(false));
      var j := RunsToVerdict(SelectNext(s, false));
      k := j + 1;
      assert Turns(k) == [SelectMoves(false)] + Turns(j);
      ExecOne(s, SelectMoves(false));
      ExecConcat(s, [SelectMoves(false)], Turns(j));
    }
  }

  /** From every reachable state in which no peer is inside a lock, the select alone comes to its
      verdict; and a re-check that finds a channel ready makes it start over, unless it was
      claimed already. */
  lemma SelectDecides(ch: seq<nat>, run: seq<Action>) returns (k: nat)
    requires NobodyInside(Exec(Init(ch), run))
    ensures var s := Exec(Init(ch), run);
            && Exec(s, Turns(k)).pc == Verdict(s)
            && (s.pc.Install? && s.pc.i < |ch| ==>
                  Verdict(Step(s, SelectMoves(true))) == if s.fired.None? then StartOver else Parked)
  {
    Reachable(ch, run);
    k := RunsToVerdict(Exec(Init(ch), run));
  }

  /** A peer that has popped a waiter and runs on claims the select exactly when nobody has; it then
      writes its result there and wakes the fiber, and otherwise changes nothing. */
  lemma PeerDecides(ch: seq<nat>, run: seq<Action>, i: nat)
    requires i < |ch| && Exec(Init(ch), run).peers[i].Popped?
    ensures var s := Exec(Init(ch), run);
            var k, s1 := s.peers[i].k, Step(s, PeerMoves(i));
            if s.fired.None? then
              var s3 := Step(Step(s1, PeerMoves(i)), PeerMoves(i));
              && s3.winner == Some((i, k)) && s3.fired == Some(i) && s3.wrote[i] == Some(k)
              && s3.woken && s3.peers[i].NoPeer?
            else s1 == s.(peers := s.peers[i := NoPeer])
  {
  }
}
