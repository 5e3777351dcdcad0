/**
 The handshake between the fiber that waits for a context's deadline and a canceller. The
 waker publishes its handle without taking the lock, so every read and write on both sides is
 its own atomic step here. cancel_wait_fd() wakes a parked fiber and does nothing otherwise.
 */
module DeadlineWaker {

  /** `Arming`: the error was seen unset and the fiber is about to park. */
  datatype Waker = Starting | Checking | Arming | Parked | Firing | Exited

  /** The canceller that won the lock: next it reads the handle, clears it, kicks what it read. */
  datatype Canceller = Waiting | ReadHandle | ClearHandle(got: bool) | Kick(got: bool) | Finished

  datatype State = State(err: bool, handle: bool, waker: Waker, canceller: Canceller)

  datatype Action =
    | WakerMoves(expired: bool)   // `expired`: what the clock says, where the waker reads it
    | ParkReturns                 // deadline reached, or spuriously
    | CancelBegins
    | CancelMoves

  function Step(s: State, a: Action): State {
    match a
    case WakerMoves(expired) =>
      (match s.waker
       case Starting => s.(handle := true, waker := Checking)
       case Checking => s.(waker := if s.err then Exited else if expired then Firing else Arming)
       case Arming => s.(waker := Parked)
       case Firing => s.(err := true, waker := Exited)
       case Parked => s
       case Exited => s)
    case ParkReturns => if s.waker.Parked? then s.(waker := Checking) else s
    case CancelBegins => if s.canceller.Waiting? && !s.err then s.(err := true, canceller := ReadHandle) else s
    case CancelMoves =>
      match s.canceller
      case Waiting => s
      case ReadHandle => s.(canceller := ClearHandle(s.handle))
      case ClearHandle(got) => s.(handle := false, canceller := Kick(got))
      case Kick(got) => s.(canceller := Finished, waker := if got && s.waker.Parked? then Checking else s.waker)
      case Finished => s
  }

  function Init(): State { State(false, false, Starting, Waiting) }

  function Exec(s: State, run: seq<Action>): State {
    if run == [] then s else Step(Exec(s, run[..|run| - 1]), run[|run| - 1])
  }

  /** Past its check and before the next one: it has published, and it saw no error. */
  ghost predicate Committed(w: Waker) { w.Arming? || w.Parked? }

  ghost predicate Inv(s: State) {
    && (!s.canceller.Waiting? ==> s.err)
    && (!s.waker.Starting? && (s.canceller.Waiting? || s.canceller.ReadHandle?) ==> s.handle)
    && (Committed(s.waker) ==>
          match s.canceller
          case Waiting => !s.err
          case ClearHandle(got) => got
          case Kick(got) => got
          case _ => true)
  }

  lemma StepKeeps(s: State, a: Action)
    requires Inv(s)
    ensures Inv(Step(s, a))
  {
  }

  lemma {:induction false} Reachable(run: seq<Action>)
    ensures Inv(Exec(Init(), run))
    decreases |run|
  {
    if run != [] {
      Reachable(run[..|run| - 1]);
      StepKeeps(Exec(Init(), run[..|run| - 1]), run[|run| - 1]);
    }
  }

  /** Either the waker sees the error before it parks, or the canceller holds its handle: in every
      run, a canceller about to kick a waker past its check has got the handle. */
  lemma SeenOrHeld(run: seq<Action>)
    ensures var s := Exec(Init(), run); s.canceller.Kick? && Committed(s.waker) ==> s.canceller.got
  {
    Reachable(run);
  }

  /** A waker that is neither cancelled nor parked sets the error at its next check exactly when the
      deadline has passed, and otherwise parks. */
  lemma FiresExactlyWhenExpired(run: seq<Action>, expired: bool)
    ensures var s := Exec(Init(), run);
            s.waker.Checking? && !s.err ==>
              var s' := Step(Step(s, WakerMoves(expired)), WakerMoves(expired));
              (s'.err <==> expired) && s'.waker == (if expired then Exited else Parked)
  {
  }

  function WakerTurns(k: nat): seq<Action> { seq(k, _ => WakerMoves(false)) }

  /** Cancelled, yet parked with nobody left to wake it: the fiber sits until its deadline. */
  ghost predicate LingersAfter(s: State, k: nat) {
    var s' := Exec(s, WakerTurns(k));
    s'.waker.Parked? && s'.err && s'.canceller.Finished?
  }

  lemma {:induction false} CancelledWakerExits(s: State, k: nat)
    requires s.err && s.canceller.Finished? && !Committed(s.waker)
    ensures var s' := Exec(s, WakerTurns(k)); s'.err && s'.canceller.Finished? && !Committed(s'.waker)
    decreases k
  {
    if k > 0 {
      CancelledWakerExits(s, k - 1);
      assert WakerTurns(k)[..k - 1] == WakerTurns(k - 1);
    }
  }

  /** Exactly when a cancelled waker lingers to its original deadline: the kick came after its
      check of the error and before it was parked. Everywhere else it leaves at once. */
  lemma LingersExactlyInTheGap(run: seq<Action>)
    requires Exec(Init(), run).canceller.Kick?
    ensures var s := Exec(Init(), run);
            (exists k: nat :: LingersAfter(Step(s, CancelMoves), k)) <==> s.waker.Arming?
  {
    Reachable(run);
    var s := Exec(Init(), run);
    var s1 := Step(s, CancelMoves);
    if s.waker.Arming? {
      assert WakerTurns(1)[..0] == [];
      assert LingersAfter(s1, 1);
    } else {
      forall k: nat ensures !LingersAfter(s1, k) { CancelledWakerExits(s1, k); }
    }
  }

  /** And that gap is reachable. */
  lemma GapIsReachable()
    ensures var s := Exec(Init(), [WakerMoves(false), WakerMoves(false), CancelBegins, CancelMoves, CancelMoves]);
            s.canceller.Kick? && s.waker.Arming?
  {
    var run := [WakerMoves(false), WakerMoves(false), CancelBegins, CancelMoves, CancelMoves];
    assert run[..4][..3] == run[..3] && run[..3][..2] == run[..2] && run[..2][..1] == run[..1] && run[..1][..0] == [];
    assert Exec(Init(), run[..1]) == State(false, true, Checking, Waiting);
    assert Exec(Init(), run[..2]) == State(false, true, Arming, Waiting);
    assert Exec(Init(), run[..3]) == State(true, true, Arming, ReadHandle);
    assert Exec(Init(), run[..4]) == State(true, true, Arming, ClearHandle(true));
  }
}
