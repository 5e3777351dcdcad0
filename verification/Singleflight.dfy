/**
 singleflight.Group: concurrent calls with one key share one execution, unless forget()
 drops the entry meanwhile.
 */
module Singleflight {
  import Future
  import opened Options

  type Key = int
  type Id = nat
  type Outcome = Future.Outcome

  /** A leader's progress: running fn, about to delete its entry, about to resolve, finished. */
  datatype Leader = Running | Deleting(o: Outcome) | Resolving(o: Outcome) | Finished(o: Outcome)

  datatype Flight = Flight(key: Key, leader: Leader)

  /** `flights`: one per future ever created, by its identity; `calls`: the group's map of
      futures in flight; `joined`: the future each joiner found; `answers`: what it returned. */
  datatype State = State(calls: map<Key, Id>, flights: map<Id, Flight>,
                         joined: map<nat, Id>, answers: map<nat, Outcome>)

  datatype Action =
    | CallDo(key: Key, id: Id)     // id: the future this call creates, or the call's own name if it joins
    | FnReturns(id: Id, o: Outcome)
    | DeleteEntry(id: Id)
    | ResolveFuture(id: Id)
    | JoinerReturns(j: nat)
    | Forget(key: Key)

  /** A finishing leader deletes the entry only if it is still its own. */
  function Left(calls: map<Key, Id>, key: Key, id: Id): map<Key, Id> {
    if key in calls && calls[key] == id then calls - {key} else calls
  }

  function Step(s: State, a: Action): State {
    match a
    case CallDo(key, id) =>
      if id in s.flights || id in s.joined then s
      else if key in s.calls then s.(joined := s.joined[id := s.calls[key]])
      else s.(calls := s.calls[key := id], flights := s.flights[id := Flight(key, Running)])
    case FnReturns(id, o) =>
      if id in s.flights && s.flights[id].leader == Running
      then s.(flights := s.flights[id := s.flights[id].(leader := Deleting(o))]) else s
    case DeleteEntry(id) =>
      if id !in s.flights || !s.flights[id].leader.Deleting? then s
      else
        var f := s.flights[id];
        s.(calls := Left(s.calls, f.key, id), flights := s.flights[id := f.(leader := Resolving(f.leader.o))])
    case ResolveFuture(id) =>
      if id in s.flights && s.flights[id].leader.Resolving?
      then s.(flights := s.flights[id := s.flights[id].(leader := Finished(s.flights[id].leader.o))]) else s
    case JoinerReturns(j) =>
      if j in s.joined && j !in s.answers && s.joined[j] in s.flights && s.flights[s.joined[j]].leader.Finished?
      then s.(answers := s.answers[j := s.flights[s.joined[j]].leader.o]) else s
    case Forget(key) => s.(calls := s.calls - {key})
  }

  function Init(): State { State(map[], map[], map[], map[]) }

  function Exec(s: State, run: seq<Action>): State {
    if run == [] then s else Step(Exec(s, run[..|run| - 1]), run[|run| - 1])
  }

  ghost predicate NoForget(run: seq<Action>) {
    forall i :: 0 <= i < |run| ==> !run[i].Forget?
  }

  /** An entry is an unresolved flight of its key; joiners hold flights and their outcomes. */
  ghost predicate Inv(s: State) {
    && (forall k :: k in s.calls ==>
          && s.calls[k] in s.flights && s.flights[s.calls[k]].key == k
          && (s.flights[s.calls[k]].leader.Running? || s.flights[s.calls[k]].leader.Deleting?))
    && (forall j :: j in s.joined ==> s.joined[j] in s.flights)
    && (forall j :: j in s.answers ==> j in s.joined && s.flights[s.joined[j]].leader == Finished(s.answers[j]))
  }

  /** Without forget, a flight whose entry has not been deleted by its leader is the entry. */
  ghost predicate Sole(s: State) {
    forall id :: id in s.flights && (s.flights[id].leader.Running? || s.flights[id].leader.Deleting?)
      ==> s.flights[id].key in s.calls && s.calls[s.flights[id].key] == id
  }

  lemma StepKeeps(s: State, a: Action)
    requires Inv(s)
    ensures Inv(Step(s, a))
    ensures Sole(s) && !a.Forget? ==> Sole(Step(s, a))
  {
  }

  lemma {:induction false} Reachable(run: seq<Action>)
    ensures Inv(Exec(Init(), run))
    ensures NoForget(run) ==> Sole(Exec(Init(), run))
    decreases |run|
  {
    if run != [] {
      Reachable(run[..|run| - 1]);
      StepKeeps(Exec(Init(), run[..|run| - 1]), run[|run| - 1]);
    }
  }

  /** What each operation decides, in every reachable state: a new call joins the call found under its
      key and otherwise runs the function itself; a leader whose function has returned leaves the map
      and then resolves with that outcome; a joiner returns exactly when its call is resolved. */
  lemma Outcomes(run: seq<Action>, key: Key, id: Id, o: Outcome)
    ensures var s := Exec(Init(), run);
            && (id !in s.flights && id !in s.joined ==>
                  var s' := Step(s, CallDo(key, id));
                  if key in s.calls then id in s'.joined && s'.joined[id] == s.calls[key] && s'.flights == s.flights
                  else id in s'.flights && s'.flights[id] == Flight(key, Running)
                       && key in s'.calls && s'.calls[key] == id && s'.joined == s.joined)
            && (id in s.flights && s.flights[id].leader.Running? ==>
                  var s' := Step(Step(Step(s, FnReturns(id, o)), DeleteEntry(id)), ResolveFuture(id));
                  && s'.flights[id].leader == Finished(o)
                  && forall k :: k in s'.calls <==> k in s.calls && s.calls[k] != id)
            && (id in s.joined && id !in s.answers ==>
                  && s.joined[id] in s.flights
                  && (id in Step(s, JoinerReturns(id)).answers <==> s.flights[s.joined[id]].leader.Finished?))
  {
    Reachable(run);
  }

  /** Without forget, executions for one key never overlap: at most one leader is running fn. */
  lemma NoOverlap(run: seq<Action>, a: Id, b: Id)
    requires NoForget(run)
    ensures var fl := Exec(Init(), run).flights;
            a in fl && b in fl && fl[a].key == fl[b].key && fl[a].leader.Running? && fl[b].leader.Running? ==> a == b
  {
    Reachable(run);
  }

  /** With forget they can overlap. */
  lemma OverlapAfterForget()
    ensures var fl := Exec(Init(), [CallDo(7, 0), Forget(7), CallDo(7, 1)]).flights;
            fl == map[0 := Flight(7, Running), 1 := Flight(7, Running)]
  {
    var run := [CallDo(7, 0), Forget(7), CallDo(7, 1)];
    assert run[..2] == [CallDo(7, 0), Forget(7)] && run[..2][..1] == [CallDo(7, 0)];
    assert Exec(Init(), run[..1]) == Step(Init(), CallDo(7, 0)) by { assert run[..1][..0] == []; }
    assert Exec(Init(), run[..2]) == Step(Exec(Init(), run[..1]), Forget(7));
  }

  /** In every run, forget included: an entry's future is unresolved; a joiner found an unresolved
      future and returns that future's outcome; a finishing leader removes no entry but its own. */
  lemma JoinersShareTheirFlight(run: seq<Action>, a: Action)
    ensures var s := Exec(Init(), run);
            var s' := Step(s, a);
            && (forall k :: k in s.calls ==> s.calls[k] in s.flights && !s.flights[s.calls[k]].leader.Finished?)
            && (forall j :: j in s'.joined && j !in s.joined ==> !s.flights[s'.joined[j]].leader.Finished?)
            && (forall j :: j in s.answers ==> j in s.joined && s.joined[j] in s.flights
                                               && s.flights[s.joined[j]].leader == Finished(s.answers[j]))
            && (a.DeleteEntry? ==>
                  forall k :: k in s.calls && s.calls[k] != a.id ==> k in s'.calls && s'.calls[k] == s.calls[k])
  {
    Reachable(run);
  }

  /** What is final in `s` is the same in `s'`: answers, found futures, finished flights. */
  ghost predicate Kept(s: State, s': State) {
    && (forall j :: j in s.answers ==> j in s'.answers && s'.answers[j] == s.answers[j])
    && (forall j :: j in s.joined ==> j in s'.joined && s'.joined[j] == s.joined[j])
    && (forall id :: id in s.flights && s.flights[id].leader.Finished? ==>
          id in s'.flights && s'.flights[id] == s.flights[id])
  }

  lemma StepKeepsAnswers(s: State, m: State, a: Action)
    requires Kept(s, m)
    ensures Kept(s, Step(m, a))
  {
  }

  /** A joiner's answer, once given, and the outcome of a finished flight never change. */
  lemma {:induction false} AnswersAreFinal(s: State, more: seq<Action>)
    ensures Kept(s, Exec(s, more))
    decreases |more|
  {
    if more != [] {
      AnswersAreFinal(s, more[..|more| - 1]);
      StepKeepsAnswers(s, Exec(s, more[..|more| - 1]), more[|more| - 1]);
    }
  }

  // ---- the object ---------------------------------------------------------------------------

  class Group {
    var calls: map<Key, Id>

    constructor ()
      ensures calls == Init().calls
    {
      calls := map[];
    }

    /** The guarded section of do(): join the flight found, or enter `mine` as leader. */
    method Enter(key: Key, mine: Id) returns (found: Option<Id>)
      modifies this
      ensures found == if key in old(calls) then Some(old(calls)[key]) else None
      ensures calls == if found.Some? then old(calls) else old(calls)[key := mine]
    {
      if key in calls { return Some(calls[key]); }
      calls := calls[key := mine];
      found := None;
    }

    method Leave(key: Key, id: Id)
      modifies this
      ensures calls == Left(old(calls), key, id)
    {
      if key in calls && calls[key] == id { calls := calls - {key}; }
    }

    method Drop(key: Key)
      modifies this
      ensures calls == old(calls) - {key}
    {
      calls := calls - {key};
    }
  }
}
