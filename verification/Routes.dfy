/** The idempotent DELETE mapping (src/routes/remove.rs) and what it promises over any
    number of retries (section 9.2.2 of RFC 9110). */
module Routes {
  import opened Prelude
  import opened Signaling
  import opened Linearity

  /** The status half of the HTTP contract (src/signal/errors.rs). */
  function Status(e: SignalError): nat {
    match e
    case NotFound(_) => 404
    case Gone(_) => 410
    case WrongState(_) => 409
    case Timeout(_) => 503
    case NotReady => 503
    case PipelineBusy(_) => 503
    case Unavailable => 500
    case Pipeline(_) => 500
  }

  /** `delete`: 200 for a session this request ended, 204 for one already gone, every
      other error unchanged. */
  function DeleteResponse(result: Reply): nat {
    match result
    case Rejected(NotFound(_)) => 204
    case Rejected(e) => Status(e)
    case _ => 200
  }

  /** Retry policy survives the crossing from the stream plane: exactly the retryable
      pipeline errors reach the client as 503. */
  lemma RetryPolicySurvives(e: PipelineError)
    ensures Status(FromPipeline(e)) == if e.Fatal? then 500 else 503
  {
  }

  ghost predicate OnlyDeletes(events: seq<Event>, id: Id) {
    forall k :: 0 <= k < |events| ==>
                  events[k].input.Handle? && events[k].input.command.RemoveConnection?
                    && events[k].input.command.id == id
  }

  predicate TearsDown(cfg: Config, e: Event)
    requires e.input.Handle?
  {
    TeardownError(cfg, e.input.call).None?
  }

  /** The first of the first `n` deletes whose teardown succeeds. */
  function FirstSuccess(cfg: Config, events: seq<Event>, n: nat): (first: Option<nat>)
    requires n <= |events| && forall k :: 0 <= k < |events| ==> events[k].input.Handle?
    ensures first.None? <==> forall j :: 0 <= j < n ==> !TearsDown(cfg, events[j])
    ensures first.Some? ==> first.value < n && TearsDown(cfg, events[first.value])
                            && forall j :: 0 <= j < first.value ==> !TearsDown(cfg, events[j])
  {
    if n == 0 then None
    else if FirstSuccess(cfg, events, n - 1).Some? then FirstSuccess(cfg, events, n - 1)
    else if TearsDown(cfg, events[n - 1]) then Some(n - 1) else None
  }

  /** What the client of the `k`-th delete is answered. */
  function Response(cfg: Config, start: State, events: seq<Event>, id: Id, k: nat): nat
    requires k < |events| && events[k].input.Handle?
  {
    DeleteResponse(DeletedReply(cfg, At(cfg, start, events, k), id, events[k].input.call))
  }

  lemma DeleteEffect(cfg: Config, s: State, dropped: set<Ticket>, id: Id, call: Call)
    ensures
      var s' := AfterDelete(cfg, s, dropped, id, call);
      var ends := id in s.connections && TeardownError(cfg, call).None?;
      && s'.connections == (if TeardownError(cfg, call).None? then s.connections - {id} else s.connections)
      && s.replies.Keys <= s'.replies.Keys
      && forall t: Ticket ::
           Log(s', t) == if ends && s.connections[id].Waiter() == Some(t)
                         then Log(s, t) + [Fate(dropped, t, Rejected(Gone(id)))]
                         else Log(s, t)
  {
    hide TeardownError;
    if id !in s.connections {
      assert s.connections - {id} == s.connections;
    }
  }

  /** One delete: on a failed teardown the map is exactly as it was and no sender but its
      own is used; on success the entry is gone and its waiter learns `Gone`. */
  lemma DeleteStep(cfg: Config, s: State, e: Event, id: Id)
    requires e.input.Handle? && e.input.command.RemoveConnection? && e.input.command.id == id
    requires Linear(s) && Admissible(s, e)
    ensures
      var s' := Step(cfg, s, e);
      && s'.connections == (if TearsDown(cfg, e) then s.connections - {id} else s.connections)
      && (forall t :: t in s.replies ==>
            Log(s', t) == if TearsDown(cfg, e) && id in s.connections && s.connections[id].Waiter() == Some(t)
                          then [Fate(e.dropped, t, Rejected(Gone(id)))]
                          else Log(s, t))
      && s.replies.Keys <= s'.replies.Keys
      && Log(s', e.input.command.reply) ==
         [Fate(e.dropped, e.input.command.reply, DeletedReply(cfg, s, id, e.input.call))]
  {
    hide AfterDelete, TeardownError;
    var s1 := Submit(Awake(s, e.wait), e.input.command.reply);
    assert s1.connections == s.connections;
    forall t | t in s.replies ensures Log(s1, t) == Log(s, t) {
    }
    DeleteEffect(cfg, s1, e.dropped, id, e.input.call);
  }

  /** What deletes of `id` have done since `start`: nothing at all before the first that
      succeeded, whose receivers `dropped` are given; then exactly that death. */
  ghost predicate DeletedSince(start: State, s: State, id: Id, dropped: Option<set<Ticket>>)
    requires id in start.connections
  {
    && Linear(s) && start.replies.Keys <= s.replies.Keys
    && s.connections == (if dropped.Some? then start.connections - {id} else start.connections)
    && (start.connections[id].Waiter().Some? ==>
          var t := start.connections[id].Waiter().value;
          && t in s.replies
          && Log(s, t) == if dropped.Some? then [Fate(dropped.value, t, Rejected(Gone(id)))] else [])
  }

  lemma OneMoreDelete(cfg: Config, start: State, s: State, e: Event, id: Id, dropped: Option<set<Ticket>>)
    requires e.input.Handle? && e.input.command.RemoveConnection? && e.input.command.id == id
    requires Admissible(s, e) && id in start.connections && DeletedSince(start, s, id, dropped)
    ensures DeletedSince(start, Step(cfg, s, e), id,
                         if dropped.Some? then dropped else if TearsDown(cfg, e) then Some(e.dropped) else None)
  {
    hide Step;
    StepKeepsLinear(cfg, s, e);
    DeleteStep(cfg, s, e, id);
    if dropped.Some? {
      assert s.connections - {id} == s.connections;
    }
  }

  function DroppedAt(events: seq<Event>, first: Option<nat>): Option<set<Ticket>>
    requires first.Some? ==> first.value < |events|
  {
    if first.Some? then Some(events[first.value].dropped) else None
  }

  /** DELETE idempotence over any sequence of deletes of one live id with arbitrary teardown
      failures: up to the first teardown that succeeds the map and the parked waiter are
      exactly as they were; that delete ends the session and tells the waiter `Gone`, once;
      all later ones change nothing. */
  lemma {:induction false} DeletesActOnce(cfg: Config, start: State, events: seq<Event>, id: Id, n: nat)
    requires Linear(start) && id in start.connections
    requires OnlyDeletes(events, id) && Possible(cfg, start, events) && n <= |events|
    ensures DeletedSince(start, At(cfg, start, events, n), id, DroppedAt(events, FirstSuccess(cfg, events, n)))
  {
    hide At, DeletedSince, FirstSuccess, OnlyDeletes, Possible;
    if n > 0 {
      DeletesActOnce(cfg, start, events, id, n - 1);
      OneMoreDeleteAt(cfg, start, events, id, n - 1);
    } else {
      NoDeleteYet(cfg, start, events, id);
    }
  }

  lemma OneMoreDeleteAt(cfg: Config, start: State, events: seq<Event>, id: Id, n: nat)
    requires id in start.connections && OnlyDeletes(events, id) && Possible(cfg, start, events) && n < |events|
    requires DeletedSince(start, At(cfg, start, events, n), id, DroppedAt(events, FirstSuccess(cfg, events, n)))
    ensures DeletedSince(start, At(cfg, start, events, n + 1), id, DroppedAt(events, FirstSuccess(cfg, events, n + 1)))
  {
    hide Step, DeletedSince;
    OneMoreDelete(cfg, start, At(cfg, start, events, n), events[n], id,
          DroppedAt(events, FirstSuccess(cfg, events, n)));
  }

  lemma NoDeleteYet(cfg: Config, start: State, events: seq<Event>, id: Id)
    requires Linear(start) && id in start.connections && OnlyDeletes(events, id)
    ensures DeletedSince(start, At(cfg, start, events, 0), id, DroppedAt(events, FirstSuccess(cfg, events, 0)))
  {
  }

  /** The answers they get: server errors up to the first success, 200 for it and for no
      other, 204 ever after. */
  lemma DeletesAnswer(cfg: Config, start: State, events: seq<Event>, id: Id, n: nat)
    requires Linear(start) && id in start.connections
    requires OnlyDeletes(events, id) && Possible(cfg, start, events) && n < |events|
    ensures
      Response(cfg, start, events, id, n) ==
      if FirstSuccess(cfg, events, n).Some? then 204
      else if TearsDown(cfg, events[n]) then 200
      else Status(TeardownError(cfg, events[n].input.call).value)
    ensures FirstSuccess(cfg, events, n).None? && !TearsDown(cfg, events[n]) ==>
            Response(cfg, start, events, id, n) >= 500
  {
    hide Step, At, FirstSuccess;
    DeletesActOnce(cfg, start, events, id, n);
    TeardownErrorsAreNotFoundFree(cfg, events[n].input.call);
  }

  /** A failed teardown is answered with a server error, never with 204. */
  lemma TeardownErrorsAreNotFoundFree(cfg: Config, call: Call)
    ensures TeardownError(cfg, call).Some? ==> Status(TeardownError(cfg, call).value) >= 500
  {
  }

  /** At most one delete of a run is answered 200, and none after the first. */
  lemma AtMostOneOk(cfg: Config, start: State, events: seq<Event>, id: Id, i: nat, j: nat)
    requires Linear(start) && OnlyDeletes(events, id) && Possible(cfg, start, events) && i < j < |events|
    requires Response(cfg, start, events, id, i) == 200
    ensures Response(cfg, start, events, id, j) == 204
  {
    hide Step;
    if id in start.connections {
      DeletesAnswer(cfg, start, events, id, i);
      DeletesAnswer(cfg, start, events, id, j);
    } else {
      DeletesOfUnknown(cfg, start, events, id, i);
      DeletesOfUnknown(cfg, start, events, id, j);
    }
  }

  /** A session that never was: every delete is a no-op answered 204. */
  lemma {:induction false} DeletesOfUnknown(cfg: Config, start: State, events: seq<Event>, id: Id, n: nat)
    requires Linear(start) && id !in start.connections
    requires OnlyDeletes(events, id) && Possible(cfg, start, events) && n <= |events|
    ensures Linear(At(cfg, start, events, n)) && At(cfg, start, events, n).connections == start.connections
    ensures n < |events| ==> Response(cfg, start, events, id, n) == 204
  {
    hide At, Linear, Possible;
    if n > 0 {
      DeletesOfUnknown(cfg, start, events, id, n - 1);
      OneMoreUnknown(cfg, start, events, id, n - 1);
    } else {
      assert At(cfg, start, events, 0) == start by {
        NothingYet(cfg, start, events);
      }
    }
  }

  lemma NothingYet(cfg: Config, start: State, events: seq<Event>)
    ensures At(cfg, start, events, 0) == start
  {
  }

  lemma OneMoreUnknown(cfg: Config, start: State, events: seq<Event>, id: Id, n: nat)
    requires OnlyDeletes(events, id) && Possible(cfg, start, events) && n < |events|
    requires Linear(At(cfg, start, events, n)) && id !in At(cfg, start, events, n).connections
    ensures Linear(At(cfg, start, events, n + 1))
    ensures At(cfg, start, events, n + 1).connections == At(cfg, start, events, n).connections
  {
    hide Step, Linear;
    var s := At(cfg, start, events, n);
    StepKeepsLinear(cfg, s, events[n]);
    DeleteStep(cfg, s, events[n], id);
    assert s.connections - {id} == s.connections;
  }
}
