/** The shared map seen from one viewer: except at a reset or a watchdog trip, the whole
    actor behaves as one small automaton per connection id. */
module Lifecycle {
  import opened Prelude
  import opened Health
  import opened Signaling

  function Entry(s: State, id: Id): Option<Connection> {
    if id in s.connections then Some(s.connections[id]) else None
  }

  /** The automaton of one id: what an event does to its entry when nothing wholesale
      happens. */
  function NextEntry(cfg: Config, now: Instant, e: Event, id: Id, c: Option<Connection>): Option<Connection> {
    match e.input
    case Handle(CreateConnection(i, t), call) =>
      if i == id && c.None? && AttachError(cfg, call).None?
      then Some(AwaitingOffer(t, now + call.lock + call.attach + cfg.offerTimeout))
      else c
    case Handle(OfferReceived(i, _, t), _) =>
      if i == id && c.Some? && c.value.AwaitingOffer? then
        if c.value.whepReply in e.dropped then None else Some(AwaitingAnswer(t, now + cfg.answerTimeout))
      else c
    case Handle(AnswerReceived(i, _, _), _) =>
      if i == id && c.Some? && c.value.AwaitingAnswer? then
        if c.value.whipReply in e.dropped then None else Some(Established(now))
      else c
    case Handle(RemoveConnection(i, _), call) => if i == id && TeardownError(cfg, call).None? then None else c
    case Handle(ListConnections(_), _) => c
    case Handle(Reset(_), _) => None
    case ReapBranch(i, _) => if i == id then None else c
    case SweepTick(_, _) => if c.Some? && !c.value.Established? && c.value.deadline <= now then None else c
  }

  /** The watchdog tripped in this step. */
  ghost predicate Tripping(cfg: Config, s: State, e: Event) {
    Trips(Step(cfg, s, e).health) > Trips(s.health)
  }

  ghost predicate Wholesale(cfg: Config, s: State, e: Event) {
    Tripping(cfg, s, e) || (e.input.Handle? && e.input.command.Reset?)
  }

  lemma BlameShape(cfg: Config, s: State, dropped: set<Ticket>)
    ensures
      var b := Blame(cfg, s, dropped);
      && Failures(b.health) == Failures(s.health) + 1
      && b.clock == s.clock && b.calls == s.calls
      && (|| (Trips(b.health) == Trips(s.health) && b == s.(health := b.health))
          || (Trips(b.health) == Trips(s.health) + 1 && b.connections == map[] && b.restart == TrySend(s.restart)))
  {
    hide Burst, Trips, Failures;
    Appended(s.health, FailureEvent(cfg, s));
  }

  /** Between `s` and `s'` either exactly `gone` has left and the restart channel is as
      it was, or the watchdog tripped once, everybody has left and one restart was requested. */
  ghost predicate Shrunk(s: State, s': State, gone: set<Id>) {
    || (Trips(s'.health) == Trips(s.health) && s'.restart == s.restart && s'.connections == s.connections - gone)
    || (Trips(s'.health) == Trips(s.health) + 1 && s'.restart == TrySend(s.restart) && s'.connections == map[])
  }

  lemma AfterExpiryShape(cfg: Config, s: State, dropped: set<Ticket>, id: Id, call: Call)
    ensures
      var s' := AfterExpiry(cfg, s, dropped, id, call);
      && Shrunk(s, s', {id})
      && Failures(s'.health) == Failures(s.health) + (if id in s.connections then 1 else 0)
      && s.clock <= s'.clock <= s.clock + cfg.teardownTimeout
      && (id !in s.connections ==> s' == s)
  {
    hide Blame, Burst, Trips, Failures;
    if id in s.connections {
      var c := s.connections[id];
      var torn := Abandon(cfg, Fail(Take(s, id), dropped, c, c.ExpiryError()), id, call);
      BlameShape(cfg, torn, dropped);
    } else {
      assert s.connections == s.connections - {id};
    }
  }

  lemma ShrunkTwice(s: State, mid: State, s': State, gone: set<Id>, id: Id)
    requires Shrunk(s, mid, gone) && Shrunk(mid, s', {id}) && (id !in mid.connections ==> s' == mid)
    ensures Shrunk(s, s', gone + {id})
  {
    assert s.connections - gone - {id} == s.connections - (gone + {id});
  }

  /** Terminating ids one after the other: without a trip exactly they are gone; a trip
      happens at most once, empties the map and makes the rest no-ops. */
  lemma ExpireEachShape(cfg: Config, s: State, dropped: set<Ticket>, ids: seq<Id>, teardowns: map<Id, Call>)
    ensures
      var s' := ExpireEach(cfg, s, dropped, ids, teardowns);
      && Shrunk(s, s', (set id | id in ids))
      && Failures(s'.health) <= Failures(s.health) + |ids|
  {
    hide AfterExpiry;
    if ids == [] {
      assert s.connections == s.connections - (set id | id in ids);
    } else {
      var n := |ids| - 1;
      var mid := ExpireEach(cfg, s, dropped, ids[..n], teardowns);
      ExpireEachShape(cfg, s, dropped, ids[..n], teardowns);
      AfterExpiryShape(cfg, mid, dropped, ids[n], TeardownOf(teardowns, ids[n]));
      var s' := AfterExpiry(cfg, mid, dropped, ids[n], TeardownOf(teardowns, ids[n]));
      ShrunkTwice(s, mid, s', (set id | id in ids[..n]), ids[n]);
      assert ids == ids[..n] + [ids[n]];
      assert (set id | id in ids) == (set id | id in ids[..n]) + {ids[n]};
    }
  }

  lemma {:induction false} ExpiredOfMembers(connections: map<Id, Connection>, now: Instant, iteration: seq<Id>)
    ensures forall id :: id in ExpiredOf(connections, now, iteration) <==>
                         id in iteration && id in connections && connections[id].ExpiredAt(now)
    ensures |ExpiredOf(connections, now, iteration)| <= |iteration|
  {
    if iteration == [] {
    } else {
      var n := |iteration| - 1;
      assert iteration == iteration[..n] + [iteration[n]];
      ExpiredOfMembers(connections, now, iteration[..n]);
    }
  }

  lemma OfferedShape(cfg: Config, s: State, dropped: set<Ticket>, id: Id, sdp: string, t: Ticket, call: Call)
    ensures
      var s' := Offered(cfg, s, dropped, id, sdp, t, call);
      var lost := id in s.connections && s.connections[id].AwaitingOffer? && s.connections[id].whepReply in dropped;
      if !lost then
        && s'.health == s.health && s'.restart == s.restart
        && s'.connections == if id in s.connections && s.connections[id].AwaitingOffer?
                             then s.connections[id := AwaitingAnswer(t, s.clock + cfg.answerTimeout)]
                             else s.connections
      else
        && Failures(s'.health) == Failures(s.health) + 1
        && Shrunk(s, s', {id})
  {
    hide Blame, Burst, Trips, Failures;
    if id in s.connections && s.connections[id].AwaitingOffer? && s.connections[id].whepReply in dropped {
      var s1 := Send(Send(Take(s, id), dropped, s.connections[id].whepReply, Offer(sdp)), dropped, t,
            Rejected(Gone(id)));
      BlameShape(cfg, Abandon(cfg, s1, id, call), dropped);
    }
  }

  lemma AnsweredShape(cfg: Config, s: State, dropped: set<Ticket>, id: Id, sdp: string, t: Ticket, call: Call)
    ensures
      var s' := Answered(cfg, s, dropped, id, sdp, t, call);
      var lost := id in s.connections && s.connections[id].AwaitingAnswer? && s.connections[id].whipReply in dropped;
      if !lost then
        && Failures(s'.health) == Failures(s.health) && Trips(s'.health) == Trips(s.health) && s'.restart == s.restart
        && s'.connections == if id in s.connections && s.connections[id].AwaitingAnswer?
                             then s.connections[id := Established(s.clock)]
                             else s.connections
      else
        && Failures(s'.health) == Failures(s.health) + 1
        && Shrunk(s, s', {id})
  {
    hide Blame, Burst, Trips, Failures;
    Appended(s.health, Succeeded);
    if id in s.connections && s.connections[id].AwaitingAnswer? && s.connections[id].whipReply in dropped {
      var s1 := Send(Send(Take(s, id), dropped, s.connections[id].whipReply, Answer(sdp)), dropped, t,
            Rejected(Gone(id)));
      BlameShape(cfg, Abandon(cfg, s1, id, call), dropped);
    }
  }

  /** The automaton of every id, taken one step from `s` to `s'`. */
  ghost predicate EachOnItsOwn(cfg: Config, s: State, e: Event, s': State) {
    forall id :: Entry(s', id) == NextEntry(cfg, s.clock + e.wait, e, id, Entry(s, id))
  }

  lemma OfferIsPerViewer(cfg: Config, s: State, e: Event)
    requires e.input.Handle? && e.input.command.OfferReceived?
    ensures Tripping(cfg, s, e) ==> Step(cfg, s, e).connections == map[]
    ensures !Tripping(cfg, s, e) ==> EachOnItsOwn(cfg, s, e, Step(cfg, s, e))
  {
    hide Created, Offered, Answered, ExpireEach, AfterReap, AfterDelete, ResetAll;
    var OfferReceived(id, sdp, t) := e.input.command;
    var s1 := Submit(Awake(s, e.wait), t);
    OfferedShape(cfg, s1, e.dropped, id, sdp, t, e.input.call);
  }

  lemma AnswerIsPerViewer(cfg: Config, s: State, e: Event)
    requires e.input.Handle? && e.input.command.AnswerReceived?
    ensures Tripping(cfg, s, e) ==> Step(cfg, s, e).connections == map[]
    ensures !Tripping(cfg, s, e) ==> EachOnItsOwn(cfg, s, e, Step(cfg, s, e))
  {
    hide Created, Offered, Answered, ExpireEach, AfterReap, AfterDelete, ResetAll;
    var AnswerReceived(id, sdp, t) := e.input.command;
    var s1 := Submit(Awake(s, e.wait), t);
    AnsweredShape(cfg, s1, e.dropped, id, sdp, t, e.input.call);
  }

  lemma SweepIsPerViewer(cfg: Config, s: State, e: Event)
    requires e.input.SweepTick? && Admissible(s, e)
    ensures Shrunk(s, Step(cfg, s, e), set id | id in s.connections && s.connections[id].ExpiredAt(s.clock + e.wait))
    ensures Tripping(cfg, s, e) ==> Step(cfg, s, e).connections == map[]
    ensures !Tripping(cfg, s, e) ==> EachOnItsOwn(cfg, s, e, Step(cfg, s, e))
  {
    hide ExpireEach;
    var s0 := Awake(s, e.wait);
    var ids := ExpiredOf(s0.connections, s0.clock, e.input.iteration);
    ExpiredOfMembers(s0.connections, s0.clock, e.input.iteration);
    ExpireEachShape(cfg, s0, e.dropped, ids, e.input.teardowns);
    assert (set id | id in ids) == (set id | id in s.connections && s.connections[id].ExpiredAt(s.clock + e.wait));
  }

  /** The refinement: each id follows its own automaton, and only a reset or a trip is
      felt by everybody, by emptying the map. */
  lemma StepIsPerViewer(cfg: Config, s: State, e: Event)
    requires Admissible(s, e)
    ensures Wholesale(cfg, s, e) ==> Step(cfg, s, e).connections == map[]
    ensures !Wholesale(cfg, s, e) ==> EachOnItsOwn(cfg, s, e, Step(cfg, s, e))
  {
    match e.input
    case Handle(OfferReceived(_, _, _), _) => OfferIsPerViewer(cfg, s, e);
    case Handle(AnswerReceived(_, _, _), _) => AnswerIsPerViewer(cfg, s, e);
    case SweepTick(_, _) => SweepIsPerViewer(cfg, s, e);
    case _ => QuietIsPerViewer(cfg, s, e);
  }

  lemma QuietIsPerViewer(cfg: Config, s: State, e: Event)
    requires e.input.ReapBranch?
             || (e.input.Handle? && !e.input.command.OfferReceived? && !e.input.command.AnswerReceived?)
    ensures !Tripping(cfg, s, e) && Failures(Step(cfg, s, e).health) == Failures(s.health)
            && Step(cfg, s, e).restart == s.restart
    ensures Wholesale(cfg, s, e) ==> Step(cfg, s, e).connections == map[]
    ensures !Wholesale(cfg, s, e) ==> EachOnItsOwn(cfg, s, e, Step(cfg, s, e))
  {
    hide Offered, Answered, ExpireEach, Created, AfterDelete, AfterReap, Trips, Failures, AttachError, TeardownError;
    Appended(s.health, Succeeded);
    var s0 := Awake(s, e.wait);
    match e.input
    case Handle(CreateConnection(id, t), call) => CreatedShape(cfg, Submit(s0, t), e.dropped, id, t, call);
    case Handle(RemoveConnection(id, t), call) => GoneShape(cfg, Submit(s0, t), e.dropped, id, call);
    case ReapBranch(id, call) => GoneShape(cfg, s0, e.dropped, id, call);
    case _ =>
  }

  lemma CreatedShape(cfg: Config, s: State, dropped: set<Ticket>, id: Id, t: Ticket, call: Call)
    ensures
      var s' := Created(cfg, s, dropped, id, t, call);
      && s'.health == s.health && s'.restart == s.restart
      && s'.connections == if id in s.connections || AttachError(cfg, call).Some? then s.connections
                           else var deadline := s.clock + call.lock + call.attach + cfg.offerTimeout;
                                s.connections[id := AwaitingOffer(t, deadline)]
  {
  }

  lemma GoneShape(cfg: Config, s: State, dropped: set<Ticket>, id: Id, call: Call)
    ensures
      var s' := AfterDelete(cfg, s, dropped, id, call);
      && s'.health == s.health && s'.restart == s.restart
      && s'.connections == if TeardownError(cfg, call).Some? then s.connections else s.connections - {id}
    ensures
      var s' := AfterReap(cfg, s, dropped, id, call);
      s'.health == s.health && s'.restart == s.restart && s'.connections == s.connections - {id}
  {
    if id !in s.connections {
      assert s.connections == s.connections - {id};
    }
  }

  /* ----- consequences ----- */

  /** How far along its life a connection is. */
  function Phase(c: Option<Connection>): nat {
    match c
    case None => 0
    case Some(AwaitingOffer(_, _)) => 1
    case Some(AwaitingAnswer(_, _)) => 2
    case Some(Established(_)) => 3
  }

  /** Each lifetime advances one phase at a time and never returns: in one step an
      entry stays exactly as it is, moves to the next phase, or goes. */
  lemma PhasesNeverSkip(cfg: Config, s: State, e: Event, id: Id)
    requires Admissible(s, e)
    ensures
      var before, after := Entry(s, id), Entry(Step(cfg, s, e), id);
      || after == before
      || Phase(after) == Phase(before) + 1
      || after == None
  {
    hide Step;
    StepIsPerViewer(cfg, s, e);
  }

  /** The id an event is about, if it is about one. */
  function Subject(input: Input): Option<Id> {
    match input
    case Handle(CreateConnection(id, _), _) => Some(id)
    case Handle(OfferReceived(id, _, _), _) => Some(id)
    case Handle(AnswerReceived(id, _, _), _) => Some(id)
    case Handle(RemoveConnection(id, _), _) => Some(id)
    case ReapBranch(id, _) => Some(id)
    case _ => None
  }

  /** Failure isolation: a step concerning one id leaves every other live entry, parked
      reply and deadline included, and a sweep every entry whose deadline has not passed. */
  lemma OthersAreUntouched(cfg: Config, s: State, e: Event, other: Id)
    requires Admissible(s, e) && !Wholesale(cfg, s, e)
    requires Subject(e.input) != Some(other)
    requires e.input.SweepTick? && other in s.connections ==> !s.connections[other].ExpiredAt(s.clock + e.wait)
    ensures Entry(Step(cfg, s, e), other) == Entry(s, other)
  {
    hide Step;
    StepIsPerViewer(cfg, s, e);
  }

  /** The events that can end an established connection. */
  ghost predicate EndsEstablished(cfg: Config, s: State, e: Event, id: Id) {
    || Wholesale(cfg, s, e)
    || (e.input.Handle? && e.input.command.RemoveConnection? && e.input.command.id == id
         && TeardownError(cfg, e.input.call).None?)
    || (e.input.ReapBranch? && e.input.branch == id)
  }

  /** An established viewer stays, untouched, unless one of them happens. */
  lemma EstablishedLeavesOnlySo(cfg: Config, s: State, e: Event, id: Id)
    requires Admissible(s, e) && id in s.connections && s.connections[id].Established?
    ensures id !in Step(cfg, s, e).connections <==> EndsEstablished(cfg, s, e, id)
    ensures id in Step(cfg, s, e).connections ==> Step(cfg, s, e).connections[id] == s.connections[id]
  {
    hide Step;
    StepIsPerViewer(cfg, s, e);
    assert Entry(s, id) == Some(s.connections[id]);
    assert Entry(Step(cfg, s, e), id).None? <==> id !in Step(cfg, s, e).connections;
  }

  ghost predicate EndsAt(cfg: Config, start: State, events: seq<Event>, k: int, id: Id) {
    0 <= k < |events| && EndsEstablished(cfg, At(cfg, start, events, k), events[k], id)
  }

  lemma StaysOrEnds(cfg: Config, start: State, events: seq<Event>, k: nat, id: Id)
    requires k < |events| && Admissible(At(cfg, start, events, k), events[k])
    requires Phase(Entry(At(cfg, start, events, k), id)) == 3
    ensures Entry(At(cfg, start, events, k + 1), id) == Entry(At(cfg, start, events, k), id)
            || EndsAt(cfg, start, events, k, id)
  {
    hide Step, EndsEstablished;
    EstablishedLeavesOnlySo(cfg, At(cfg, start, events, k), events[k], id);
  }

  /** Over a run: between a moment it was established and one where it is gone, its own
      delete, its own reap, a reset or a trip must have happened. */
  lemma {:induction false} EstablishedSurvivesRuns(
      cfg: Config, start: State, events: seq<Event>, i: nat, j: nat, id: Id)
    requires Possible(cfg, start, events) && i <= j <= |events|
    requires Phase(Entry(At(cfg, start, events, i), id)) == 3
    ensures
      || Entry(At(cfg, start, events, j), id) == Entry(At(cfg, start, events, i), id)
      || exists k :: i <= k < j && EndsAt(cfg, start, events, k, id)
    decreases j - i
  {
    hide At, Entry, EndsAt;
    if i == j {
    } else {
      EstablishedSurvivesRuns(cfg, start, events, i, j - 1, id);
      if Entry(At(cfg, start, events, j - 1), id) == Entry(At(cfg, start, events, i), id) {
        StaysOrEnds(cfg, start, events, j - 1, id);
      }
    }
  }
}
