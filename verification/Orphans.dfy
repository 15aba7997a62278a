/** The branches a run leaves behind: which ids stay in the pipeline without an entry. */
module Orphans {
  import opened Health
  import opened Signaling
  import opened Invariants
  import opened Lifecycle

  /** The teardown an event performs for `id` succeeds. */
  predicate TornDown(cfg: Config, e: Event, id: Id) {
    match e.input
    case Handle(_, call) => TeardownError(cfg, call).None?
    case ReapBranch(_, call) => TeardownError(cfg, call).None?
    case SweepTick(_, teardowns) => TeardownError(cfg, TeardownOf(teardowns, id)).None?
  }

  ghost predicate OrphanRule(cfg: Config, s: State, e: Event, s': State) {
    forall id :: id in s'.orphans <==>
                 Entry(s', id).None? && if id in s.connections then !TornDown(cfg, e, id) else id in s.orphans
  }

  lemma AfterExpiryOrphans(cfg: Config, s: State, dropped: set<Ticket>, id: Id, call: Call)
    requires Agreed(s, {}) && Trips(AfterExpiry(cfg, s, dropped, id, call).health) == Trips(s.health)
    ensures
      AfterExpiry(cfg, s, dropped, id, call).orphans ==
      s.orphans + if id in s.connections && TeardownError(cfg, call).Some? then {id} else {}
  {
    hide Blame, Burst, Trips, Failures;
    if id in s.connections {
      var c := s.connections[id];
      BlameShape(cfg, Abandon(cfg, Fail(Take(s, id), dropped, c, c.ExpiryError()), id, call), dropped);
    }
  }

  lemma ExpireEachOrphans(cfg: Config, s: State, dropped: set<Ticket>, ids: seq<Id>, teardowns: map<Id, Call>)
    requires Sane(cfg, s, {}) && Trips(ExpireEach(cfg, s, dropped, ids, teardowns).health) == Trips(s.health)
    ensures forall id :: id in ExpireEach(cfg, s, dropped, ids, teardowns).orphans <==>
                         id in s.orphans
                           || (id in ids && id in s.connections && TeardownError(cfg, TeardownOf(teardowns, id)).Some?)
  {
    hide AfterExpiry;
    if ids == [] {
    } else {
      var n := |ids| - 1;
      var x, call := ids[n], TeardownOf(teardowns, ids[n]);
      var mid := ExpireEach(cfg, s, dropped, ids[..n], teardowns);
      assert ids == ids[..n] + [x];
      ExpireEachShape(cfg, s, dropped, ids[..n], teardowns);
      ExpireEachIsSane(cfg, s, dropped, ids[..n], teardowns);
      AfterExpiryShape(cfg, mid, dropped, x, call);
      ExpireEachOrphans(cfg, s, dropped, ids[..n], teardowns);
      AfterExpiryOrphans(cfg, mid, dropped, x, call);
    }
  }

  lemma SweepOrphans(cfg: Config, s: State, e: Event)
    requires Inv(cfg, s) && Admissible(s, e) && e.input.SweepTick? && !Tripping(cfg, s, e)
    ensures OrphanRule(cfg, s, e, Step(cfg, s, e))
  {
    hide ExpireEach, Honest, Booked, DeadlinesNear, AttachError, TeardownError, ExpiredOf;
    var s0 := Awake(s, e.wait);
    var ids := ExpiredOf(s0.connections, s0.clock, e.input.iteration);
    SweepIsPerViewer(cfg, s, e);
    ExpiredOfMembers(s0.connections, s0.clock, e.input.iteration);
    OnlyRepliesIsSane(cfg, s, s0);
    ExpireEachOrphans(cfg, s0, e.dropped, ids, e.input.teardowns);
  }

  lemma OfferOrphans(cfg: Config, s: State, dropped: set<Ticket>, id: Id, sdp: string, t: Ticket, call: Call)
    requires Agreed(s, {})
    ensures
      var s' := Offered(cfg, s, dropped, id, sdp, t, call);
      Trips(s'.health) == Trips(s.health) ==>
        s'.orphans ==
        s.orphans + if id in s.connections && id !in s'.connections && TeardownError(cfg, call).Some? then {id} else {}
  {
    hide Blame, Burst, Trips, Failures;
    if id in s.connections && s.connections[id].AwaitingOffer? && s.connections[id].whepReply in dropped {
      var s1 := Send(Send(Take(s, id), dropped, s.connections[id].whepReply, Offer(sdp)), dropped, t,
            Rejected(Gone(id)));
      BlameShape(cfg, Abandon(cfg, s1, id, call), dropped);
    }
  }

  lemma AnswerOrphans(cfg: Config, s: State, dropped: set<Ticket>, id: Id, sdp: string, t: Ticket, call: Call)
    requires Agreed(s, {})
    ensures
      var s' := Answered(cfg, s, dropped, id, sdp, t, call);
      Trips(s'.health) == Trips(s.health) ==>
        s'.orphans ==
        s.orphans + if id in s.connections && id !in s'.connections && TeardownError(cfg, call).Some? then {id} else {}
  {
    hide Blame, Burst, Trips, Failures;
    if id in s.connections && s.connections[id].AwaitingAnswer? && s.connections[id].whipReply in dropped {
      var s1 := Send(Send(Take(s, id), dropped, s.connections[id].whipReply, Answer(sdp)), dropped, t,
            Rejected(Gone(id)));
      BlameShape(cfg, Abandon(cfg, s1, id, call), dropped);
    }
  }

  lemma CreatedOrphans(cfg: Config, s: State, dropped: set<Ticket>, id: Id, t: Ticket, call: Call)
    ensures Created(cfg, s, dropped, id, t, call).orphans ==
            s.orphans - if id !in s.connections && AttachError(cfg, call).None? then {id} else {}
  {
  }

  lemma GoneOrphans(cfg: Config, s: State, dropped: set<Ticket>, id: Id, call: Call)
    ensures AfterDelete(cfg, s, dropped, id, call).orphans ==
            s.orphans - if id in s.connections && TeardownError(cfg, call).None? then {id} else {}
    ensures AfterReap(cfg, s, dropped, id, call).orphans ==
            if id !in s.connections then s.orphans
            else if TeardownError(cfg, call).Some? then s.orphans + {id}
            else s.orphans - {id}
  {
  }

  lemma QuietOrphans(cfg: Config, s: State, e: Event)
    requires Agreed(s, {}) && !e.input.SweepTick?
             && !(e.input.Handle? && (e.input.command.OfferReceived? || e.input.command.AnswerReceived?))
    requires !(e.input.Handle? && e.input.command.Reset?)
    ensures OrphanRule(cfg, s, e, Step(cfg, s, e))
  {
    hide Created, Offered, Answered, AfterDelete, AfterReap, ExpireEach, ResetAll, AttachError, TeardownError;
    var s0 := Awake(s, e.wait);
    match e.input
    case Handle(CreateConnection(id, t), call) =>
      CreatedShape(cfg, Submit(s0, t), e.dropped, id, t, call);
      CreatedOrphans(cfg, Submit(s0, t), e.dropped, id, t, call);
    case Handle(RemoveConnection(id, t), call) =>
      GoneShape(cfg, Submit(s0, t), e.dropped, id, call);
      GoneOrphans(cfg, Submit(s0, t), e.dropped, id, call);
    case ReapBranch(id, call) =>
      GoneShape(cfg, s0, e.dropped, id, call);
      GoneOrphans(cfg, s0, e.dropped, id, call);
    case _ =>
  }

  lemma OfferOrphanRule(cfg: Config, s: State, e: Event)
    requires Agreed(s, {}) && e.input.Handle? && e.input.command.OfferReceived? && !Tripping(cfg, s, e)
    ensures OrphanRule(cfg, s, e, Step(cfg, s, e))
  {
    hide Created, Offered, Answered, ExpireEach, AfterReap, AfterDelete, ResetAll;
    var OfferReceived(id, sdp, t) := e.input.command;
    var s1 := Submit(Awake(s, e.wait), t);
    OfferOrphans(cfg, s1, e.dropped, id, sdp, t, e.input.call);
    OfferedShape(cfg, s1, e.dropped, id, sdp, t, e.input.call);
  }

  lemma AnswerOrphanRule(cfg: Config, s: State, e: Event)
    requires Agreed(s, {}) && e.input.Handle? && e.input.command.AnswerReceived? && !Tripping(cfg, s, e)
    ensures OrphanRule(cfg, s, e, Step(cfg, s, e))
  {
    hide Created, Offered, Answered, ExpireEach, AfterReap, AfterDelete, ResetAll;
    var AnswerReceived(id, sdp, t) := e.input.command;
    var s1 := Submit(Awake(s, e.wait), t);
    AnswerOrphans(cfg, s1, e.dropped, id, sdp, t, e.input.call);
    AnsweredShape(cfg, s1, e.dropped, id, sdp, t, e.input.call);
  }

  /** Map and branches: unless a reset or a trip drains the map, an id is in the pipeline
      without an entry exactly if its entry ended in this step with a teardown that failed
      or timed out, or it was orphaned before and has not been created anew. */
  lemma OrphansAreFailedTeardowns(cfg: Config, s: State, e: Event)
    requires Inv(cfg, s) && Admissible(s, e) && !Wholesale(cfg, s, e)
    ensures OrphanRule(cfg, s, e, Step(cfg, s, e))
    ensures forall id :: id in Step(cfg, s, e).attached && id !in Step(cfg, s, e).connections <==>
            id in Step(cfg, s, e).orphans
  {
    hide Step, OrphanRule;
    StepKeepsInv(cfg, s, e);
    match e.input
    case Handle(OfferReceived(_, _, _), _) => OfferOrphanRule(cfg, s, e);
    case Handle(AnswerReceived(_, _, _), _) => AnswerOrphanRule(cfg, s, e);
    case SweepTick(_, _) => SweepOrphans(cfg, s, e);
    case _ => QuietOrphans(cfg, s, e);
  }

  /** A reset or a trip orphans whatever is left: afterwards no entry remains, so every
      attached branch is an orphan. */
  lemma DrainOrphansTheRest(cfg: Config, s: State, e: Event)
    requires Inv(cfg, s) && Admissible(s, e) && Wholesale(cfg, s, e)
    ensures Step(cfg, s, e).connections == map[] && Step(cfg, s, e).attached == Step(cfg, s, e).orphans
  {
    hide Step;
    StepIsPerViewer(cfg, s, e);
    StepKeepsInv(cfg, s, e);
  }

  /* ----- the calls of a step ----- */

  ghost predicate OnlyRemoves(s: State, s': State) {
    s.calls <= s'.calls && forall k :: |s.calls| <= k < |s'.calls| ==> s'.calls[k].RemoveBranch?
  }

  lemma AfterExpiryRemoves(cfg: Config, s: State, dropped: set<Ticket>, id: Id, call: Call)
    ensures OnlyRemoves(s, AfterExpiry(cfg, s, dropped, id, call))
  {
    hide Blame, Trips, Failures;
    if id in s.connections {
      var c := s.connections[id];
      BlameShape(cfg, Abandon(cfg, Fail(Take(s, id), dropped, c, c.ExpiryError()), id, call), dropped);
    }
  }

  lemma {:induction false} ExpireEachRemoves(
      cfg: Config, s: State, dropped: set<Ticket>, ids: seq<Id>, teardowns: map<Id, Call>)
    ensures OnlyRemoves(s, ExpireEach(cfg, s, dropped, ids, teardowns))
  {
    hide AfterExpiry;
    if ids == [] {
    } else {
      var n := |ids| - 1;
      ExpireEachRemoves(cfg, s, dropped, ids[..n], teardowns);
      var mid := ExpireEach(cfg, s, dropped, ids[..n], teardowns);
      AfterExpiryRemoves(cfg, mid, dropped, ids[n], TeardownOf(teardowns, ids[n]));
    }
  }

  lemma OfferRemoves(cfg: Config, s: State, dropped: set<Ticket>, id: Id, sdp: string, t: Ticket, call: Call)
    ensures OnlyRemoves(s, Offered(cfg, s, dropped, id, sdp, t, call))
  {
    hide Blame, Trips, Failures;
    if id in s.connections && s.connections[id].AwaitingOffer? && s.connections[id].whepReply in dropped {
      var told := Send(Take(s, id), dropped, s.connections[id].whepReply, Offer(sdp));
      BlameShape(cfg, Abandon(cfg, Send(told, dropped, t, Rejected(Gone(id))), id, call), dropped);
    }
  }

  lemma AnswerRemoves(cfg: Config, s: State, dropped: set<Ticket>, id: Id, sdp: string, t: Ticket, call: Call)
    ensures OnlyRemoves(s, Answered(cfg, s, dropped, id, sdp, t, call))
  {
    hide Blame, Trips, Failures;
    if id in s.connections && s.connections[id].AwaitingAnswer? && s.connections[id].whipReply in dropped {
      var told := Send(Take(s, id), dropped, s.connections[id].whipReply, Answer(sdp));
      BlameShape(cfg, Abandon(cfg, Send(told, dropped, t, Rejected(Gone(id))), id, call), dropped);
    }
  }

  /** Whether a step calls `add_branch` for `id`. */
  predicate Creates(s: State, e: Event, id: Id) {
    e.input.Handle? && e.input.command.CreateConnection? && e.input.command.id == id && id !in s.connections
  }

  lemma CreateCalls(cfg: Config, s: State, dropped: set<Ticket>, id: Id, t: Ticket, call: Call)
    ensures Created(cfg, s, dropped, id, t, call).calls ==
            s.calls + if id in s.connections then [] else [AddBranch(id, call)]
  {
  }

  lemma DeathRemoves(cfg: Config, s: State, dropped: set<Ticket>, id: Id, call: Call)
    ensures OnlyRemoves(s, AfterDelete(cfg, s, dropped, id, call))
    ensures OnlyRemoves(s, AfterReap(cfg, s, dropped, id, call))
  {
  }

  /** The `add_branch` calls of a step: exactly one, if it handles a create for an id that is
      not in the map, and otherwise none. */
  lemma AddsAreForAbsentIds(cfg: Config, s: State, e: Event)
    ensures
      var s' := Step(cfg, s, e);
      && s.calls <= s'.calls
      && forall k, id :: |s.calls| <= k < |s'.calls| && s'.calls[k].AddBranch? && s'.calls[k].id == id ==>
         Creates(s, e, id)
    ensures forall id :: Creates(s, e, id) ==> Step(cfg, s, e).calls == s.calls + [AddBranch(id, e.input.call)]
  {
    hide Created, Offered, Answered, AfterDelete, AfterReap, ExpireEach, AttachError, TeardownError;
    var s0 := Awake(s, e.wait);
    match e.input
    case Handle(CreateConnection(id, t), call) => CreateCalls(cfg, Submit(s0, t), e.dropped, id, t, call);
    case Handle(OfferReceived(id, sdp, t), call) => OfferRemoves(cfg, Submit(s0, t), e.dropped, id, sdp, t, call);
    case Handle(AnswerReceived(id, sdp, t), call) => AnswerRemoves(cfg, Submit(s0, t), e.dropped, id, sdp, t, call);
    case Handle(RemoveConnection(id, t), call) => DeathRemoves(cfg, Submit(s0, t), e.dropped, id, call);
    case Handle(_, _) =>
    case ReapBranch(id, call) => DeathRemoves(cfg, s0, e.dropped, id, call);
    case SweepTick(iteration, teardowns) =>
      ExpireEachRemoves(cfg, s0, e.dropped, ExpiredOf(s0.connections, s0.clock, iteration), teardowns);
  }

  /** `add_branch` is never called for an id in the map: in every run, each such call was made
      by a create for an id that had no entry then. */
  lemma {:induction false} LiveIdsAreNeverAttachedAgain(cfg: Config, events: seq<Event>, n: nat, k: nat)
    requires n <= |events| && k < |At(cfg, INITIAL, events, n).calls| && At(cfg, INITIAL, events, n).calls[k].AddBranch?
    ensures exists i :: 0 <= i < n && |At(cfg, INITIAL, events, i).calls| == k
                        && Creates(At(cfg, INITIAL, events, i), events[i], At(cfg, INITIAL, events, n).calls[k].id)
  {
    hide Step, Creates;
    if n == 0 {
      assert false;
    } else {
      var s := At(cfg, INITIAL, events, n - 1);
      AddsAreForAbsentIds(cfg, s, events[n - 1]);
      if k < |s.calls| {
        LiveIdsAreNeverAttachedAgain(cfg, events, n - 1, k);
      } else {
        OneAddAtMost(cfg, s, events[n - 1], At(cfg, INITIAL, events, n).calls[k].id);
      }
    }
  }

  lemma OneAddAtMost(cfg: Config, s: State, e: Event, id: Id)
    requires Creates(s, e, id)
    ensures |Step(cfg, s, e).calls| == |s.calls| + 1
  {
    hide Step;
    AddsAreForAbsentIds(cfg, s, e);
  }

  /** A create naming a live id makes no call, costs no time and is answered `WrongState`,
      however the pipeline would have behaved. */
  lemma CreatesOfLiveIdsAreRefused(cfg: Config, s: State, e: Event)
    requires Admissible(s, e) && e.input.Handle? && e.input.command.CreateConnection?
             && e.input.command.id in s.connections
    ensures
      var s', t := Step(cfg, s, e), e.input.command.reply;
      && s'.calls == s.calls && s'.clock == s.clock + e.wait && s'.connections == s.connections
      && s'.attached == s.attached
      && Log(s', t) == [Fate(e.dropped, t, Rejected(WrongState(e.input.command.id)))]
  {
    hide Offered, Answered, ExpireEach, ResetAll, AfterDelete;
  }
}
