/** What a pipeline call's course means for the client, the map, the branches and the clock,
    read off its raw times and error. */
module Outcomes {
  import opened Prelude
  import opened Signaling
  import opened Linearity
  import opened Invariants
  import opened Lifecycle
  import opened Orphans
  import opened Routes

  /** The reply to a pipeline call that failed so. */
  function ErrorReply(e: PipelineError): Reply {
    match e
    case InputNotReady => Rejected(NotReady)
    case Transient(msg) => Rejected(PipelineBusy(msg))
    case Fatal(msg) => Rejected(Pipeline(msg))
  }

  /** A create for a new id. Only waiting is ever cut off: for the lock, or in the detach after
      a failed attach. A synchronous attach that succeeds answers Ok however long it took. */
  lemma CreateOutcome(cfg: Config, s: State, e: Event)
    requires Linear(s) && Admissible(s, e) && e.input.Handle? && e.input.command.CreateConnection?
    requires e.input.command.id !in s.connections
    ensures
      var s', id, t := Step(cfg, s, e), e.input.command.id, e.input.command.reply;
      var Call(error, lock, attach, detach) := e.input.call;
      var max, now := cfg.teardownTimeout, s.clock + e.wait;
      if lock > max then
        && Log(s', t) == [Fate(e.dropped, t, Rejected(PipelineBusy("branch attach/cleanup timed out")))]
        && s'.connections == s.connections && s'.attached == s.attached && s'.clock == now + max
      else if error.None? then
        && Log(s', t) == []
        && s'.connections == s.connections[id := AwaitingOffer(t, s'.clock + cfg.offerTimeout)]
        && s'.attached == s.attached + {id} && s'.clock == now + lock + attach
      else if detach > 0 && lock + attach + detach > max then
        && Log(s', t) == [Fate(e.dropped, t, Rejected(PipelineBusy("branch attach/cleanup timed out")))]
        && s'.connections == s.connections && s'.attached == s.attached
        && s'.clock == now + if lock + attach < max then max else lock + attach
      else
        && Log(s', t) == [Fate(e.dropped, t, ErrorReply(error.value))]
        && s'.connections == s.connections && s'.attached == s.attached
        && s'.clock == now + lock + attach + detach
  {
    hide Offered, Answered, ExpireEach, AfterReap, AfterDelete, ResetAll;
  }

  /** A DELETE. Its teardown is cut off at the timeout, and then, as after any other failure,
      the entry and the branch stay; answered Done it has waited for all of the teardown. */
  lemma DeleteOutcome(cfg: Config, s: State, e: Event)
    requires Linear(s) && Admissible(s, e) && e.input.Handle? && e.input.command.RemoveConnection?
    ensures
      var s', id, t := Step(cfg, s, e), e.input.command.id, e.input.command.reply;
      var Call(error, lock, _, detach) := e.input.call;
      var max, now := cfg.teardownTimeout, s.clock + e.wait;
      var told := Log(s', t);
      if id !in s.connections then
        && told == [Fate(e.dropped, t, Rejected(NotFound(id)))]
        && s'.connections == s.connections && s'.attached == s.attached && s'.clock == now
      else if lock + detach > max then
        && told == [Fate(e.dropped, t, Rejected(PipelineBusy("branch teardown timed out")))]
        && s'.connections == s.connections && s'.attached == s.attached && s'.clock == now + max
      else if error.Some? then
        && told == [Fate(e.dropped, t, ErrorReply(error.value))]
        && s'.connections == s.connections && s'.attached == s.attached && s'.clock == now + lock + detach
      else
        && told == [Fate(e.dropped, t, Done)]
        && s'.connections == s.connections - {id} && s'.attached == s.attached - {id}
        && s'.clock == now + lock + detach
  {
    hide Created, Offered, Answered, ExpireEach, AfterReap, ResetAll;
    OwnIsNotParked(s, e.input.command.reply);
  }

  lemma OwnIsNotParked(s: State, t: Ticket)
    requires Linear(s) && t !in s.replies
    ensures !Waiting(s.connections, t)
  {
  }

  /** The status of that DELETE. */
  lemma DeleteStatus(cfg: Config, s: State, e: Event)
    requires e.input.Handle? && e.input.command.RemoveConnection?
    ensures
      var id := e.input.command.id;
      var Call(error, lock, _, detach) := e.input.call;
      DeleteResponse(DeletedReply(cfg, s, id, e.input.call)) ==
      if id !in s.connections then 204
      else if lock + detach > cfg.teardownTimeout then 503
      else match error
           case None => 200
           case Some(InputNotReady) => 503
           case Some(Transient(_)) => 503
           case Some(Fatal(_)) => 500
  {
  }

  /** How the teardown of `id` goes in this event. */
  function TeardownCall(e: Event, id: Id): Call {
    match e.input
    case Handle(_, call) => call
    case ReapBranch(_, call) => call
    case SweepTick(_, teardowns) => if id in teardowns then teardowns[id] else Call(None, 0, 0, 0)
  }

  /** Every other death leaves its branch behind exactly if the teardown failed or was cut
      off: a reap, an expiry, or a lost peer. */
  lemma DeathsOrphanExactly(cfg: Config, s: State, e: Event, id: Id)
    requires Inv(cfg, s) && Admissible(s, e) && !Wholesale(cfg, s, e)
    requires id in s.connections && id !in Step(cfg, s, e).connections
    ensures
      var Call(error, lock, _, detach) := TeardownCall(e, id);
      id in Step(cfg, s, e).orphans <==> lock + detach > cfg.teardownTimeout || error.Some?
  {
    hide Step, Wholesale, Inv, Admissible;
    OrphansAreFailedTeardowns(cfg, s, e);
  }

  /** How long a teardown takes. */
  function TeardownTakes(cfg: Config, call: Call): nat {
    if call.lock + call.detach > cfg.teardownTimeout then cfg.teardownTimeout else call.lock + call.detach
  }

  /** Exactly how long a delivery or a reap takes: nothing but the teardown it may need. */
  lemma DeathsTakeTheirTeardown(cfg: Config, s: State, e: Event)
    requires e.input.ReapBranch?
             || (e.input.Handle? && (e.input.command.OfferReceived? || e.input.command.AnswerReceived?))
    ensures
      var dies := match e.input
                  case ReapBranch(id, _) => id in s.connections
                  case Handle(OfferReceived(id, _, _), _) =>
                    Phase(Entry(s, id)) == 1 && s.connections[id].whepReply in e.dropped
                  case Handle(AnswerReceived(id, _, _), _) =>
                    Phase(Entry(s, id)) == 2 && s.connections[id].whipReply in e.dropped
                  case _ => false;
      Step(cfg, s, e).clock == s.clock + e.wait + if dies then TeardownTakes(cfg, e.input.call) else 0
  {
    hide Created, AfterDelete, ExpireEach, Blame, TeardownError;
    match e.input
    case ReapBranch(_, _) =>
    case Handle(OfferReceived(id, sdp, t), call) =>
      OfferTakes(cfg, Submit(Awake(s, e.wait), t), e.dropped, id, sdp, t, call);
    case Handle(AnswerReceived(id, sdp, t), call) =>
      AnswerTakes(cfg, Submit(Awake(s, e.wait), t), e.dropped, id, sdp, t, call);
  }

  lemma OfferTakes(cfg: Config, s: State, dropped: set<Ticket>, id: Id, sdp: string, t: Ticket, call: Call)
    ensures Offered(cfg, s, dropped, id, sdp, t, call).clock ==
            s.clock + if Phase(Entry(s, id)) == 1 && s.connections[id].whepReply in dropped
                      then TeardownTakes(cfg, call) else 0
  {
    hide Blame, TeardownError;
    if id in s.connections && s.connections[id].AwaitingOffer? {
      var told := Send(Take(s, id), dropped, s.connections[id].whepReply, Offer(sdp));
      BlameShape(cfg, Abandon(cfg, Send(told, dropped, t, Rejected(Gone(id))), id, call), dropped);
    }
  }

  lemma AnswerTakes(cfg: Config, s: State, dropped: set<Ticket>, id: Id, sdp: string, t: Ticket, call: Call)
    ensures Answered(cfg, s, dropped, id, sdp, t, call).clock ==
            s.clock + if Phase(Entry(s, id)) == 2 && s.connections[id].whipReply in dropped
                      then TeardownTakes(cfg, call) else 0
  {
    hide Blame, TeardownError;
    if id in s.connections && s.connections[id].AwaitingAnswer? {
      var told := Send(Take(s, id), dropped, s.connections[id].whipReply, Answer(sdp));
      BlameShape(cfg, Abandon(cfg, Send(told, dropped, t, Rejected(Gone(id))), id, call), dropped);
    }
  }
}
