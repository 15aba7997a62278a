/** The signaling actor (src/signal/coordinator.rs): sole owner of the connection map
    and of pipeline branch calls. Its methods are proved to take the steps that
    `Signaling` describes death by death. */
module Coordination {
  import opened Prelude
  import opened Health
  import opened Signaling
  import opened Linearity

  datatype TerminateReason = Deleted | Expired | PeerGone | Reaped | Reset

  datatype MissingEntry = Reject | Skip | Proceed

  datatype WaiterNotice = NoticeGone | ExpiredLeg | NoticeUnavailable

  datatype Teardown = Required | BestEffort | Keep

  datatype TerminationPolicy = TerminationPolicy(
    onMissing: MissingEntry, waiter: WaiterNotice, teardown: Teardown, feedsWatchdog: bool)

  /** The termination policy table. */
  function Policy(reason: TerminateReason): TerminationPolicy {
    match reason
    case Deleted => TerminationPolicy(Reject, NoticeGone, Required, false)
    case Expired => TerminationPolicy(Skip, ExpiredLeg, BestEffort, true)
    case PeerGone => TerminationPolicy(Proceed, NoticeGone, BestEffort, true)
    case Reaped => TerminationPolicy(Skip, NoticeGone, BestEffort, false)
    case Reset => TerminationPolicy(Skip, NoticeUnavailable, Keep, false)
  }

  function NoticeError(notice: WaiterNotice, c: Connection, id: Id): SignalError {
    match notice
    case NoticeGone => Gone(id)
    case ExpiredLeg => c.ExpiryError()
    case NoticeUnavailable => Unavailable
  }

  /** What terminating `id` for `reason` amounts to, without the table. `PeerGone`
      arrives with its entry already consumed. */
  function Terminated(cfg: Config, s: State, dropped: set<Ticket>, id: Id, reason: TerminateReason, call: Call): State
    requires reason.PeerGone? ==> id !in s.connections
  {
    match reason
    case Deleted => AfterDelete(cfg, s, dropped, id, call)
    case Expired => AfterExpiry(cfg, s, dropped, id, call)
    case PeerGone => AfterPeerGone(cfg, s, dropped, id, call)
    case Reaped => AfterReap(cfg, s, dropped, id, call)
    case Reset => if id in s.connections then Fail(Take(s, id), dropped, s.connections[id], Unavailable) else s
  }

  class Coordinator {
    const config: Config
    const watchdog: Watchdog
    var clock: Instant
    var connections: map<Id, Connection>
    var restart: RestartChannel
    ghost var replies: map<Ticket, seq<Sent>>
    ghost var calls: seq<BranchCall>
    ghost var attached: set<Id>
    ghost var orphans: set<Id>

    ghost function Model(): State
      reads this, watchdog
    {
      State(clock, connections, watchdog.history, restart, replies, calls, attached, orphans)
    }

    /** The watchdog refines the history, and every reply sender is accounted for, with
        those in `hand` still to be used by the running step. */
    ghost predicate Holding(hand: set<Ticket>)
      reads this, watchdog
    {
      && watchdog.Valid()
      && watchdog.threshold == config.watchdogThreshold
      && watchdog.window == config.watchdogWindow
      && Accounted(connections, replies, hand)
    }

    ghost predicate Valid()
      reads this, watchdog
    {
      Holding({})
    }

    constructor (config: Config)
      ensures Valid() && fresh(watchdog) && this.config == config && Model() == INITIAL
    {
      this.config := config;
      this.watchdog := new Watchdog(config.watchdogThreshold, config.watchdogWindow);
      clock := 0;
      connections := map[];
      restart := RestartChannel(true, false, 0);
      replies, calls, attached, orphans := map[], [], {}, {};
    }

    /** `oneshot::Sender::send`. */
    method SendReply(t: Ticket, r: Reply, dropped: set<Ticket>) returns (delivered: bool)
      modifies this`replies
      ensures delivered == (t !in dropped)
      ensures Model() == Send(old(Model()), dropped, t, r)
    {
      delivered := t !in dropped;
      replies := Send(Model(), dropped, t, r).replies;
    }

    method Notify(c: Connection, notice: WaiterNotice, id: Id, dropped: set<Ticket>)
      modifies this`replies
      ensures Model() == Fail(old(Model()), dropped, c, NoticeError(notice, c, id))
    {
      match c {
        case AwaitingOffer(t, _) =>
          var _ := SendReply(t, Rejected(NoticeError(notice, c, id)), dropped);
        case AwaitingAnswer(t, _) =>
          var _ := SendReply(t, Rejected(NoticeError(notice, c, id)), dropped);
        case Established(_) =>
      }
    }

    method AddBranchBounded(id: Id, call: Call) returns (error: Option<SignalError>)
      modifies this`clock, this`calls, this`attached, this`orphans
      ensures error == AttachError(config, call)
      ensures Model() == Attach(config, old(Model()), id, call)
    {
      clock := clock + AttachTime(config, call);
      calls := calls + [AddBranch(id, call)];
      if AttachCut(config, call) {
        return Some(PipelineBusy("branch attach/cleanup timed out"));
      }
      match call.error {
        case Some(e) => return Some(FromPipeline(e));
        case None =>
          attached, orphans := attached + {id}, orphans - {id};
          return None;
      }
    }

    method RemoveBranchBounded(id: Id, call: Call) returns (error: Option<SignalError>)
      modifies this`clock, this`calls, this`attached, this`orphans
      ensures error == TeardownError(config, call)
      ensures Model() == Detach(config, old(Model()), id, call)
    {
      clock := clock + TeardownTime(config, call);
      calls := calls + [RemoveBranch(id, call)];
      if TeardownCut(config, call) {
        return Some(PipelineBusy("branch teardown timed out"));
      }
      match call.error {
        case Some(e) => return Some(FromPipeline(e));
        case None =>
          attached, orphans := attached - {id}, orphans - {id};
          return None;
      }
    }

    /** One turn of the drain: take an entry out and fail its waiter. */
    method FailOne(id: Id, dropped: set<Ticket>, ghost start: State, ghost hand: set<Ticket>)
      requires id in connections
      requires Holding(hand) && PartlyReset(start, dropped, connections, replies)
      modifies this`connections, this`replies
      ensures Holding(hand) && PartlyReset(start, dropped, connections, replies)
      ensures connections == old(connections) - {id}
    {
      hide Waiting, Accounted;
      ghost var before := Model();
      var state := connections[id];
      connections := connections - {id};
      Notify(state, Policy(TerminateReason.Reset).waiter, id, dropped);
      ghost var after := Fail(Take(before, id), dropped, state, Unavailable);
      assert Model() == after;
      FailOneMore(start, dropped, before, hand, id);
      assert connections == after.connections && replies == after.replies;
    }

    /** Drain the map in whatever order it yields; each waiter is failed once. */
    method ResetAllConnections(dropped: set<Ticket>, ghost hand: set<Ticket>)
      requires Holding(hand)
      modifies this`connections, this`replies, this`orphans
      ensures Holding(hand)
      ensures Model() == ResetAll(old(Model()), dropped)
    {
      hide Accounted, Burst;
      ghost var start := Model();
      orphans := orphans + connections.Keys;
      while connections != map[]
        invariant Holding(hand) && PartlyReset(start, dropped, connections, replies)
        invariant orphans == start.orphans + start.connections.Keys
        decreases connections.Keys
      {
        var id :| id in connections;
        FailOne(id, dropped, start, hand);
      }
      FullyReset(start, dropped, replies);
    }

    /** Report a handshake failure; on a trip fail everyone and request a restart. The
        send never blocks: a full buffer means a restart is already pending. */
    method FeedWatchdog(dropped: set<Ticket>, ghost hand: set<Ticket>)
      requires Holding(hand)
      modifies this, watchdog
      ensures Holding(hand)
      ensures Model() == Blame(config, old(Model()), dropped)
    {
      hide Accounted, Waiting;
      var tripped := watchdog.RecordFailure(clock);
      if tripped {
        ResetAllConnections(dropped, hand);
        restart := TrySend(restart);
      }
    }

    /** The teardown column of the row, once the entry has been taken out of `before`:
        `Required` gates the death and puts the entry back on failure, `BestEffort`
        notifies first and only logs, `Keep` leaves the branch alone. */
    method TearDown(id: Id, state: Option<Connection>, policy: TerminationPolicy, call: Call, dropped: set<Ticket>,
                    ghost before: State, ghost hand: set<Ticket>)
      returns (error: Option<SignalError>)
      requires watchdog.Valid() && watchdog.threshold == config.watchdogThreshold
               && watchdog.window == config.watchdogWindow
      requires Accounted(before.connections, before.replies, hand) && Model() == Take(before, id)
      requires state == if id in before.connections then Some(before.connections[id]) else None
      modifies this`clock, this`connections, this`replies, this`calls, this`attached, this`orphans
      ensures Holding(hand)
      ensures
        var taken := Take(before, id);
        var told := if state.Some? then Fail(taken, dropped, state.value, NoticeError(policy.waiter, state.value, id))
          else taken;
        match policy.teardown
        case Required =>
          && error == TeardownError(config, call)
          && Model() == if error.Some? then Detach(config, before, id, call)
                        else if state.Some? then Fail(Detach(config, taken, id, call), dropped, state.value,
                                                      NoticeError(policy.waiter, state.value, id))
                        else Detach(config, taken, id, call)
        case BestEffort => error.None? && Model() == Abandon(config, told, id, call)
        case Keep => error.None? && Model() == told
    {
      hide Accounted, TeardownError, AttachError;
      error := None;
      match policy.teardown {
        case Required =>
          error := RemoveBranchBounded(id, call);
          if error.Some? {
            if state.Some? {
              connections := connections[id := state.value];
            }
            assert connections == before.connections;
          } else if state.Some? {
            Notify(state.value, policy.waiter, id, dropped);
          }
        case BestEffort =>
          if state.Some? {
            Notify(state.value, policy.waiter, id, dropped);
          }
          var failed := RemoveBranchBounded(id, call);
          if failed.Some? {
            orphans := orphans + {id};
          }
        case Keep =>
          if state.Some? {
            Notify(state.value, policy.waiter, id, dropped);
          }
      }
      if state.Some? {
        FailAccounts(before, hand, dropped, id, NoticeError(policy.waiter, state.value, id));
      } else {
        assert before.connections - {id} == before.connections;
      }
    }

    /** The single owner of "a connection is ending": look the row up, then act on it. */
    method Terminate(id: Id, reason: TerminateReason, call: Call, dropped: set<Ticket>, ghost hand: set<Ticket>)
      returns (error: Option<SignalError>)
      requires Holding(hand)
      requires reason.PeerGone? ==> id !in connections
      modifies this, watchdog
      ensures Holding(hand)
      ensures Model() == Terminated(config, old(Model()), dropped, id, reason, call)
      ensures reason.Deleted? ==>
                DeletedReply(config, old(Model()), id, call) == if error.Some? then Rejected(error.value) else Done
      ensures !reason.Deleted? ==> error.None?
    {
      hide Accounted, Blame, Abandon, Detach;
      ghost var before := Model();
      var policy := Policy(reason);
      var state: Option<Connection>;
      if id in connections {
        state := Some(connections[id]);
        connections := connections - {id};
      } else {
        match policy.onMissing {
          case Reject => return Some(NotFound(id));
          case Skip => return None;
          case Proceed => state := None;
        }
      }
      error := TearDown(id, state, policy, call, dropped, before, hand);
      if error.Some? {
        return;
      }
      if policy.feedsWatchdog {
        FeedWatchdog(dropped, hand);
      }
      return None;
    }

    method CreateConnection(id: Id, reply: Ticket, call: Call, dropped: set<Ticket>)
      requires Holding({reply})
      modifies this
      ensures Valid() && Model() == Created(config, old(Model()), dropped, id, reply, call)
    {
      hide Accounted, Attach;
      ghost var before := Model();
      if id in connections {
        var _ := SendReply(reply, Rejected(WrongState(id)), dropped);
      } else {
        var error := AddBranchBounded(id, call);
        if error.Some? {
          var _ := SendReply(reply, Rejected(error.value), dropped);
        } else {
          var deadline := clock + config.offerTimeout;
          connections := connections[id := AwaitingOffer(reply, deadline)];
        }
      }
      assert Model() == Created(config, before, dropped, id, reply, call);
      CreatedAccounts(config, before, dropped, id, reply, call);
    }

    /** The failed delivery used up the entry and its waiter; answer the surviving leg,
        then let the death run its course. */
    method FailHandshake(id: Id, reply: Ticket, call: Call, dropped: set<Ticket>)
      requires Holding({reply}) && id !in connections
      modifies this, watchdog
      ensures Valid()
      ensures Model() ==
              AfterPeerGone(config, Send(old(Model()), dropped, reply, Rejected(Gone(id))), dropped, id, call)
    {
      LastSend(Model(), dropped, reply, Rejected(Gone(id)));
      var _ := SendReply(reply, Rejected(Gone(id)), dropped);
      var _ := Terminate(id, PeerGone, call, dropped, {});
    }

    method OfferReceived(id: Id, sdp: string, reply: Ticket, call: Call, dropped: set<Ticket>)
      requires Holding({reply})
      modifies this, watchdog
      ensures Valid() && Model() == Offered(config, old(Model()), dropped, id, sdp, reply, call)
    {
      hide AfterPeerGone, Accounted;
      ghost var before := Model();
      if id !in connections {
        LastSend(before, dropped, reply, Rejected(NotFound(id)));
        var _ := SendReply(reply, Rejected(NotFound(id)), dropped);
        return;
      }
      var state := connections[id];
      connections := connections - {id};
      match state {
        case AwaitingOffer(whepReply, _) =>
          DeliveryAccounts(before, {reply}, dropped, id, Offer(sdp));
          var delivered := SendReply(whepReply, Offer(sdp), dropped);
          if delivered {
            var deadline := clock + config.answerTimeout;
            connections := connections[id := AwaitingAnswer(reply, deadline)];
            assert Model() == Offered(config, before, dropped, id, sdp, reply, call);
            OfferedAccounts(config, before, dropped, id, sdp, reply, call);
          } else {
            FailHandshake(id, reply, call, dropped);
          }
        case _ =>
          connections := connections[id := state];
          assert Model() == before;
          LastSend(before, dropped, reply, Rejected(WrongState(id)));
          var _ := SendReply(reply, Rejected(WrongState(id)), dropped);
      }
    }

    method AnswerReceived(id: Id, sdp: string, reply: Ticket, call: Call, dropped: set<Ticket>)
      requires Holding({reply})
      modifies this, watchdog
      ensures Valid() && Model() == Answered(config, old(Model()), dropped, id, sdp, reply, call)
    {
      hide AfterPeerGone, Accounted;
      ghost var before := Model();
      if id !in connections {
        LastSend(before, dropped, reply, Rejected(NotFound(id)));
        var _ := SendReply(reply, Rejected(NotFound(id)), dropped);
        return;
      }
      var state := connections[id];
      connections := connections - {id};
      match state {
        case AwaitingAnswer(whipReply, _) =>
          DeliveryAccounts(before, {reply}, dropped, id, Answer(sdp));
          var delivered := SendReply(whipReply, Answer(sdp), dropped);
          if delivered {
            watchdog.RecordSuccess();
            connections := connections[id := Established(clock)];
            var _ := SendReply(reply, Done, dropped);
            assert Model() == Answered(config, before, dropped, id, sdp, reply, call);
            AnsweredAccounts(config, before, dropped, id, sdp, reply, call);
          } else {
            FailHandshake(id, reply, call, dropped);
          }
        case _ =>
          connections := connections[id := state];
          assert Model() == before;
          LastSend(before, dropped, reply, Rejected(WrongState(id)));
          var _ := SendReply(reply, Rejected(WrongState(id)), dropped);
      }
    }

    method RemoveConnection(id: Id, reply: Ticket, call: Call, dropped: set<Ticket>)
      requires Holding({reply})
      modifies this, watchdog
      ensures Valid() && Model() == Removed(config, old(Model()), dropped, id, reply, call)
    {
      var error := Terminate(id, Deleted, call, dropped, {reply});
      var result := if error.Some? then Rejected(error.value) else Done;
      LastSend(Model(), dropped, reply, result);
      var _ := SendReply(reply, result, dropped);
    }

    method ResetSignaling(reply: Ticket, dropped: set<Ticket>)
      requires Holding({reply})
      modifies this, watchdog
      ensures Valid() && Model() == Cleared(old(Model()), dropped, reply)
    {
      ResetAllConnections(dropped, {reply});
      watchdog.RecordSuccess();
      LastSend(Model(), dropped, reply, Done);
      var _ := SendReply(reply, Done, dropped);
    }

    /** The overdue ids, in the order the map yields them. */
    method CollectExpired(iteration: seq<Id>) returns (expired: seq<Id>)
      requires Iterates(iteration, connections.Keys)
      ensures expired == ExpiredOf(connections, clock, iteration)
    {
      var now := clock;
      expired := [];
      for k := 0 to |iteration|
        invariant expired == ExpiredOf(connections, now, iteration[..k])
      {
        assert iteration[..k + 1][..k] == iteration[..k];
        if connections[iteration[k]].ExpiredAt(now) {
          expired := expired + [iteration[k]];
        }
      }
      assert iteration[..|iteration|] == iteration;
    }

    /** Collect the overdue ids first, then terminate them; a trip on the way empties the
        map and the remaining ids are skipped. */
    method SweepExpired(iteration: seq<Id>, teardowns: map<Id, Call>, dropped: set<Ticket>)
      requires Valid() && Iterates(iteration, connections.Keys)
      modifies this, watchdog
      ensures Valid()
      ensures Model() ==
              ExpireEach(config, old(Model()), dropped, ExpiredOf(old(connections), old(clock), iteration), teardowns)
    {
      hide AfterExpiry, Accounted;
      ghost var before := Model();
      var expired := CollectExpired(iteration);
      for k := 0 to |expired|
        invariant Valid() && Model() == ExpireEach(config, before, dropped, expired[..k], teardowns)
      {
        ExpireOneMore(config, before, dropped, expired, k, teardowns);
        var _ := Terminate(expired[k], Expired, TeardownOf(teardowns, expired[k]), dropped, {});
      }
      assert expired[..|expired|] == expired;
    }

    method ReapBranch(id: Id, call: Call, dropped: set<Ticket>)
      requires Valid()
      modifies this, watchdog
      ensures Valid() && Model() == AfterReap(config, old(Model()), dropped, id, call)
    {
      if id !in connections {
        return;
      }
      var _ := Terminate(id, Reaped, call, dropped, {});
    }

    method Handle(command: Command, call: Call, dropped: set<Ticket>)
      requires Holding({command.reply})
      modifies this, watchdog
      ensures Valid() && Model() == Handled(config, old(Model()), dropped, command, call)
    {
      match command {
        case CreateConnection(id, reply) => CreateConnection(id, reply, call, dropped);
        case OfferReceived(id, sdp, reply) => OfferReceived(id, sdp, reply, call, dropped);
        case AnswerReceived(id, sdp, reply) => AnswerReceived(id, sdp, reply, call, dropped);
        case RemoveConnection(id, reply) => RemoveConnection(id, reply, call, dropped);
        case ListConnections(reply) =>
          LastSend(Model(), dropped, reply, Listing(Snapshot(Model())));
          var states := map id | id in connections :: connections[id].Name();
          var _ := SendReply(reply, Listing(states), dropped);
        case Reset(reply) => ResetSignaling(reply, dropped);
      }
    }

    /** A command arrives with its sender. */
    method Accept(command: Command, call: Call, dropped: set<Ticket>)
      requires Valid() && command.reply !in replies
      modifies this, watchdog
      ensures Valid() && Model() == Handled(config, Submit(old(Model()), command.reply), dropped, command, call)
    {
      SubmitAccounts(Model(), {}, command.reply);
      assert {} + {command.reply} == {command.reply};
      replies := Submit(Model(), command.reply).replies;
      assert Model() == Submit(old(Model()), command.reply);
      Handle(command, call, dropped);
    }

    /** One turn of the select loop. */
    method Turn(e: Event)
      requires Valid() && Admissible(Model(), e)
      modifies this, watchdog
      ensures Valid() && Model() == Step(config, old(Model()), e)
    {
      clock := clock + e.wait;
      assert Model() == Awake(old(Model()), e.wait);
      match e.input {
        case Handle(command, call) =>
          Accept(command, call, e.dropped);
        case ReapBranch(branch, call) => ReapBranch(branch, call, e.dropped);
        case SweepTick(iteration, teardowns) => SweepExpired(iteration, teardowns, e.dropped);
      }
    }

    /** The actor: whatever the select loop picks, the state it reaches is the one the
        step-by-step description gives. */
    method Run(events: seq<Event>)
      requires Valid() && Possible(config, Model(), events)
      modifies this, watchdog
      ensures Valid() && Model() == At(config, old(Model()), events, |events|)
    {
      ghost var start := Model();
      for k := 0 to |events|
        invariant Valid() && Model() == At(config, start, events, k)
      {
        Turn(events[k]);
      }
    }
  }

  lemma ExpireOneMore(
      cfg: Config, s: State, dropped: set<Ticket>, ids: seq<Id>, k: nat, teardowns: map<Id, Call>)
    requires k < |ids|
    ensures
      var mid := ExpireEach(cfg, s, dropped, ids[..k], teardowns);
      ExpireEach(cfg, s, dropped, ids[..k + 1], teardowns) ==
      AfterExpiry(cfg, mid, dropped, ids[k], TeardownOf(teardowns, ids[k]))
  {
    hide AfterExpiry;
    assert ids[..k + 1][..k] == ids[..k];
  }

  /** Part of a reset: of the waiters parked at `start`, those no longer in `rest` have
      been told, once, and nobody else has. */
  ghost predicate PartlyReset(
      start: State, dropped: set<Ticket>, rest: map<Id, Connection>, replies: map<Ticket, seq<Sent>>) {
    && (forall id :: id in rest ==> id in start.connections && rest[id] == start.connections[id])
    && replies.Keys == start.replies.Keys
    && (forall t :: t in replies ==>
          replies[t] == if Waiting(start.connections, t) && !Waiting(rest, t)
                        then start.replies[t] + [Fate(dropped, t, Rejected(Unavailable))]
                        else start.replies[t])
  }

  lemma FailOneMore(start: State, dropped: set<Ticket>, s: State, hand: set<Ticket>, id: Id)
    requires Accounted(s.connections, s.replies, hand) && PartlyReset(start, dropped, s.connections, s.replies)
    requires id in s.connections
    ensures
      var s1 := Fail(Take(s, id), dropped, s.connections[id], Unavailable);
      && s1.connections == s.connections - {id}
      && Accounted(s1.connections, s1.replies, hand)
      && PartlyReset(start, dropped, s1.connections, s1.replies)
  {
    FailAccounts(s, hand, dropped, id, Unavailable);
    ResetOneMore(start, dropped, s, hand, id);
  }

  lemma FullyReset(start: State, dropped: set<Ticket>, replies: map<Ticket, seq<Sent>>)
    requires PartlyReset(start, dropped, map[], replies)
    ensures replies == ResetAll(start, dropped).replies
  {
  }

  lemma ResetOneMore(start: State, dropped: set<Ticket>, s: State, hand: set<Ticket>, id: Id)
    requires Accounted(s.connections, s.replies, hand) && PartlyReset(start, dropped, s.connections, s.replies)
    requires id in s.connections
    ensures PartlyReset(start, dropped, s.connections - {id},
                        Fail(Take(s, id), dropped, s.connections[id], Unavailable).replies)
  {
    var c, rest := s.connections[id], s.connections - {id};
    StillWaiting(s.connections, id);
    if c.Waiter().Some? {
      var t := c.Waiter().value;
      assert Waiting(start.connections, t) by {
        assert id in start.connections && start.connections[id].Waiter() == Some(t);
      }
      assert !Waiting(rest, t);
    }
  }

  /** Whoever waits after an entry is gone waited before, on another entry. */
  lemma StillWaiting(connections: map<Id, Connection>, id: Id)
    requires id in connections
    ensures forall t: Ticket :: Waiting(connections, t) <==>
                        Waiting(connections - {id}, t) || connections[id].Waiter() == Some(t)
  {
    forall t: Ticket | Waiting(connections, t)
      ensures Waiting(connections - {id}, t) || connections[id].Waiter() == Some(t)
    {
      var i :| i in connections && connections[i].Waiter() == Some(t);
      assert i == id || i in connections - {id};
    }
    forall t: Ticket | Waiting(connections - {id}, t) ensures Waiting(connections, t) {
      var i :| i in connections - {id} && connections[i].Waiter() == Some(t);
      assert i in connections;
    }
  }
}
