/** Every reply sender is consumed exactly once or parked exactly once. */
module Linearity {
  import opened Prelude
  import opened Health
  import opened Signaling

  /** No sender is used twice; each unused one is either parked in exactly one entry
      or among those in the `hand` of the running step. */
  ghost predicate Accounted(connections: map<Id, Connection>, replies: map<Ticket, seq<Sent>>, hand: set<Ticket>) {
    && (forall t :: t in replies ==> |replies[t]| <= 1)
    && (forall t :: t in replies && replies[t] == [] ==> t in hand || Waiting(connections, t))
    && (forall t :: t in hand ==> t in replies && replies[t] == [])
    && (forall id :: id in connections && connections[id].Waiter().Some? ==>
          var t := connections[id].Waiter().value; t in replies && replies[t] == [] && t !in hand)
    && (forall i, j :: i in connections && j in connections && i != j && connections[i].Waiter().Some? ==>
          connections[i].Waiter() != connections[j].Waiter())
  }

  function WaiterOf(c: Connection): set<Ticket> {
    if c.Waiter().Some? then {c.Waiter().value} else {}
  }

  lemma SubmitAccounts(s: State, hand: set<Ticket>, t: Ticket)
    requires Accounted(s.connections, s.replies, hand) && t !in s.replies
    ensures Accounted(s.connections, Submit(s, t).replies, hand + {t})
  {
  }

  lemma SendAccounts(s: State, hand: set<Ticket>, dropped: set<Ticket>, t: Ticket, r: Reply)
    requires Accounted(s.connections, s.replies, hand) && t in hand
    ensures Accounted(s.connections, Send(s, dropped, t, r).replies, hand - {t})
  {
  }

  lemma TakeAccounts(s: State, hand: set<Ticket>, id: Id)
    requires Accounted(s.connections, s.replies, hand) && id in s.connections
    ensures Accounted(Take(s, id).connections, s.replies, hand + WaiterOf(s.connections[id]))
  {
    var rest := Take(s, id).connections;
    forall t | t in s.replies && s.replies[t] == [] && t !in hand + WaiterOf(s.connections[id])
      ensures Waiting(rest, t)
    {
      var i :| i in s.connections && s.connections[i].Waiter() == Some(t);
      assert i in rest && rest[i].Waiter() == Some(t);
    }
  }

  lemma ParkAccounts(s: State, hand: set<Ticket>, id: Id, c: Connection)
    requires Accounted(s.connections, s.replies, hand) && id !in s.connections && WaiterOf(c) <= hand
    ensures Accounted(Park(s, id, c).connections, s.replies, hand - WaiterOf(c))
  {
    var all := Park(s, id, c).connections;
    forall t | t in s.replies && s.replies[t] == [] && t !in hand - WaiterOf(c)
      ensures Waiting(all, t)
    {
      if t in hand {
        assert all[id].Waiter() == Some(t);
      } else {
        var i :| i in s.connections && s.connections[i].Waiter() == Some(t);
        assert i in all && all[i].Waiter() == Some(t);
      }
    }
  }

  /** A sender taken out with its entry can be failed. */
  lemma FailAccounts(s: State, hand: set<Ticket>, dropped: set<Ticket>, id: Id, e: SignalError)
    requires Accounted(s.connections, s.replies, hand) && id in s.connections
    ensures
      var s1 := Fail(Take(s, id), dropped, s.connections[id], e);
      s1.connections == Take(s, id).connections && Accounted(s1.connections, s1.replies, hand)
  {
    var c := s.connections[id];
    TakeAccounts(s, hand, id);
    if c.Waiter().Some? {
      SendAccounts(Take(s, id), hand + WaiterOf(c), dropped, c.Waiter().value, Rejected(e));
      assert hand + WaiterOf(c) - {c.Waiter().value} == hand;
    } else {
      assert hand + WaiterOf(c) == hand;
    }
  }

  lemma ResetAllAccounts(s: State, hand: set<Ticket>, dropped: set<Ticket>)
    requires Accounted(s.connections, s.replies, hand)
    ensures Accounted(map[], ResetAll(s, dropped).replies, hand)
  {
  }

  /** The invariant of a state between steps: no sender is in anybody's hand. */
  ghost predicate Linear(s: State) {
    Accounted(s.connections, s.replies, {})
  }

  ghost predicate Holds(s: State, hand: set<Ticket>) {
    Accounted(s.connections, s.replies, hand)
  }

  lemma BlameAccounts(cfg: Config, s: State, hand: set<Ticket>, dropped: set<Ticket>)
    requires Holds(s, hand)
    ensures Holds(Blame(cfg, s, dropped), hand)
  {
    var noted := s.(health := s.health + [FailureEvent(cfg, s)]);
    ResetAllAccounts(noted, hand, dropped);
  }

  lemma AfterPeerGoneAccounts(cfg: Config, s: State, hand: set<Ticket>, dropped: set<Ticket>, id: Id, call: Call)
    requires Holds(s, hand)
    ensures Holds(AfterPeerGone(cfg, s, dropped, id, call), hand)
  {
    BlameAccounts(cfg, Abandon(cfg, s, id, call), hand, dropped);
  }

  lemma AfterDeleteAccounts(cfg: Config, s: State, hand: set<Ticket>, dropped: set<Ticket>, id: Id, call: Call)
    requires Holds(s, hand)
    ensures Holds(AfterDelete(cfg, s, dropped, id, call), hand)
  {
    if id in s.connections {
      FailAccounts(s, hand, dropped, id, Gone(id));
    }
  }

  lemma AfterExpiryAccounts(cfg: Config, s: State, hand: set<Ticket>, dropped: set<Ticket>, id: Id, call: Call)
    requires Holds(s, hand)
    ensures Holds(AfterExpiry(cfg, s, dropped, id, call), hand)
  {
    if id in s.connections {
      var c := s.connections[id];
      FailAccounts(s, hand, dropped, id, c.ExpiryError());
      var told := Fail(Take(s, id), dropped, c, c.ExpiryError());
      BlameAccounts(cfg, Abandon(cfg, told, id, call), hand, dropped);
    }
  }

  lemma AfterReapAccounts(cfg: Config, s: State, hand: set<Ticket>, dropped: set<Ticket>, id: Id, call: Call)
    requires Holds(s, hand)
    ensures Holds(AfterReap(cfg, s, dropped, id, call), hand)
  {
    if id in s.connections {
      FailAccounts(s, hand, dropped, id, Gone(id));
    }
  }

  lemma ExpireEachAccounts(cfg: Config, s: State, dropped: set<Ticket>, ids: seq<Id>, teardowns: map<Id, Call>)
    requires Linear(s)
    ensures Linear(ExpireEach(cfg, s, dropped, ids, teardowns))
  {
    if ids == [] {
    } else {
      var n := |ids| - 1;
      ExpireEachAccounts(cfg, s, dropped, ids[..n], teardowns);
      AfterExpiryAccounts(cfg, ExpireEach(cfg, s, dropped, ids[..n], teardowns), {}, dropped, ids[n],
            TeardownOf(teardowns, ids[n]));
    }
  }

  /** The last use of the sender the running command came with. */
  lemma LastSend(s: State, dropped: set<Ticket>, t: Ticket, r: Reply)
    requires Holds(s, {t})
    ensures Linear(Send(s, dropped, t, r))
  {
    SendAccounts(s, {t}, dropped, t, r);
    assert {t} - {t} == {};
  }

  lemma CreatedAccounts(cfg: Config, s: State, dropped: set<Ticket>, id: Id, t: Ticket, call: Call)
    requires Holds(s, {t})
    ensures Linear(Created(cfg, s, dropped, id, t, call))
  {
    hide AttachError;
    var s1 := Attach(cfg, s, id, call);
    if id in s.connections {
      LastSend(s, dropped, t, Rejected(WrongState(id)));
    } else if AttachError(cfg, call).Some? {
      LastSend(s1, dropped, t, Rejected(AttachError(cfg, call).value));
    } else {
      var c := AwaitingOffer(t, s1.clock + cfg.offerTimeout);
      ParkAccounts(s1, {t}, id, c);
      assert {t} - WaiterOf(c) == {};
    }
  }

  /** A delivery takes the entry out and uses its waiter. */
  lemma DeliveryAccounts(s: State, hand: set<Ticket>, dropped: set<Ticket>, id: Id, r: Reply)
    requires Holds(s, hand) && id in s.connections && s.connections[id].Waiter().Some?
    ensures Holds(Send(Take(s, id), dropped, s.connections[id].Waiter().value, r), hand)
  {
    var peer := s.connections[id].Waiter().value;
    TakeAccounts(s, hand, id);
    SendAccounts(Take(s, id), hand + {peer}, dropped, peer, r);
    assert hand + {peer} - {peer} == hand;
  }

  lemma OfferedAccounts(cfg: Config, s: State, dropped: set<Ticket>, id: Id, sdp: string, t: Ticket, call: Call)
    requires Holds(s, {t})
    ensures Linear(Offered(cfg, s, dropped, id, sdp, t, call))
  {
    hide Accounted, Waiting, AfterPeerGone;
    if id !in s.connections {
      LastSend(s, dropped, t, Rejected(NotFound(id)));
    } else if !s.connections[id].AwaitingOffer? {
      LastSend(s, dropped, t, Rejected(WrongState(id)));
    } else {
      var peer := s.connections[id].whepReply;
      var s1 := Send(Take(s, id), dropped, peer, Offer(sdp));
      DeliveryAccounts(s, {t}, dropped, id, Offer(sdp));
      if peer in dropped {
        LastSend(s1, dropped, t, Rejected(Gone(id)));
        AfterPeerGoneAccounts(cfg, Send(s1, dropped, t, Rejected(Gone(id))), {}, dropped, id, call);
      } else {
        var c := AwaitingAnswer(t, s1.clock + cfg.answerTimeout);
        ParkAccounts(s1, {t}, id, c);
        assert {t} - WaiterOf(c) == {};
      }
    }
  }

  lemma AnsweredAccounts(cfg: Config, s: State, dropped: set<Ticket>, id: Id, sdp: string, t: Ticket, call: Call)
    requires Holds(s, {t})
    ensures Linear(Answered(cfg, s, dropped, id, sdp, t, call))
  {
    hide Accounted, Waiting, AfterPeerGone;
    if id !in s.connections {
      LastSend(s, dropped, t, Rejected(NotFound(id)));
    } else if !s.connections[id].AwaitingAnswer? {
      LastSend(s, dropped, t, Rejected(WrongState(id)));
    } else {
      var peer := s.connections[id].whipReply;
      var s1 := Send(Take(s, id), dropped, peer, Answer(sdp));
      DeliveryAccounts(s, {t}, dropped, id, Answer(sdp));
      if peer in dropped {
        LastSend(s1, dropped, t, Rejected(Gone(id)));
        AfterPeerGoneAccounts(cfg, Send(s1, dropped, t, Rejected(Gone(id))), {}, dropped, id, call);
      } else {
        var s2 := s1.(health := s.health + [Succeeded]);
        ParkAccounts(s2, {t}, id, Established(s.clock));
        assert {t} - WaiterOf(Established(s.clock)) == {t};
        LastSend(Park(s2, id, Established(s.clock)), dropped, t, Done);
      }
    }
  }

  lemma HandledAccounts(cfg: Config, s: State, dropped: set<Ticket>, command: Command, call: Call)
    requires Holds(s, {command.reply})
    ensures Linear(Handled(cfg, s, dropped, command, call))
  {
    match command
    case CreateConnection(id, t) => CreatedAccounts(cfg, s, dropped, id, t, call);
    case OfferReceived(id, sdp, t) => OfferedAccounts(cfg, s, dropped, id, sdp, t, call);
    case AnswerReceived(id, sdp, t) => AnsweredAccounts(cfg, s, dropped, id, sdp, t, call);
    case RemoveConnection(id, t) =>
      AfterDeleteAccounts(cfg, s, {t}, dropped, id, call);
      LastSend(AfterDelete(cfg, s, dropped, id, call), dropped, t, DeletedReply(cfg, s, id, call));
    case ListConnections(t) => LastSend(s, dropped, t, Listing(Snapshot(s)));
    case Reset(t) =>
      ResetAllAccounts(s, {t}, dropped);
      LastSend(ResetAll(s, dropped).(health := s.health + [Succeeded]), dropped, t, Done);
  }

  /** Reply linearity is kept by every turn of the actor's loop. */
  lemma StepKeepsLinear(cfg: Config, s: State, e: Event)
    requires Linear(s) && Admissible(s, e)
    ensures Linear(Step(cfg, s, e))
  {
    var s0 := Awake(s, e.wait);
    match e.input
    case Handle(command, call) =>
      SubmitAccounts(s0, {}, command.reply);
      assert {} + {command.reply} == {command.reply};
      HandledAccounts(cfg, Submit(s0, command.reply), e.dropped, command, call);
    case ReapBranch(id, call) => AfterReapAccounts(cfg, s0, {}, e.dropped, id, call);
    case SweepTick(iteration, teardowns) =>
      ExpireEachAccounts(cfg, s0, e.dropped, ExpiredOf(s0.connections, s0.clock, iteration), teardowns);
  }

  /** A turn adds exactly its own command's sender to those the coordinator has seen. */
  lemma StepSubmits(cfg: Config, s: State, e: Event)
    requires Linear(s) && Admissible(s, e)
    ensures Step(cfg, s, e).replies.Keys == s.replies.Keys + if e.input.Handle? then {e.input.command.reply} else {}
  {
    hide Handled, ExpireEach, AfterReap;
    var s0 := Awake(s, e.wait);
    match e.input
    case Handle(command, call) =>
      SubmitAccounts(s0, {}, command.reply);
      assert {} + {command.reply} == {command.reply};
      HandledKeys(cfg, Submit(s0, command.reply), e.dropped, command, call);
    case ReapBranch(id, call) => AfterReapKeys(cfg, s0, e.dropped, id, call);
    case SweepTick(iteration, teardowns) =>
      ExpireEachKeys(cfg, s0, e.dropped, ExpiredOf(s0.connections, s0.clock, iteration), teardowns);
  }

  lemma FailKeys(s: State, dropped: set<Ticket>, id: Id, e: SignalError)
    requires Linear(s) && id in s.connections
    ensures Fail(Take(s, id), dropped, s.connections[id], e).replies.Keys == s.replies.Keys
  {
  }

  lemma AfterReapKeys(cfg: Config, s: State, dropped: set<Ticket>, id: Id, call: Call)
    requires Linear(s)
    ensures AfterReap(cfg, s, dropped, id, call).replies.Keys == s.replies.Keys
  {
    if id in s.connections {
      FailKeys(s, dropped, id, Gone(id));
    }
  }

  lemma BlameKeys(cfg: Config, s: State, dropped: set<Ticket>)
    ensures Blame(cfg, s, dropped).replies.Keys == s.replies.Keys
  {
  }

  lemma AfterExpiryKeys(cfg: Config, s: State, dropped: set<Ticket>, id: Id, call: Call)
    requires Linear(s)
    ensures AfterExpiry(cfg, s, dropped, id, call).replies.Keys == s.replies.Keys
  {
    hide Blame;
    if id in s.connections {
      var c := s.connections[id];
      FailKeys(s, dropped, id, c.ExpiryError());
      BlameKeys(cfg, Abandon(cfg, Fail(Take(s, id), dropped, c, c.ExpiryError()), id, call), dropped);
    }
  }

  lemma ExpireEachKeys(cfg: Config, s: State, dropped: set<Ticket>, ids: seq<Id>, teardowns: map<Id, Call>)
    requires Linear(s)
    ensures ExpireEach(cfg, s, dropped, ids, teardowns).replies.Keys == s.replies.Keys
  {
    hide AfterExpiry;
    if ids == [] {
    } else {
      var n := |ids| - 1;
      ExpireEachKeys(cfg, s, dropped, ids[..n], teardowns);
      ExpireEachAccounts(cfg, s, dropped, ids[..n], teardowns);
      AfterExpiryKeys(cfg, ExpireEach(cfg, s, dropped, ids[..n], teardowns), dropped, ids[n],
            TeardownOf(teardowns, ids[n]));
    }
  }

  lemma AfterPeerGoneKeys(cfg: Config, s: State, dropped: set<Ticket>, id: Id, call: Call)
    ensures AfterPeerGone(cfg, s, dropped, id, call).replies.Keys == s.replies.Keys
  {
    hide Blame;
    BlameKeys(cfg, Abandon(cfg, s, id, call), dropped);
  }

  lemma OfferedKeys(cfg: Config, s: State, dropped: set<Ticket>, id: Id, sdp: string, t: Ticket, call: Call)
    requires Holds(s, {t})
    ensures Offered(cfg, s, dropped, id, sdp, t, call).replies.Keys == s.replies.Keys
  {
    hide AfterPeerGone;
    if id in s.connections && s.connections[id].AwaitingOffer? {
      var s1 := Send(Take(s, id), dropped, s.connections[id].whepReply, Offer(sdp));
      AfterPeerGoneKeys(cfg, Send(s1, dropped, t, Rejected(Gone(id))), dropped, id, call);
    }
  }

  lemma AnsweredKeys(cfg: Config, s: State, dropped: set<Ticket>, id: Id, sdp: string, t: Ticket, call: Call)
    requires Holds(s, {t})
    ensures Answered(cfg, s, dropped, id, sdp, t, call).replies.Keys == s.replies.Keys
  {
    hide AfterPeerGone;
    if id in s.connections && s.connections[id].AwaitingAnswer? {
      var s1 := Send(Take(s, id), dropped, s.connections[id].whipReply, Answer(sdp));
      AfterPeerGoneKeys(cfg, Send(s1, dropped, t, Rejected(Gone(id))), dropped, id, call);
    }
  }

  lemma HandledKeys(cfg: Config, s: State, dropped: set<Ticket>, command: Command, call: Call)
    requires Holds(s, {command.reply})
    ensures Handled(cfg, s, dropped, command, call).replies.Keys == s.replies.Keys
  {
    hide Offered, Answered;
    match command
    case OfferReceived(id, sdp, t) => OfferedKeys(cfg, s, dropped, id, sdp, t, call);
    case AnswerReceived(id, sdp, t) => AnsweredKeys(cfg, s, dropped, id, sdp, t, call);
    case _ =>
  }
}
