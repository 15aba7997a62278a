/** Where a delivered SDP comes from, and how a connection came to be established. */
module Provenance {
  import opened Prelude
  import opened Health
  import opened Signaling
  import opened Lifecycle

  predicate IsSdp(r: Reply) {
    r.Offer? || r.Answer?
  }

  /** The receiver of `t` got the reply `r`. */
  predicate Got(s: State, t: Ticket, r: Reply) {
    Delivered(r) in Log(s, t)
  }

  /** Nobody's SDPs changed between the two states. */
  ghost predicate SameSdps(s: State, s': State) {
    forall t, r :: IsSdp(r) ==> (Got(s', t, r) <==> Got(s, t, r))
  }

  lemma SendGot(s: State, dropped: set<Ticket>, t': Ticket, r': Reply)
    ensures forall t, r :: Got(Send(s, dropped, t', r'), t, r) <==>
            Got(s, t, r) || (t == t' && r == r' && t !in dropped)
  {
  }

  lemma FailKeepsSdps(s: State, dropped: set<Ticket>, c: Connection, e: SignalError)
    ensures SameSdps(s, Fail(s, dropped, c, e))
  {
    if c.Waiter().Some? {
      SendGot(s, dropped, c.Waiter().value, Rejected(e));
    }
  }

  lemma BlameKeepsSdps(cfg: Config, s: State, dropped: set<Ticket>)
    ensures SameSdps(s, Blame(cfg, s, dropped))
  {
    hide Burst;
  }

  lemma AfterExpiryKeepsSdps(cfg: Config, s: State, dropped: set<Ticket>, id: Id, call: Call)
    ensures SameSdps(s, AfterExpiry(cfg, s, dropped, id, call))
  {
    hide TeardownError;
    if id in s.connections {
      hide Blame, Fail;
      var c := s.connections[id];
      var told := Fail(Take(s, id), dropped, c, c.ExpiryError());
      FailKeepsSdps(Take(s, id), dropped, c, c.ExpiryError());
      BlameKeepsSdps(cfg, Abandon(cfg, told, id, call), dropped);
    }
  }

  lemma AfterReapKeepsSdps(cfg: Config, s: State, dropped: set<Ticket>, id: Id, call: Call)
    ensures SameSdps(s, AfterReap(cfg, s, dropped, id, call))
  {
    if id in s.connections {
      hide Fail;
      FailKeepsSdps(Take(s, id), dropped, s.connections[id], Gone(id));
    }
  }

  lemma ExpireEachKeepsSdps(cfg: Config, s: State, dropped: set<Ticket>, ids: seq<Id>, teardowns: map<Id, Call>)
    ensures SameSdps(s, ExpireEach(cfg, s, dropped, ids, teardowns))
  {
    hide AfterExpiry;
    if ids == [] {
    } else {
      var n := |ids| - 1;
      ExpireEachKeepsSdps(cfg, s, dropped, ids[..n], teardowns);
      AfterExpiryKeepsSdps(cfg, ExpireEach(cfg, s, dropped, ids[..n], teardowns), dropped, ids[n],
            TeardownOf(teardowns, ids[n]));
    }
  }

  /** The step hands the waiter `t` the SDP `r`: it is the one parked on the named
      connection, on the right leg, and still listening. */
  predicate HandsOver(s: State, e: Event, t: Ticket, r: Reply) {
    match e.input
    case Handle(OfferReceived(id, sdp, _), _) =>
      Entry(s, id).Some? && s.connections[id].AwaitingOffer? && s.connections[id].whepReply == t && t !in e.dropped
        && r == Offer(sdp)
    case Handle(AnswerReceived(id, sdp, _), _) =>
      Entry(s, id).Some? && s.connections[id].AwaitingAnswer? && s.connections[id].whipReply == t && t !in e.dropped
        && r == Answer(sdp)
    case _ => false
  }

  lemma OfferedSdps(cfg: Config, s: State, dropped: set<Ticket>, id: Id, sdp: string, t: Ticket, call: Call)
    ensures
      var s' := Offered(cfg, s, dropped, id, sdp, t, call);
      forall w, r :: IsSdp(r) ==>
        (Got(s', w, r) <==> Got(s, w, r) || (id in s.connections && s.connections[id].AwaitingOffer?
                                             && s.connections[id].whepReply == w && w !in dropped && r == Offer(sdp)))
  {
    hide Blame, TeardownError;
    if id !in s.connections {
      SendGot(s, dropped, t, Rejected(NotFound(id)));
    } else if !s.connections[id].AwaitingOffer? {
      SendGot(s, dropped, t, Rejected(WrongState(id)));
    } else {
      var peer := s.connections[id].whepReply;
      var s1 := Send(Take(s, id), dropped, peer, Offer(sdp));
      SendGot(Take(s, id), dropped, peer, Offer(sdp));
      if peer in dropped {
        var s2 := Send(s1, dropped, t, Rejected(Gone(id)));
        SendGot(s1, dropped, t, Rejected(Gone(id)));
        BlameKeepsSdps(cfg, Abandon(cfg, s2, id, call), dropped);
      }
    }
  }

  lemma AnsweredSdps(cfg: Config, s: State, dropped: set<Ticket>, id: Id, sdp: string, t: Ticket, call: Call)
    ensures
      var s' := Answered(cfg, s, dropped, id, sdp, t, call);
      forall w, r :: IsSdp(r) ==>
        (Got(s', w, r) <==> Got(s, w, r) || (id in s.connections && s.connections[id].AwaitingAnswer?
                                             && s.connections[id].whipReply == w && w !in dropped && r == Answer(sdp)))
  {
    hide Blame, TeardownError;
    if id !in s.connections {
      SendGot(s, dropped, t, Rejected(NotFound(id)));
    } else if !s.connections[id].AwaitingAnswer? {
      SendGot(s, dropped, t, Rejected(WrongState(id)));
    } else {
      var peer := s.connections[id].whipReply;
      var s1 := Send(Take(s, id), dropped, peer, Answer(sdp));
      SendGot(Take(s, id), dropped, peer, Answer(sdp));
      if peer in dropped {
        var s2 := Send(s1, dropped, t, Rejected(Gone(id)));
        SendGot(s1, dropped, t, Rejected(Gone(id)));
        BlameKeepsSdps(cfg, Abandon(cfg, s2, id, call), dropped);
      } else {
        SendGot(Park(s1.(health := s.health + [Succeeded]), id, Established(s.clock)), dropped, t, Done);
      }
    }
  }

  lemma QuietKeepsSdps(cfg: Config, s: State, dropped: set<Ticket>, command: Command, call: Call)
    requires !command.OfferReceived? && !command.AnswerReceived?
    ensures SameSdps(s, Handled(cfg, s, dropped, command, call))
  {
    hide Offered, Answered, AttachError, TeardownError;
    match command
    case CreateConnection(id, t) =>
      SendGot(s, dropped, t, Rejected(WrongState(id)));
      if AttachError(cfg, call).Some? {
        SendGot(Attach(cfg, s, id, call), dropped, t, Rejected(AttachError(cfg, call).value));
      }
    case RemoveConnection(id, t) =>
      if id in s.connections {
        FailKeepsSdps(Detach(cfg, Take(s, id), id, call), dropped, s.connections[id], Gone(id));
      }
      SendGot(AfterDelete(cfg, s, dropped, id, call), dropped, t, DeletedReply(cfg, s, id, call));
    case ListConnections(t) => SendGot(s, dropped, t, Listing(Snapshot(s)));
    case Reset(t) => SendGot(ResetAll(s, dropped).(health := s.health + [Succeeded]), dropped, t, Done);
  }

  /** A client gets an SDP in a step exactly when the step hands that SDP over to it. */
  lemma SdpsComeFromDeliveries(cfg: Config, s: State, e: Event)
    ensures forall t, r :: IsSdp(r) ==>
              (Got(Step(cfg, s, e), t, r) <==> Got(s, t, r) || HandsOver(s, e, t, r))
  {
    hide Created, Offered, Answered, ExpireEach, AfterDelete, AfterReap, ResetAll;
    var s0 := Awake(s, e.wait);
    match e.input
    case Handle(OfferReceived(id, sdp, t), call) => OfferedSdps(cfg, Submit(s0, t), e.dropped, id, sdp, t, call);
    case Handle(AnswerReceived(id, sdp, t), call) => AnsweredSdps(cfg, Submit(s0, t), e.dropped, id, sdp, t, call);
    case Handle(command, call) => QuietKeepsSdps(cfg, Submit(s0, command.reply), e.dropped, command, call);
    case ReapBranch(id, call) =>
      AfterReapKeepsSdps(cfg, s0, e.dropped, id, call);
    case SweepTick(iteration, teardowns) =>
      ExpireEachKeepsSdps(cfg, s0, e.dropped, ExpiredOf(s0.connections, s0.clock, iteration), teardowns);
  }

  /* ----- histories ----- */

  /** Event `i` brought the entry `c` of `id`, which has been there ever since, up to `n`. */
  ghost predicate Brought(cfg: Config, events: seq<Event>, i: int, n: nat, id: Id, c: Connection) {
    && 0 <= i < n <= |events|
    && Entry(At(cfg, INITIAL, events, i), id) != Some(c)
    && NextEntry(cfg, At(cfg, INITIAL, events, i).clock + events[i].wait, events[i], id,
           Entry(At(cfg, INITIAL, events, i), id)) == Some(c)
    && forall k :: i < k <= n ==> Entry(At(cfg, INITIAL, events, k), id) == Some(c)
  }

  lemma BroughtNow(cfg: Config, events: seq<Event>, n: nat, id: Id)
    requires n < |events| && Admissible(At(cfg, INITIAL, events, n), events[n])
    requires Entry(At(cfg, INITIAL, events, n + 1), id).Some?
    requires Entry(At(cfg, INITIAL, events, n + 1), id) != Entry(At(cfg, INITIAL, events, n), id)
    ensures Brought(cfg, events, n, n + 1, id, Entry(At(cfg, INITIAL, events, n + 1), id).value)
  {
    hide Step, NextEntry;
    StepIsPerViewer(cfg, At(cfg, INITIAL, events, n), events[n]);
  }

  lemma BroughtStill(cfg: Config, events: seq<Event>, i: int, n: nat, id: Id, c: Connection)
    requires n < |events| && Brought(cfg, events, i, n, id, c) && Entry(At(cfg, INITIAL, events, n + 1), id) == Some(c)
    ensures Brought(cfg, events, i, n + 1, id, c)
  {
    hide At, Entry, NextEntry;
  }

  lemma {:induction false} EveryEntryWasBrought(cfg: Config, events: seq<Event>, n: nat, id: Id)
    requires Possible(cfg, INITIAL, events) && n <= |events| && Entry(At(cfg, INITIAL, events, n), id).Some?
    ensures exists i :: Brought(cfg, events, i, n, id, Entry(At(cfg, INITIAL, events, n), id).value)
  {
    hide Step, NextEntry, Brought, Admissible;
    var c := Entry(At(cfg, INITIAL, events, n), id);
    if n == 0 {
      assert false;
    } else if Entry(At(cfg, INITIAL, events, n - 1), id) == c {
      EveryEntryWasBrought(cfg, events, n - 1, id);
      var i :| Brought(cfg, events, i, n - 1, id, c.value);
      BroughtStill(cfg, events, i, n - 1, id, c.value);
    } else {
      BroughtNow(cfg, events, n - 1, id);
    }
  }

  lemma {:induction false} SdpsAreKept(cfg: Config, events: seq<Event>, m: nat, n: nat, t: Ticket, r: Reply)
    requires m <= n <= |events| && IsSdp(r) && Got(At(cfg, INITIAL, events, m), t, r)
    ensures Got(At(cfg, INITIAL, events, n), t, r)
    decreases n - m
  {
    hide Step, Got, HandsOver;
    if m == n {
    } else {
      SdpsAreKept(cfg, events, m, n - 1, t, r);
      SdpsComeFromDeliveries(cfg, At(cfg, INITIAL, events, n - 1), events[n - 1]);
    }
  }

  /** What one leg of a handshake says: `i` created the connection with the waiter `whep`,
      which stayed parked until `j` handed it the offer and parked `whip` instead. */
  ghost predicate OfferLeg(cfg: Config, events: seq<Event>, i: int, j: int, id: Id, whep: Ticket, offer: string) {
    && 0 <= i < j < |events|
    && events[i].input.Handle? && events[i].input.command == CreateConnection(id, whep)
    && events[j].input.Handle? && events[j].input.command.OfferReceived?
    && events[j].input.command.id == id && events[j].input.command.sdp == offer
    && whep !in events[j].dropped
    && forall k :: i < k <= j ==> Phase(Entry(At(cfg, INITIAL, events, k), id)) == 1
                                  && At(cfg, INITIAL, events, k).connections[id].whepReply == whep
  }

  ghost predicate AnswerLeg(cfg: Config, events: seq<Event>, j: int, k: int, id: Id, whip: Ticket, answer: string) {
    && 0 <= j < k < |events|
    && events[j].input.Handle? && events[j].input.command.OfferReceived?
    && events[j].input.command.id == id && events[j].input.command.reply == whip
    && events[k].input.Handle? && events[k].input.command.AnswerReceived?
    && events[k].input.command.id == id && events[k].input.command.sdp == answer
    && whip !in events[k].dropped
    && forall m :: j < m <= k ==> Phase(Entry(At(cfg, INITIAL, events, m), id)) == 2
                                  && At(cfg, INITIAL, events, m).connections[id].whipReply == whip
  }

  /** An offer handed over at `j` has an offer leg behind it. */
  lemma OfferLegBehind(cfg: Config, events: seq<Event>, j: nat, id: Id, whep: Ticket)
    requires Possible(cfg, INITIAL, events) && j < |events|
    requires events[j].input.Handle? && events[j].input.command.OfferReceived? && events[j].input.command.id == id
    requires Phase(Entry(At(cfg, INITIAL, events, j), id)) == 1
    requires At(cfg, INITIAL, events, j).connections[id].whepReply == whep && whep !in events[j].dropped
    ensures exists i :: OfferLeg(cfg, events, i, j, id, whep, events[j].input.command.sdp)
  {
    hide Step, TeardownError;
    EveryEntryWasBrought(cfg, events, j, id);
    var c := Entry(At(cfg, INITIAL, events, j), id).value;
    var i :| Brought(cfg, events, i, j, id, c);
    assert events[i].input.Handle? && events[i].input.command == CreateConnection(id, whep);
    assert OfferLeg(cfg, events, i, j, id, whep, events[j].input.command.sdp);
  }

  lemma AnswerLegBehind(cfg: Config, events: seq<Event>, k: nat, id: Id, whip: Ticket)
    requires Possible(cfg, INITIAL, events) && k < |events|
    requires events[k].input.Handle? && events[k].input.command.AnswerReceived? && events[k].input.command.id == id
    requires Phase(Entry(At(cfg, INITIAL, events, k), id)) == 2
    requires At(cfg, INITIAL, events, k).connections[id].whipReply == whip && whip !in events[k].dropped
    ensures exists i, j, whep, offer ::
              OfferLeg(cfg, events, i, j, id, whep, offer)
                && AnswerLeg(cfg, events, j, k, id, whip, events[k].input.command.sdp)
  {
    hide Step;
    EveryEntryWasBrought(cfg, events, k, id);
    var c := Entry(At(cfg, INITIAL, events, k), id).value;
    var j :| Brought(cfg, events, j, k, id, c);
    var s := At(cfg, INITIAL, events, j);
    assert events[j].input.Handle? && events[j].input.command.OfferReceived? && events[j].input.command.id == id;
    assert AnswerLeg(cfg, events, j, k, id, whip, events[k].input.command.sdp);
    OfferLegBehind(cfg, events, j, id, s.connections[id].whepReply);
  }

  /** An SDP not held before was handed over just now. */
  lemma GotJustNow(cfg: Config, events: seq<Event>, n: nat, t: Ticket, r: Reply)
    requires n <= |events| && IsSdp(r) && Got(At(cfg, INITIAL, events, n), t, r)
    ensures n > 0
    ensures
      var before := At(cfg, INITIAL, events, n - 1);
      Got(before, t, r) || HandsOver(before, events[n - 1], t, r)
  {
    hide Step, HandsOver;
    if n == 0 {
      assert false;
    } else {
      SdpsComeFromDeliveries(cfg, At(cfg, INITIAL, events, n - 1), events[n - 1]);
    }
  }

  /** SDP provenance: the offer a create waiter holds is exactly the SDP of the
      `OfferReceived` that advanced the connection it created. */
  lemma {:induction false} OfferProvenance(cfg: Config, events: seq<Event>, n: nat, whep: Ticket, offer: string)
    requires Possible(cfg, INITIAL, events) && n <= |events|
    requires Got(At(cfg, INITIAL, events, n), whep, Offer(offer))
    ensures exists i, j, id :: j < n && OfferLeg(cfg, events, i, j, id, whep, offer)
  {
    hide At, Got, Possible, OfferLeg;
    GotJustNow(cfg, events, n, whep, Offer(offer));
    if Got(At(cfg, INITIAL, events, n - 1), whep, Offer(offer)) {
      OfferProvenance(cfg, events, n - 1, whep, offer);
    } else {
      OfferLegBehind(cfg, events, n - 1, events[n - 1].input.command.id, whep);
    }
  }

  /** Likewise for the answer a whipsink waiter holds. */
  lemma {:induction false} AnswerProvenance(cfg: Config, events: seq<Event>, n: nat, whip: Ticket, answer: string)
    requires Possible(cfg, INITIAL, events) && n <= |events|
    requires Got(At(cfg, INITIAL, events, n), whip, Answer(answer))
    ensures exists i, j, k, id, whep, offer ::
              k < n && OfferLeg(cfg, events, i, j, id, whep, offer) && AnswerLeg(cfg, events, j, k, id, whip, answer)
  {
    hide At, Got, Possible, OfferLeg, AnswerLeg;
    GotJustNow(cfg, events, n, whip, Answer(answer));
    if Got(At(cfg, INITIAL, events, n - 1), whip, Answer(answer)) {
      AnswerProvenance(cfg, events, n - 1, whip, answer);
    } else {
      AnswerLegBehind(cfg, events, n - 1, events[n - 1].input.command.id, whip);
    }
  }

  /** An established connection has a complete handshake behind it: both legs, in order,
      without interruption, and both clients hold the other's SDP. */
  ghost predicate Handshaken(cfg: Config, events: seq<Event>, n: nat, id: Id, i: int, j: int, k: int,
                             whep: Ticket, whip: Ticket, offer: string, answer: string)
    requires n <= |events|
  {
    && k < n
    && OfferLeg(cfg, events, i, j, id, whep, offer) && AnswerLeg(cfg, events, j, k, id, whip, answer)
    && Got(At(cfg, INITIAL, events, n), whep, Offer(offer)) && Got(At(cfg, INITIAL, events, n), whip, Answer(answer))
    && forall m :: k < m <= n ==> Phase(Entry(At(cfg, INITIAL, events, m), id)) == 3
  }

  lemma EstablishedMeansHandshaken(cfg: Config, events: seq<Event>, n: nat, id: Id)
    requires Possible(cfg, INITIAL, events) && n <= |events| && Phase(Entry(At(cfg, INITIAL, events, n), id)) == 3
    ensures exists i, j, k, whep, whip, offer, answer ::
            Handshaken(cfg, events, n, id, i, j, k, whep, whip, offer, answer)
  {
    hide Step, OfferLeg, AnswerLeg;
    EveryEntryWasBrought(cfg, events, n, id);
    var k :| Brought(cfg, events, k, n, id, Entry(At(cfg, INITIAL, events, n), id).value);
    var s := At(cfg, INITIAL, events, k);
    assert events[k].input.Handle? && events[k].input.command.AnswerReceived? && events[k].input.command.id == id;
    var whip, answer := s.connections[id].whipReply, events[k].input.command.sdp;
    AnswerLegBehind(cfg, events, k, id, whip);
    var i, j, whep, offer :| OfferLeg(cfg, events, i, j, id, whep, offer)
      && AnswerLeg(cfg, events, j, k, id, whip, answer);
    LegsHandOver(cfg, events, i, j, k, n, id, whep, whip, offer, answer);
    assert Handshaken(cfg, events, n, id, i, j, k, whep, whip, offer, answer);
  }

  lemma LegsHandOver(cfg: Config, events: seq<Event>, i: int, j: int, k: int, n: nat, id: Id,
                     whep: Ticket, whip: Ticket, offer: string, answer: string)
    requires k < n <= |events|
    requires OfferLeg(cfg, events, i, j, id, whep, offer) && AnswerLeg(cfg, events, j, k, id, whip, answer)
    ensures Got(At(cfg, INITIAL, events, n), whep, Offer(offer))
            && Got(At(cfg, INITIAL, events, n), whip, Answer(answer))
  {
    hide Step, Got;
    HandedOverAt(cfg, events, j, n, whep, Offer(offer));
    HandedOverAt(cfg, events, k, n, whip, Answer(answer));
  }

  lemma HandedOverAt(cfg: Config, events: seq<Event>, j: nat, n: nat, t: Ticket, r: Reply)
    requires j < n <= |events| && IsSdp(r) && HandsOver(At(cfg, INITIAL, events, j), events[j], t, r)
    ensures Got(At(cfg, INITIAL, events, n), t, r)
  {
    hide Step;
    SdpsComeFromDeliveries(cfg, At(cfg, INITIAL, events, j), events[j]);
    SdpsAreKept(cfg, events, j + 1, n, t, r);
  }
}
