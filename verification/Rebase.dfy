/** The coordinator's behaviour depends neither on what the restart channel holds nor on the
    history of its pipeline calls: a run may be read as starting anywhere. */
module Rebase {
  import opened Health
  import opened Signaling
  import opened Ledger
  import opened Linearity
  import opened Invariants

  /** The same state but for the restart channel, calls made before (`past`), and what they
      left attached. */
  predicate Alike(s: State, b: State, past: seq<BranchCall>) {
    s == b.(restart := s.restart, calls := past + b.calls, attached := s.attached, orphans := s.orphans)
  }

  lemma DetachAlike(cfg: Config, s: State, b: State, past: seq<BranchCall>, id: Id, call: Call)
    requires Alike(s, b, past)
    ensures Alike(Detach(cfg, s, id, call), Detach(cfg, b, id, call), past)
    ensures Alike(Abandon(cfg, s, id, call), Abandon(cfg, b, id, call), past)
  {
    assert past + b.calls + [RemoveBranch(id, call)] == past + (b.calls + [RemoveBranch(id, call)]);
  }

  lemma AttachAlike(cfg: Config, s: State, b: State, past: seq<BranchCall>, id: Id, call: Call)
    requires Alike(s, b, past)
    ensures Alike(Attach(cfg, s, id, call), Attach(cfg, b, id, call), past)
  {
    assert past + b.calls + [AddBranch(id, call)] == past + (b.calls + [AddBranch(id, call)]);
  }

  lemma BlameAlike(cfg: Config, s: State, b: State, past: seq<BranchCall>, dropped: set<Ticket>)
    requires Alike(s, b, past)
    ensures Alike(Blame(cfg, s, dropped), Blame(cfg, b, dropped), past)
  {
    hide Burst;
  }

  lemma PeerGoneAlike(cfg: Config, s: State, b: State, past: seq<BranchCall>, dropped: set<Ticket>, id: Id, call: Call)
    requires Alike(s, b, past)
    ensures Alike(AfterPeerGone(cfg, s, dropped, id, call), AfterPeerGone(cfg, b, dropped, id, call), past)
  {
    hide Abandon, Blame, Alike;
    DetachAlike(cfg, s, b, past, id, call);
    BlameAlike(cfg, Abandon(cfg, s, id, call), Abandon(cfg, b, id, call), past, dropped);
  }

  lemma TakenAlike(s: State, b: State, past: seq<BranchCall>, dropped: set<Ticket>, id: Id, e: SignalError)
    requires Alike(s, b, past) && id in s.connections
    ensures
      var c := s.connections[id];
      Alike(Fail(Take(s, id), dropped, c, e), Fail(Take(b, id), dropped, c, e), past)
    ensures Alike(Take(s, id), Take(b, id), past)
  {
  }

  lemma SendAlike(s: State, b: State, past: seq<BranchCall>, dropped: set<Ticket>, t: Ticket, r: Reply)
    requires Alike(s, b, past)
    ensures Alike(Send(s, dropped, t, r), Send(b, dropped, t, r), past)
  {
  }

  lemma SameConnections(s: State, b: State, past: seq<BranchCall>)
    requires Alike(s, b, past)
    ensures s.connections == b.connections && s.clock == b.clock && s.replies == b.replies && s.health == b.health
  {
  }

  lemma ExpiryAlike(cfg: Config, s: State, b: State, past: seq<BranchCall>, dropped: set<Ticket>, id: Id, call: Call)
    requires Alike(s, b, past)
    ensures Alike(AfterExpiry(cfg, s, dropped, id, call), AfterExpiry(cfg, b, dropped, id, call), past)
  {
    hide Abandon, Blame, Alike, Fail, Take;
    SameConnections(s, b, past);
    if id in s.connections {
      var e := s.connections[id].ExpiryError();
      TakenAlike(s, b, past, dropped, id, e);
      var s1, b1 := Fail(Take(s, id), dropped, s.connections[id], e), Fail(Take(b, id), dropped, s.connections[id], e);
      DetachAlike(cfg, s1, b1, past, id, call);
      BlameAlike(cfg, Abandon(cfg, s1, id, call), Abandon(cfg, b1, id, call), past, dropped);
    }
  }

  lemma {:induction false} ExpireEachAlike(
      cfg: Config, s: State, b: State, past: seq<BranchCall>, dropped: set<Ticket>, ids: seq<Id>,
      teardowns: map<Id, Call>)
    requires Alike(s, b, past)
    ensures Alike(ExpireEach(cfg, s, dropped, ids, teardowns), ExpireEach(cfg, b, dropped, ids, teardowns), past)
  {
    hide AfterExpiry, Alike;
    if ids == [] {
    } else {
      var n := |ids| - 1;
      var s1 := ExpireEach(cfg, s, dropped, ids[..n], teardowns);
      var b1 := ExpireEach(cfg, b, dropped, ids[..n], teardowns);
      ExpireEachAlike(cfg, s, b, past, dropped, ids[..n], teardowns);
      ExpiryAlike(cfg, s1, b1, past, dropped, ids[n], TeardownOf(teardowns, ids[n]));
    }
  }

  lemma ReapAlike(cfg: Config, s: State, b: State, past: seq<BranchCall>, dropped: set<Ticket>, id: Id, call: Call)
    requires Alike(s, b, past)
    ensures Alike(AfterReap(cfg, s, dropped, id, call), AfterReap(cfg, b, dropped, id, call), past)
  {
    hide Abandon, Alike, Fail, Take;
    SameConnections(s, b, past);
    if id in s.connections {
      TakenAlike(s, b, past, dropped, id, Gone(id));
      var c := s.connections[id];
      var s1, b1 := Fail(Take(s, id), dropped, c, Gone(id)), Fail(Take(b, id), dropped, c, Gone(id));
      DetachAlike(cfg, s1, b1, past, id, call);
    }
  }

  lemma DeleteAlike(cfg: Config, s: State, b: State, past: seq<BranchCall>, dropped: set<Ticket>, id: Id, call: Call)
    requires Alike(s, b, past)
    ensures Alike(AfterDelete(cfg, s, dropped, id, call), AfterDelete(cfg, b, dropped, id, call), past)
  {
    hide Detach, TeardownError;
    if id in s.connections {
      DetachAlike(cfg, s, b, past, id, call);
      DetachAlike(cfg, Take(s, id), Take(b, id), past, id, call);
    }
  }

  lemma CreatedAlike(
      cfg: Config, s: State, b: State, past: seq<BranchCall>, dropped: set<Ticket>, id: Id, t: Ticket, call: Call)
    requires Alike(s, b, past)
    ensures Alike(Created(cfg, s, dropped, id, t, call), Created(cfg, b, dropped, id, t, call), past)
  {
    hide Attach, AttachError;
    AttachAlike(cfg, s, b, past, id, call);
  }

  lemma OfferedAlike(
      cfg: Config, s: State, b: State, past: seq<BranchCall>, dropped: set<Ticket>, id: Id, sdp: string, t: Ticket,
      call: Call)
    requires Alike(s, b, past)
    ensures Alike(Offered(cfg, s, dropped, id, sdp, t, call), Offered(cfg, b, dropped, id, sdp, t, call), past)
  {
    hide AfterPeerGone;
    if id in s.connections && s.connections[id].AwaitingOffer? {
      var peer := s.connections[id].whepReply;
      var s1 := Send(Send(Take(s, id), dropped, peer, Offer(sdp)), dropped, t, Rejected(Gone(id)));
      var b1 := Send(Send(Take(b, id), dropped, peer, Offer(sdp)), dropped, t, Rejected(Gone(id)));
      PeerGoneAlike(cfg, s1, b1, past, dropped, id, call);
    }
  }

  lemma AnsweredAlike(
      cfg: Config, s: State, b: State, past: seq<BranchCall>, dropped: set<Ticket>, id: Id, sdp: string, t: Ticket,
      call: Call)
    requires Alike(s, b, past)
    ensures Alike(Answered(cfg, s, dropped, id, sdp, t, call), Answered(cfg, b, dropped, id, sdp, t, call), past)
  {
    hide AfterPeerGone;
    if id in s.connections && s.connections[id].AwaitingAnswer? {
      var peer := s.connections[id].whipReply;
      var s1 := Send(Send(Take(s, id), dropped, peer, Answer(sdp)), dropped, t, Rejected(Gone(id)));
      var b1 := Send(Send(Take(b, id), dropped, peer, Answer(sdp)), dropped, t, Rejected(Gone(id)));
      PeerGoneAlike(cfg, s1, b1, past, dropped, id, call);
    }
  }

  lemma ClearedAlike(s: State, b: State, past: seq<BranchCall>, dropped: set<Ticket>, t: Ticket)
    requires Alike(s, b, past)
    ensures Alike(Cleared(s, dropped, t), Cleared(b, dropped, t), past)
  {
  }

  lemma HandledAlike(
      cfg: Config, s: State, b: State, past: seq<BranchCall>, dropped: set<Ticket>, command: Command, call: Call)
    requires Alike(s, b, past)
    ensures Alike(Handled(cfg, s, dropped, command, call), Handled(cfg, b, dropped, command, call), past)
  {
    hide Alike, Created, Offered, Answered, AfterDelete, Cleared, Send, TeardownError;
    SameConnections(s, b, past);
    match command
    case CreateConnection(id, t) => CreatedAlike(cfg, s, b, past, dropped, id, t, call);
    case OfferReceived(id, sdp, t) => OfferedAlike(cfg, s, b, past, dropped, id, sdp, t, call);
    case AnswerReceived(id, sdp, t) => AnsweredAlike(cfg, s, b, past, dropped, id, sdp, t, call);
    case RemoveConnection(id, t) =>
      DeleteAlike(cfg, s, b, past, dropped, id, call);
      var s1, b1 := AfterDelete(cfg, s, dropped, id, call), AfterDelete(cfg, b, dropped, id, call);
      SendAlike(s1, b1, past, dropped, t, DeletedReply(cfg, s, id, call));
    case ListConnections(t) => SendAlike(s, b, past, dropped, t, Listing(Snapshot(s)));
    case Reset(t) => ClearedAlike(s, b, past, dropped, t);
  }

  lemma ArrivedAlike(s: State, b: State, past: seq<BranchCall>, wait: nat, t: Ticket)
    requires Alike(s, b, past)
    ensures Alike(Awake(s, wait), Awake(b, wait), past)
    ensures Alike(Submit(s, t), Submit(b, t), past)
  {
  }

  /** Alike states take alike steps, and the same events can happen to them. */
  lemma StepAlike(cfg: Config, s: State, b: State, past: seq<BranchCall>, e: Event)
    requires Alike(s, b, past)
    ensures Alike(Step(cfg, s, e), Step(cfg, b, e), past)
    ensures Admissible(s, e) <==> Admissible(b, e)
  {
    hide Alike, Handled, AfterReap, ExpireEach, Awake, Submit;
    SameConnections(s, b, past);
    ArrivedAlike(s, b, past, e.wait, 0);
    var s0, b0 := Awake(s, e.wait), Awake(b, e.wait);
    SameConnections(s0, b0, past);
    match e.input
    case Handle(command, call) =>
      ArrivedAlike(s0, b0, past, 0, command.reply);
      HandledAlike(cfg, Submit(s0, command.reply), Submit(b0, command.reply), past, e.dropped, command, call);
    case ReapBranch(id, call) => ReapAlike(cfg, s0, b0, past, e.dropped, id, call);
    case SweepTick(iteration, teardowns) =>
      ExpireEachAlike(cfg, s0, b0, past, e.dropped, ExpiredOf(s0.connections, s0.clock, iteration), teardowns);
  }

  lemma {:induction false} RunsAlike(cfg: Config, s: State, b: State, past: seq<BranchCall>, events: seq<Event>, n: nat)
    requires Alike(s, b, past) && n <= |events|
    ensures Alike(At(cfg, s, events, n), At(cfg, b, events, n), past)
  {
    hide Alike, Step;
    if n == 0 {
    } else {
      RunsAlike(cfg, s, b, past, events, n - 1);
      StepAlike(cfg, At(cfg, s, events, n - 1), At(cfg, b, events, n - 1), past, events[n - 1]);
    }
  }

  lemma PossibleAlike(cfg: Config, s: State, b: State, past: seq<BranchCall>, events: seq<Event>)
    requires Alike(s, b, past) && Possible(cfg, s, events)
    ensures Possible(cfg, b, events)
  {
    hide Alike, Step, Admissible;
    forall k | 0 <= k < |events| ensures Admissible(At(cfg, b, events, k), events[k]) {
      RunsAlike(cfg, s, b, past, events, k);
      StepAlike(cfg, At(cfg, s, events, k), At(cfg, b, events, k), past, events[k]);
    }
  }

  /* ----- starting over ----- */

  /** The state as if nothing had ever been attached. */
  function Afresh(s: State): State {
    s.(calls := [], attached := {}, orphans := {})
  }

  lemma AfreshIsFine(cfg: Config, s: State)
    requires Inv(cfg, s) && s.connections == map[]
    ensures Inv(cfg, Afresh(s)) && Alike(s, Afresh(s), s.calls)
  {
    assert s.calls + [] == s.calls;
  }

  /** What was attached in a later stretch of a history is attached in the whole of it. */
  lemma {:induction false} LaterAttached(cfg: Config, past: seq<BranchCall>, calls: seq<BranchCall>)
    ensures Attached(cfg, calls) <= Attached(cfg, past + calls)
  {
    if calls == [] {
    } else {
      var n := |calls| - 1;
      assert past + calls == past + calls[..n] + [calls[n]] && calls == calls[..n] + [calls[n]];
      LaterAttached(cfg, past, calls[..n]);
      OneMoreCall(cfg, past + calls[..n], calls[n]);
    }
  }

  /** The calls made from `start` to `s`. */
  function CallsSince(start: State, s: State): seq<BranchCall> {
    if |start.calls| <= |s.calls| then s.calls[|start.calls|..] else []
  }

  /** From a state with an empty map on, the books can be kept afresh: the calls made since
      say by themselves what is attached for the live entries and which of them a failed
      teardown has damaged. */
  lemma BooksFrom(cfg: Config, start: State, events: seq<Event>, n: nat)
    requires Inv(cfg, start) && start.connections == map[] && Possible(cfg, start, events) && n <= |events|
    ensures At(cfg, start, events, n).calls == start.calls + CallsSince(start, At(cfg, start, events, n))
    ensures
      var s := At(cfg, start, events, n);
      var since := CallsSince(start, s);
      && (forall id :: id in s.connections ==> id in Attached(cfg, since))
      && (forall id :: id in s.connections && id in Damaged(cfg, since) ==> TeardownFailed(cfg, since, id))
      && Attached(cfg, since) <= s.connections.Keys + s.orphans
  {
    hide Step, Possible, Honest, Attached, Damaged, TeardownFailed, Linear, DeadlinesNear;
    AfreshIsFine(cfg, start);
    RunsAlike(cfg, start, Afresh(start), start.calls, events, n);
    PossibleAlike(cfg, start, Afresh(start), start.calls, events);
    RunsKeepInv(cfg, start, events, n);
    RunsKeepInv(cfg, Afresh(start), events, n);
    var s, b := At(cfg, start, events, n), At(cfg, Afresh(start), events, n);
    assert CallsSince(start, s) == b.calls;
    LaterAttached(cfg, start.calls, b.calls);
  }
}
