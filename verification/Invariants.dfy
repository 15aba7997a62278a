/** What every turn of the actor keeps: the watchdog history is honest, deadlines stay
    near, and the connection map agrees with the branches in the pipeline. */
module Invariants {
  import opened Prelude
  import opened Health
  import opened Signaling
  import opened Linearity
  import opened Ledger

  /** No parked deadline is further away than the longest handshake leg. */
  ghost predicate DeadlinesNear(cfg: Config, s: State) {
    forall id :: id in s.connections && !s.connections[id].Established? ==>
                   s.connections[id].deadline <= s.clock + Max(cfg.offerTimeout, cfg.answerTimeout)
  }

  /** Every branch in the pipeline belongs to exactly one of: a live entry, the orphans,
      or an entry the running step has `taken`. */
  ghost predicate Agreed(s: State, taken: set<Id>) {
    && s.attached == s.connections.Keys + s.orphans + taken
    && s.connections.Keys !! s.orphans
    && taken !! (s.connections.Keys + s.orphans)
  }

  /** The ledger of branches is what the history of calls says, and a branch in use can
      only have been damaged by a teardown that failed. */
  ghost predicate Booked(cfg: Config, s: State, taken: set<Id>) {
    && s.attached == Attached(cfg, s.calls)
    && forall id :: id in s.connections.Keys + taken && id in Damaged(cfg, s.calls) ==> TeardownFailed(cfg, s.calls, id)
  }

  ghost predicate Sane(cfg: Config, s: State, taken: set<Id>) {
    && Honest(cfg.watchdogThreshold as nat, cfg.watchdogWindow, s.health)
    && DeadlinesNear(cfg, s)
    && Agreed(s, taken)
    && Booked(cfg, s, taken)
  }

  lemma AbandonIsSane(cfg: Config, s: State, id: Id, call: Call)
    requires Sane(cfg, s, {id})
    ensures Sane(cfg, Abandon(cfg, s, id, call), {})
  {
    hide Attached, Damaged, TeardownFailed, Honest;
    OneMoreCall(cfg, s.calls, RemoveBranch(id, call));
  }

  lemma BlameIsSane(cfg: Config, s: State, dropped: set<Ticket>)
    requires Sane(cfg, s, {})
    ensures Sane(cfg, Blame(cfg, s, dropped), {})
  {
    Appended(s.health, FailureEvent(cfg, s));
  }

  lemma SuccessIsHonest(cfg: Config, h: seq<HealthEvent>)
    requires Honest(cfg.watchdogThreshold as nat, cfg.watchdogWindow, h)
    ensures Honest(cfg.watchdogThreshold as nat, cfg.watchdogWindow, h + [Succeeded])
  {
    Appended(h, Succeeded);
  }

  lemma TakenOutIsSane(cfg: Config, s: State, dropped: set<Ticket>, id: Id, e: SignalError)
    requires Sane(cfg, s, {}) && id in s.connections
    ensures Sane(cfg, Take(s, id), {id})
    ensures Sane(cfg, Fail(Take(s, id), dropped, s.connections[id], e), {id})
  {
  }

  lemma AfterExpiryIsSane(cfg: Config, s: State, dropped: set<Ticket>, id: Id, call: Call)
    requires Sane(cfg, s, {})
    ensures Sane(cfg, AfterExpiry(cfg, s, dropped, id, call), {})
  {
    if id in s.connections {
      var c := s.connections[id];
      TakenOutIsSane(cfg, s, dropped, id, c.ExpiryError());
      var told := Fail(Take(s, id), dropped, c, c.ExpiryError());
      AbandonIsSane(cfg, told, id, call);
      BlameIsSane(cfg, Abandon(cfg, told, id, call), dropped);
    }
  }

  lemma ExpireEachIsSane(cfg: Config, s: State, dropped: set<Ticket>, ids: seq<Id>, teardowns: map<Id, Call>)
    requires Sane(cfg, s, {})
    ensures Sane(cfg, ExpireEach(cfg, s, dropped, ids, teardowns), {})
  {
    if ids == [] {
    } else {
      var n := |ids| - 1;
      ExpireEachIsSane(cfg, s, dropped, ids[..n], teardowns);
      AfterExpiryIsSane(cfg, ExpireEach(cfg, s, dropped, ids[..n], teardowns), dropped, ids[n],
            TeardownOf(teardowns, ids[n]));
    }
  }

  lemma AfterDeleteIsSane(cfg: Config, s: State, dropped: set<Ticket>, id: Id, call: Call)
    requires Sane(cfg, s, {})
    ensures Sane(cfg, AfterDelete(cfg, s, dropped, id, call), {})
  {
    hide Attached, Damaged, TeardownFailed, Honest;
    OneMoreCall(cfg, s.calls, RemoveBranch(id, call));
    if id in s.connections {
      TakenOutIsSane(cfg, s, dropped, id, Gone(id));
    }
  }

  lemma AfterReapIsSane(cfg: Config, s: State, dropped: set<Ticket>, id: Id, call: Call)
    requires Sane(cfg, s, {})
    ensures Sane(cfg, AfterReap(cfg, s, dropped, id, call), {})
  {
    if id in s.connections {
      TakenOutIsSane(cfg, s, dropped, id, Gone(id));
      AbandonIsSane(cfg, Fail(Take(s, id), dropped, s.connections[id], Gone(id)), id, call);
    }
  }

  lemma AfterPeerGoneIsSane(cfg: Config, s: State, dropped: set<Ticket>, id: Id, call: Call)
    requires Sane(cfg, s, {id})
    ensures Sane(cfg, AfterPeerGone(cfg, s, dropped, id, call), {})
  {
    AbandonIsSane(cfg, s, id, call);
    BlameIsSane(cfg, Abandon(cfg, s, id, call), dropped);
  }

  lemma ParkedIsSane(cfg: Config, s: State, id: Id, c: Connection)
    requires Sane(cfg, s, {id})
    requires !c.Established? ==> c.deadline <= s.clock + Max(cfg.offerTimeout, cfg.answerTimeout)
    ensures Sane(cfg, Park(s, id, c), {})
  {
  }

  lemma CreatedIsSane(cfg: Config, s: State, dropped: set<Ticket>, id: Id, t: Ticket, call: Call)
    requires Sane(cfg, s, {})
    ensures Sane(cfg, Created(cfg, s, dropped, id, t, call), {})
  {
    hide Attached, Damaged, TeardownFailed, Honest, Log, Fate;
    OneMoreCall(cfg, s.calls, AddBranch(id, call));
  }

  lemma OfferedIsSane(cfg: Config, s: State, dropped: set<Ticket>, id: Id, sdp: string, t: Ticket, call: Call)
    requires Sane(cfg, s, {})
    ensures Sane(cfg, Offered(cfg, s, dropped, id, sdp, t, call), {})
  {
    hide Honest, Burst, Log, Fate;
    if id in s.connections && s.connections[id].AwaitingOffer? {
      var peer := s.connections[id].whepReply;
      TakenOutIsSane(cfg, s, dropped, id, Gone(id));
      var s1 := Send(Take(s, id), dropped, peer, Offer(sdp));
      if peer in dropped {
        AfterPeerGoneIsSane(cfg, Send(s1, dropped, t, Rejected(Gone(id))), dropped, id, call);
      } else {
        ParkedIsSane(cfg, s1, id, AwaitingAnswer(t, s1.clock + cfg.answerTimeout));
      }
    }
  }

  lemma AnsweredIsSane(cfg: Config, s: State, dropped: set<Ticket>, id: Id, sdp: string, t: Ticket, call: Call)
    requires Sane(cfg, s, {})
    ensures Sane(cfg, Answered(cfg, s, dropped, id, sdp, t, call), {})
  {
    hide Honest, Burst, Log, Fate;
    if id in s.connections && s.connections[id].AwaitingAnswer? {
      var peer := s.connections[id].whipReply;
      TakenOutIsSane(cfg, s, dropped, id, Gone(id));
      var s1 := Send(Take(s, id), dropped, peer, Answer(sdp));
      if peer in dropped {
        AfterPeerGoneIsSane(cfg, Send(s1, dropped, t, Rejected(Gone(id))), dropped, id, call);
      } else {
        SuccessIsHonest(cfg, s.health);
        var s2 := s1.(health := s.health + [Succeeded]);
        assert Sane(cfg, s2, {id});
        ParkedIsSane(cfg, s2, id, Established(s.clock));
      }
    }
  }

  /** The invariant of the actor between turns. */
  ghost predicate Inv(cfg: Config, s: State) {
    Linear(s) && Sane(cfg, s, {})
  }

  lemma OnlyRepliesIsSane(cfg: Config, s: State, s': State)
    requires Sane(cfg, s, {}) && s' == s.(replies := s'.replies, clock := s'.clock) && s.clock <= s'.clock
    ensures Sane(cfg, s', {})
  {
    hide Honest, Attached, Damaged, TeardownFailed;
  }

  lemma ClearedIsSane(cfg: Config, s: State, dropped: set<Ticket>, t: Ticket)
    requires Sane(cfg, s, {})
    ensures Sane(cfg, Cleared(s, dropped, t), {})
  {
    hide Honest, Attached, Damaged, TeardownFailed;
    SuccessIsHonest(cfg, s.health);
  }

  lemma HandledIsSane(cfg: Config, s: State, dropped: set<Ticket>, command: Command, call: Call)
    requires Sane(cfg, s, {})
    ensures Sane(cfg, Handled(cfg, s, dropped, command, call), {})
  {
    hide Sane, Created, Offered, Answered, AfterDelete, Cleared;
    match command
    case CreateConnection(id, t) => CreatedIsSane(cfg, s, dropped, id, t, call);
    case OfferReceived(id, sdp, t) => OfferedIsSane(cfg, s, dropped, id, sdp, t, call);
    case AnswerReceived(id, sdp, t) => AnsweredIsSane(cfg, s, dropped, id, sdp, t, call);
    case RemoveConnection(id, t) =>
      var gone := AfterDelete(cfg, s, dropped, id, call);
      AfterDeleteIsSane(cfg, s, dropped, id, call);
      OnlyRepliesIsSane(cfg, gone, Send(gone, dropped, t, DeletedReply(cfg, s, id, call)));
    case ListConnections(t) => OnlyRepliesIsSane(cfg, s, Send(s, dropped, t, Listing(Snapshot(s))));
    case Reset(t) => ClearedIsSane(cfg, s, dropped, t);
  }

  lemma StepKeepsInv(cfg: Config, s: State, e: Event)
    requires Inv(cfg, s) && Admissible(s, e)
    ensures Inv(cfg, Step(cfg, s, e))
  {
    hide Sane, Linear, Handled, AfterReap, ExpireEach, Admissible;
    StepKeepsLinear(cfg, s, e);
    var s0 := Awake(s, e.wait);
    OnlyRepliesIsSane(cfg, s, s0);
    match e.input
    case Handle(command, call) =>
      OnlyRepliesIsSane(cfg, s0, Submit(s0, command.reply));
      HandledIsSane(cfg, Submit(s0, command.reply), e.dropped, command, call);
    case ReapBranch(id, call) => AfterReapIsSane(cfg, s0, e.dropped, id, call);
    case SweepTick(iteration, teardowns) =>
      ExpireEachIsSane(cfg, s0, e.dropped, ExpiredOf(s0.connections, s0.clock, iteration), teardowns);
  }

  /** Every run keeps it, wherever it starts. */
  lemma {:induction false} RunsKeepInv(cfg: Config, start: State, events: seq<Event>, n: nat)
    requires Inv(cfg, start) && Possible(cfg, start, events) && n <= |events|
    ensures Inv(cfg, At(cfg, start, events, n))
  {
    hide Step, Inv, Admissible;
    if n == 0 {
    } else {
      RunsKeepInv(cfg, start, events, n - 1);
      StepKeepsInv(cfg, At(cfg, start, events, n - 1), events[n - 1]);
    }
  }

  /** Invariants of every reachable state: each reply sender ever submitted is consumed
      exactly once or parked in exactly one entry; the watchdog history is honest; no
      deadline is far; and the branches in the pipeline are exactly those of the live
      entries plus the orphans, the two disjoint. */
  lemma EveryRunKeepsInv(cfg: Config, events: seq<Event>, n: nat)
    requires Possible(cfg, INITIAL, events) && n <= |events|
    ensures Inv(cfg, At(cfg, INITIAL, events, n))
  {
    hide Inv, Possible, At;
    InitialInv(cfg);
    RunsKeepInv(cfg, INITIAL, events, n);
  }

  lemma InitialInv(cfg: Config)
    ensures Inv(cfg, INITIAL)
  {
  }

  /** Reply linearity spelled out for one sender. */
  lemma SenderUsedOrParkedOnce(cfg: Config, events: seq<Event>, n: nat, t: Ticket)
    requires Possible(cfg, INITIAL, events) && n <= |events|
    requires t in At(cfg, INITIAL, events, n).replies
    ensures
      var s := At(cfg, INITIAL, events, n);
      && |s.replies[t]| <= 1
      && (|s.replies[t]| == 0 <==> Waiting(s.connections, t))
      && (forall i, j :: (i in s.connections && j in s.connections
                          && s.connections[i].Waiter() == Some(t) == s.connections[j].Waiter()) ==> i == j)
  {
    EveryRunKeepsInv(cfg, events, n);
  }
}
