/** What every client is told: in each turn of the actor, the sender of the command and
    each waiter parked on a connection. */
module Replies {
  import opened Prelude
  import opened Health
  import opened Signaling
  import opened Linearity
  import opened Lifecycle
  import opened Causality
  import opened Routes

  /** The reply that ends the wait parked on `id`, if the event is about it. */
  function Due(cfg: Config, s: State, e: Event, id: Id): Option<Reply>
    requires id in s.connections
  {
    var c := s.connections[id];
    match e.input
    case Handle(OfferReceived(i, sdp, _), _) => if i == id && c.AwaitingOffer? then Some(Offer(sdp)) else None
    case Handle(AnswerReceived(i, sdp, _), _) => if i == id && c.AwaitingAnswer? then Some(Answer(sdp)) else None
    case Handle(RemoveConnection(i, _), call) =>
      if i == id && TeardownError(cfg, call).None? then Some(Rejected(Gone(id))) else None
    case Handle(Reset(_), _) => Some(Rejected(Unavailable))
    case ReapBranch(i, _) => if i == id then Some(Rejected(Gone(id))) else None
    case SweepTick(_, _) =>
      if !c.Established? && c.deadline <= s.clock + e.wait then Some(Rejected(LegTimeout(c))) else None
    case _ => None
  }

  /** What the step tells the waiter `t` parked on `id`: the reply it is due, `Unavailable`
      if a trip gets there first, or nothing, and then it stays parked as it was. */
  ghost predicate Told(cfg: Config, s: State, e: Event, s': State, id: Id, t: Ticket)
    requires id in s.connections
  {
    match Due(cfg, s, e, id)
    case Some(r) =>
      || Log(s', t) == [Fate(e.dropped, t, r)]
      || (e.input.SweepTick? && Tripping(cfg, s, e) && Log(s', t) == [Fate(e.dropped, t, Rejected(Unavailable))])
    case None =>
      if Tripping(cfg, s, e) then Log(s', t) == [Fate(e.dropped, t, Rejected(Unavailable))]
      else Log(s', t) == [] && Entry(s', id) == Entry(s, id)
  }

  lemma ParkedIsUntold(s: State, id: Id)
    requires Linear(s) && id in s.connections && s.connections[id].Waiter().Some?
    ensures Log(s, s.connections[id].Waiter().value) == []
  {
  }

  /** A failed handshake of `x`, from the moment the surviving leg is answered. */
  lemma PeerGoneTells(cfg: Config, s: State, dropped: set<Ticket>, x: Id, call: Call, t: Ticket)
    requires t in s.replies
    ensures
      var s' := AfterPeerGone(cfg, s, dropped, x, call);
      Log(s', t) == Log(s, t) + if Trips(s'.health) > Trips(s.health) && Waiting(s.connections, t)
                                then [Fate(dropped, t, Rejected(Unavailable))] else []
  {
    hide Blame;
    BlameFate(cfg, Abandon(cfg, s, x, call), dropped, t);
  }

  lemma OnlyItsOwn(s: State, id: Id, x: Id, t: Ticket)
    requires Linear(s) && id in s.connections && s.connections[id].Waiter() == Some(t)
    ensures Waiting(Take(s, x).connections, t) <==> id != x
  {
    if id != x {
      assert id in Take(s, x).connections;
    }
  }

  lemma OfferTells(
      cfg: Config, s: State, dropped: set<Ticket>, x: Id, sdp: string, own: Ticket, call: Call, id: Id, t: Ticket)
    requires Linear(s) && own !in s.replies
    requires id in s.connections && s.connections[id].Waiter() == Some(t)
    ensures
      var s' := Offered(cfg, Submit(s, own), dropped, x, sdp, own, call);
      Log(s', t) ==
      if id == x && s.connections[id].AwaitingOffer? then [Fate(dropped, t, Offer(sdp))]
      else if Trips(s'.health) > Trips(s.health) then [Fate(dropped, t, Rejected(Unavailable))]
      else []
  {
    hide AfterPeerGone;
    var s0 := Submit(s, own);
    if x in s.connections && s.connections[x].AwaitingOffer? {
      var peer := s.connections[x].whepReply;
      var s1 := Send(Take(s0, x), dropped, peer, Offer(sdp));
      OnlyItsOwn(s, id, x, t);
      if peer in dropped {
        PeerGoneTells(cfg, Send(s1, dropped, own, Rejected(Gone(x))), dropped, x, call, t);
      }
    }
  }

  lemma AnswerTells(
      cfg: Config, s: State, dropped: set<Ticket>, x: Id, sdp: string, own: Ticket, call: Call, id: Id, t: Ticket)
    requires Linear(s) && own !in s.replies
    requires id in s.connections && s.connections[id].Waiter() == Some(t)
    ensures
      var s' := Answered(cfg, Submit(s, own), dropped, x, sdp, own, call);
      Log(s', t) ==
      if id == x && s.connections[id].AwaitingAnswer? then [Fate(dropped, t, Answer(sdp))]
      else if Trips(s'.health) > Trips(s.health) then [Fate(dropped, t, Rejected(Unavailable))]
      else []
  {
    hide AfterPeerGone;
    Appended(s.health, Succeeded);
    var s0 := Submit(s, own);
    if x in s.connections && s.connections[x].AwaitingAnswer? {
      var peer := s.connections[x].whipReply;
      var s1 := Send(Take(s0, x), dropped, peer, Answer(sdp));
      OnlyItsOwn(s, id, x, t);
      if peer in dropped {
        PeerGoneTells(cfg, Send(s1, dropped, own, Rejected(Gone(x))), dropped, x, call, t);
      }
    }
  }

  lemma ReapTells(cfg: Config, s: State, dropped: set<Ticket>, id: Id, call: Call, t: Ticket)
    requires Linear(s) && id in s.connections && s.connections[id].Waiter() == Some(t)
    ensures Log(AfterReap(cfg, s, dropped, id, call), t) == [Fate(dropped, t, Rejected(Gone(id)))]
  {
  }

  lemma ResetTells(s: State, dropped: set<Ticket>, own: Ticket, id: Id, t: Ticket)
    requires Linear(s) && own !in s.replies && id in s.connections && s.connections[id].Waiter() == Some(t)
    ensures Log(Cleared(Submit(s, own), dropped, own), t) == [Fate(dropped, t, Rejected(Unavailable))]
  {
  }

  /** A step that leaves an entry as it was has not used its waiter. */
  lemma UntouchedIsUntold(cfg: Config, s: State, e: Event, id: Id)
    requires Linear(s) && Admissible(s, e) && id in s.connections && s.connections[id].Waiter().Some?
    requires Entry(Step(cfg, s, e), id) == Entry(s, id)
    ensures Log(Step(cfg, s, e), s.connections[id].Waiter().value) == []
  {
    hide Step;
    StepKeepsLinear(cfg, s, e);
    ParkedIsUntold(Step(cfg, s, e), id);
  }

  lemma SweepTells(cfg: Config, s: State, e: Event, id: Id)
    requires Linear(s) && Admissible(s, e) && e.input.SweepTick?
    requires id in s.connections && s.connections[id].Waiter().Some?
    ensures Told(cfg, s, e, Step(cfg, s, e), id, s.connections[id].Waiter().value)
  {
    hide Step;
    SweepIsCorrect(cfg, s, e);
    SweepIsPerViewer(cfg, s, e);
    assert SweptFate(s, Step(cfg, s, e), e.dropped, id, id in Overdue(s, s.clock + e.wait));
    if Entry(Step(cfg, s, e), id) == Entry(s, id) {
      UntouchedIsUntold(cfg, s, e, id);
    }
  }

  /** Who waits on a connection: the viewer for the offer, then the whip sink for the answer. */
  function ClientOf(c: Connection): Ticket
    requires !c.Established?
  {
    if c.AwaitingOffer? then c.whepReply else c.whipReply
  }

  /** How a listing calls the state of a connection. */
  function StateName(c: Connection): string {
    match c
    case AwaitingOffer(_, _) => "awaiting_offer"
    case AwaitingAnswer(_, _) => "awaiting_answer"
    case Established(_) => "established"
  }

  /** Nobody waits in vain, and nobody is told the wrong thing: whatever a step does to a
      connection, the waiter parked on it is told exactly that, once. */
  lemma WaitersLearnWhy(cfg: Config, s: State, e: Event, id: Id)
    requires Linear(s) && Admissible(s, e) && id in s.connections && !s.connections[id].Established?
    ensures Told(cfg, s, e, Step(cfg, s, e), id, ClientOf(s.connections[id]))
  {
    hide Created, Offered, Answered, ExpireEach, AfterReap, AfterDelete, ResetAll, Cleared;
    var s0, t := Awake(s, e.wait), s.connections[id].Waiter().value;
    StepIsPerViewer(cfg, s, e);
    if !Wholesale(cfg, s, e) && Due(cfg, s, e, id).None? {
      assert Entry(Step(cfg, s, e), id) == NextEntry(cfg, s.clock + e.wait, e, id, Entry(s, id));
      UntouchedIsUntold(cfg, s, e, id);
    } else {
      match e.input
      case Handle(OfferReceived(x, sdp, own), call) => OfferTells(cfg, s0, e.dropped, x, sdp, own, call, id, t);
      case Handle(AnswerReceived(x, sdp, own), call) => AnswerTells(cfg, s0, e.dropped, x, sdp, own, call, id, t);
      case Handle(RemoveConnection(x, _), _) =>
        QuietSteps(cfg, s, e);
        DeleteStep(cfg, s, e, x);
      case Handle(Reset(own), _) => ResetTells(s0, e.dropped, own, id, t);
      case Handle(_, _) => QuietSteps(cfg, s, e);
      case ReapBranch(x, call) =>
        QuietSteps(cfg, s, e);
        ReapTells(cfg, s0, e.dropped, id, call, t);
      case SweepTick(_, _) => SweepTells(cfg, s, e, id);
    }
  }

  /** What the sender of a command is told at once, or nothing if it is parked. */
  function Verdict(cfg: Config, s: State, dropped: set<Ticket>, command: Command, call: Call): Option<Reply> {
    match command
    case CreateConnection(id, _) =>
      if Entry(s, id).Some? then Some(Rejected(WrongState(id)))
      else (match AttachError(cfg, call) case Some(e) => Some(Rejected(e)) case None => None)
    case OfferReceived(id, _, _) => DeliveryVerdict(Entry(s, id), 1, dropped, id, None)
    case AnswerReceived(id, _, _) => DeliveryVerdict(Entry(s, id), 2, dropped, id, Some(Done))
    case RemoveConnection(id, _) =>
      if Entry(s, id).None? then Some(Rejected(NotFound(id)))
      else (match TeardownError(cfg, call) case Some(e) => Some(Rejected(e)) case None => Some(Done))
    case ListConnections(_) => Some(Listing(map id | id in s.connections :: StateName(s.connections[id])))
    case Reset(_) => Some(Done)
  }

  /** Of a delivery to an entry that must be in the given phase. */
  function DeliveryVerdict(
      c: Option<Connection>, phase: nat, dropped: set<Ticket>, id: Id, success: Option<Reply>): Option<Reply> {
    if c.None? then Some(Rejected(NotFound(id)))
    else if Phase(c) != phase then Some(Rejected(WrongState(id)))
    else if c.value.Waiter().Some? && c.value.Waiter().value in dropped then Some(Rejected(Gone(id)))
    else success
  }

  lemma OwnOfferVerdict(cfg: Config, s: State, dropped: set<Ticket>, x: Id, sdp: string, own: Ticket, call: Call)
    requires Linear(s) && own !in s.replies
    ensures Log(Offered(cfg, Submit(s, own), dropped, x, sdp, own, call), own) ==
            match DeliveryVerdict(Entry(s, x), 1, dropped, x, None)
            case Some(r) => [Fate(dropped, own, r)]
            case None => []
  {
    hide AfterPeerGone;
    if x in s.connections && s.connections[x].AwaitingOffer? {
      var peer := s.connections[x].whepReply;
      var s1 := Send(Take(Submit(s, own), x), dropped, peer, Offer(sdp));
      assert !Waiting(s.connections, own);
      if peer in dropped {
        PeerGoneTells(cfg, Send(s1, dropped, own, Rejected(Gone(x))), dropped, x, call, own);
      }
    }
  }

  lemma OwnAnswerVerdict(cfg: Config, s: State, dropped: set<Ticket>, x: Id, sdp: string, own: Ticket, call: Call)
    requires Linear(s) && own !in s.replies
    ensures Log(Answered(cfg, Submit(s, own), dropped, x, sdp, own, call), own) ==
            match DeliveryVerdict(Entry(s, x), 2, dropped, x, Some(Done))
            case Some(r) => [Fate(dropped, own, r)]
            case None => []
  {
    hide AfterPeerGone;
    if x in s.connections && s.connections[x].AwaitingAnswer? {
      var peer := s.connections[x].whipReply;
      var s1 := Send(Take(Submit(s, own), x), dropped, peer, Answer(sdp));
      assert !Waiting(s.connections, own);
      if peer in dropped {
        PeerGoneTells(cfg, Send(s1, dropped, own, Rejected(Gone(x))), dropped, x, call, own);
      }
    }
  }

  lemma OwnCreateVerdict(cfg: Config, s: State, dropped: set<Ticket>, id: Id, own: Ticket, call: Call)
    requires own !in s.replies
    ensures Log(Created(cfg, Submit(s, own), dropped, id, own, call), own) ==
            match Verdict(cfg, s, dropped, CreateConnection(id, own), call)
            case Some(r) => [Fate(dropped, own, r)]
            case None => []
  {
    hide AttachError;
  }

  lemma OwnDeleteVerdict(cfg: Config, s: State, dropped: set<Ticket>, id: Id, own: Ticket, call: Call)
    requires Linear(s) && own !in s.replies
    ensures Log(Removed(cfg, Submit(s, own), dropped, id, own, call), own) ==
            match Verdict(cfg, s, dropped, RemoveConnection(id, own), call)
            case Some(r) => [Fate(dropped, own, r)]
            case None => []
  {
    hide TeardownError;
  }

  lemma OwnResetVerdict(s: State, dropped: set<Ticket>, own: Ticket)
    requires Linear(s) && own !in s.replies
    ensures Log(Cleared(Submit(s, own), dropped, own), own) == [Fate(dropped, own, Done)]
  {
    assert !Waiting(s.connections, own);
  }

  lemma StatesAreNamed(s: State)
    ensures Snapshot(s) == map id | id in s.connections :: StateName(s.connections[id])
  {
  }

  lemma OwnQuietVerdict(cfg: Config, s: State, dropped: set<Ticket>, command: Command, call: Call)
    requires Linear(s) && command.reply !in s.replies && !command.OfferReceived? && !command.AnswerReceived?
    ensures Log(Handled(cfg, Submit(s, command.reply), dropped, command, call), command.reply) ==
            match Verdict(cfg, s, dropped, command, call)
            case Some(r) => [Fate(dropped, command.reply, r)]
            case None => []
  {
    hide Created, Offered, Answered, Removed, Cleared, AttachError, TeardownError;
    match command
    case CreateConnection(id, t) => OwnCreateVerdict(cfg, s, dropped, id, t, call);
    case RemoveConnection(id, t) => OwnDeleteVerdict(cfg, s, dropped, id, t, call);
    case ListConnections(t) => StatesAreNamed(Submit(s, t));
    case Reset(t) => OwnResetVerdict(s, dropped, t);
  }

  /** Every command is answered in its own turn with its verdict, also when the same turn
      trips the watchdog, or else its sender is parked on the entry the command brought. */
  lemma CommandsGetTheirVerdict(cfg: Config, s: State, e: Event)
    requires Linear(s) && Admissible(s, e) && e.input.Handle?
    ensures
      var s', own := Step(cfg, s, e), e.input.command.reply;
      match Verdict(cfg, s, e.dropped, e.input.command, e.input.call)
      case Some(r) => Log(s', own) == [Fate(e.dropped, own, r)] && !Waiting(s'.connections, own)
      case None => Log(s', own) == [] && Waiting(s'.connections, own)
  {
    hide Created, Offered, Answered, AfterDelete, Cleared, AttachError, TeardownError;
    var s0 := Awake(s, e.wait);
    match e.input.command {
      case OfferReceived(id, sdp, own) => OwnOfferVerdict(cfg, s0, e.dropped, id, sdp, own, e.input.call);
      case AnswerReceived(id, sdp, own) => OwnAnswerVerdict(cfg, s0, e.dropped, id, sdp, own, e.input.call);
      case _ => OwnQuietVerdict(cfg, s0, e.dropped, e.input.command, e.input.call);
    }
    UsedOrParked(cfg, s, e);
  }

  lemma UsedOrParked(cfg: Config, s: State, e: Event)
    requires Linear(s) && Admissible(s, e) && e.input.Handle?
    ensures Log(Step(cfg, s, e), e.input.command.reply) == [] ==>
            Waiting(Step(cfg, s, e).connections, e.input.command.reply)
    ensures Log(Step(cfg, s, e), e.input.command.reply) != [] ==>
            !Waiting(Step(cfg, s, e).connections, e.input.command.reply)
  {
    hide Step;
    StepKeepsLinear(cfg, s, e);
    StepSubmits(cfg, s, e);
  }
}
