/** Vocabulary of the signaling plane (src/signal/messages.rs, src/signal/errors.rs)
    and what each coordinator step does to the state, written death by death. The
    class in `Coordination` is proved to take exactly these steps. */
module Signaling {
  import opened Prelude
  import opened Health

  type Id = string
  type Instant = nat

  /** Names one oneshot sender; a sender is moved into exactly one command. */
  type Ticket = nat

  datatype Config = Config(
    offerTimeout: nat, answerTimeout: nat, watchdogThreshold: u32, watchdogWindow: nat, teardownTimeout: nat)

  datatype PipelineError = InputNotReady | Transient(msg: string) | Fatal(msg: string)

  datatype SignalError =
    | NotFound(id: Id)
    | Gone(id: Id)
    | WrongState(id: Id)
    | Timeout(leg: string)
    | NotReady
    | PipelineBusy(msg: string)
    | Unavailable
    | Pipeline(msg: string)

  function FromPipeline(e: PipelineError): SignalError {
    match e
    case InputNotReady => NotReady
    case Transient(msg) => PipelineBusy(msg)
    case Fatal(msg) => Pipeline(msg)
  }

  /** What travels over a oneshot. */
  datatype Reply =
    | Offer(sdp: string)
    | Answer(sdp: string)
    | Done
    | Listing(states: map<Id, string>)
    | Rejected(error: SignalError)

  /** The fate of one send: the receiver got the reply, or had been dropped. */
  datatype Sent = Delivered(reply: Reply) | ReceiverGone

  datatype Command =
    | CreateConnection(id: Id, reply: Ticket)
    | OfferReceived(id: Id, sdp: string, reply: Ticket)
    | AnswerReceived(id: Id, sdp: string, reply: Ticket)
    | RemoveConnection(id: Id, reply: Ticket)
    | ListConnections(reply: Ticket)
    | Reset(reply: Ticket)

  datatype Connection =
    | AwaitingOffer(whepReply: Ticket, deadline: Instant)
    | AwaitingAnswer(whipReply: Ticket, deadline: Instant)
    | Established(since: Instant)
  {
    /** The reply waiter parked on this connection. */
    function Waiter(): Option<Ticket> {
      match this
      case AwaitingOffer(t, _) => Some(t)
      case AwaitingAnswer(t, _) => Some(t)
      case Established(_) => None
    }

    function Deadline(): Option<Instant> {
      match this
      case AwaitingOffer(_, d) => Some(d)
      case AwaitingAnswer(_, d) => Some(d)
      case Established(_) => None
    }

    function Name(): string {
      match this
      case AwaitingOffer(_, _) => "awaiting_offer"
      case AwaitingAnswer(_, _) => "awaiting_answer"
      case Established(_) => "established"
    }

    predicate ExpiredAt(now: Instant) {
      Deadline().Some? && Deadline().value <= now
    }

    /** The error a waiter gets when its own leg's deadline passes. */
    function ExpiryError(): SignalError {
      if AwaitingOffer? then Timeout("SDP offer") else Timeout("SDP answer")
    }
  }

  /** How one pipeline call would end and how long it takes: waiting for the pipeline's
      lock, in the synchronous attach of an `add_branch`, and detaching. A timeout only
      looks at the clock while the call waits, so it never cuts an attach off. */
  datatype Call = Call(error: Option<PipelineError>, lock: nat, attach: nat, detach: nat)

  const PROMPT := Call(None, 0, 0, 0)

  /** The pipeline calls the coordinator makes. */
  datatype BranchCall = AddBranch(id: Id, call: Call) | RemoveBranch(id: Id, call: Call)

  /** One turn of the actor's select loop. A sweep sees the map in some iteration
      order; `teardowns` says how each teardown it may start would go (ids not listed go
      smoothly). */
  datatype Input =
    | Handle(command: Command, call: Call)
    | ReapBranch(branch: Id, call: Call)
    | SweepTick(iteration: seq<Id>, teardowns: map<Id, Call>)

  /** An input, the idle time before it, and the reply receivers that are dropped by
      the time the coordinator sends to them. */
  datatype Event = Event(wait: nat, dropped: set<Ticket>, input: Input)

  /** The watchdog-to-supervisor channel, of capacity one. `refused` counts sends that
      found it full or closed. */
  datatype RestartChannel = RestartChannel(open: bool, pending: bool, refused: nat)

  /** The coordinator's state with its history: `replies` logs every send per ticket,
      `health` every watchdog report, `calls` every pipeline call, `attached` holds the ids whose `add_branch`
      returned Ok and whose `remove_branch` has not since returned Ok, and `orphans`
      the ids given up with their branch left behind. */
  datatype State = State(
    clock: Instant,
    connections: map<Id, Connection>,
    health: seq<HealthEvent>,
    restart: RestartChannel,
    replies: map<Ticket, seq<Sent>>,
    calls: seq<BranchCall>,
    attached: set<Id>,
    orphans: set<Id>)

  const INITIAL := State(0, map[], [], RestartChannel(true, false, 0), map[], [], {}, {})

  /* ----- primitives ----- */

  function Log(s: State, t: Ticket): seq<Sent> {
    if t in s.replies then s.replies[t] else []
  }

  function Fate(dropped: set<Ticket>, t: Ticket, r: Reply): Sent {
    if t in dropped then ReceiverGone else Delivered(r)
  }

  function Submit(s: State, t: Ticket): State {
    s.(replies := s.replies[t := Log(s, t)])
  }

  function Send(s: State, dropped: set<Ticket>, t: Ticket, r: Reply): State {
    s.(replies := s.replies[t := Log(s, t) + [Fate(dropped, t, r)]])
  }

  function Fail(s: State, dropped: set<Ticket>, c: Connection, e: SignalError): State {
    match c.Waiter()
    case None => s
    case Some(t) => Send(s, dropped, t, Rejected(e))
  }

  function Take(s: State, id: Id): State {
    s.(connections := s.connections - {id})
  }

  function Park(s: State, id: Id, c: Connection): State {
    s.(connections := s.connections[id := c])
  }

  /** The `add_branch` is cut off: waiting for the lock, or in the detach that a failed
      attach needs. */
  predicate AttachCut(cfg: Config, call: Call) {
    || call.lock > cfg.teardownTimeout
    || (call.error.Some? && call.detach > 0 && call.lock + call.attach + call.detach > cfg.teardownTimeout)
  }

  function AttachTime(cfg: Config, call: Call): nat {
    if call.lock > cfg.teardownTimeout then cfg.teardownTimeout
    else if AttachCut(cfg, call) then Max(cfg.teardownTimeout, call.lock + call.attach)
    else call.lock + call.attach + if call.error.Some? then call.detach else 0
  }

  predicate TeardownCut(cfg: Config, call: Call) {
    call.lock + call.detach > cfg.teardownTimeout
  }

  function TeardownTime(cfg: Config, call: Call): nat {
    Min(call.lock + call.detach, cfg.teardownTimeout)
  }

  /** How a branch call comes out at the pipeline: it answers, or its caller gives up. */
  datatype Outcome = Returned(error: Option<PipelineError>) | CutOff
  {
    /** It may have touched the branch without finishing its job. */
    predicate Botched() {
      CutOff? || (error.Some? && error.value.Fatal?)
    }
  }

  function AddOutcome(cfg: Config, call: Call): Outcome {
    if AttachCut(cfg, call) then CutOff else Returned(call.error)
  }

  function RemoveOutcome(cfg: Config, call: Call): Outcome {
    if TeardownCut(cfg, call) then CutOff else Returned(call.error)
  }

  /** What the coordinator makes of an outcome. */
  function Seen(outcome: Outcome, late: string): Option<SignalError> {
    match outcome
    case CutOff => Some(PipelineBusy(late))
    case Returned(Some(e)) => Some(FromPipeline(e))
    case Returned(None) => None
  }

  function AttachError(cfg: Config, call: Call): Option<SignalError> {
    Seen(AddOutcome(cfg, call), "branch attach/cleanup timed out")
  }

  function TeardownError(cfg: Config, call: Call): Option<SignalError> {
    Seen(RemoveOutcome(cfg, call), "branch teardown timed out")
  }

  function Attach(cfg: Config, s: State, id: Id, call: Call): State {
    var later := s.(clock := s.clock + AttachTime(cfg, call), calls := s.calls + [AddBranch(id, call)]);
    if AttachError(cfg, call).Some? then later
    else later.(attached := s.attached + {id}, orphans := s.orphans - {id})
  }

  function Detach(cfg: Config, s: State, id: Id, call: Call): State {
    var later := s.(clock := s.clock + TeardownTime(cfg, call), calls := s.calls + [RemoveBranch(id, call)]);
    if TeardownError(cfg, call).Some? then later
    else later.(attached := s.attached - {id}, orphans := s.orphans - {id})
  }

  /** Best-effort teardown: on failure the branch is left behind. */
  function Abandon(cfg: Config, s: State, id: Id, call: Call): State {
    var torn := Detach(cfg, s, id, call);
    if TeardownError(cfg, call).Some? then torn.(orphans := torn.orphans + {id}) else torn
  }

  predicate Waiting(connections: map<Id, Connection>, t: Ticket) {
    exists id :: id in connections && connections[id].Waiter() == Some(t)
  }

  /** Every parked waiter learns the plane is unavailable; the map empties and the
      branches stay. */
  function ResetAll(s: State, dropped: set<Ticket>): State {
    s.(connections := map[],
       orphans := s.orphans + s.connections.Keys,
       replies := map t | t in s.replies ::
                    if Waiting(s.connections, t) then s.replies[t] + [Fate(dropped, t, Rejected(Unavailable))]
                      else s.replies[t])
  }

  function TrySend(ch: RestartChannel): RestartChannel {
    if ch.open && !ch.pending then ch.(pending := true) else ch.(refused := ch.refused + 1)
  }

  function FailureEvent(cfg: Config, s: State): HealthEvent {
    if Burst(cfg.watchdogWindow, s.health + [HealthEvent.Failed(s.clock)]) >= cfg.watchdogThreshold as nat
    then Tripped(s.clock)
    else HealthEvent.Failed(s.clock)
  }

  /** A handshake failure reaches the watchdog; a trip fails everyone and asks the
      supervisor for a restart. */
  function Blame(cfg: Config, s: State, dropped: set<Ticket>): State {
    var event := FailureEvent(cfg, s);
    var noted := s.(health := s.health + [event]);
    if event.Tripped? then ResetAll(noted, dropped).(restart := TrySend(s.restart)) else noted
  }

  /* ----- the deaths ----- */

  /** A DELETE: the teardown gates the death. */
  function AfterDelete(cfg: Config, s: State, dropped: set<Ticket>, id: Id, call: Call): State {
    if id !in s.connections then s
    else if TeardownError(cfg, call).Some? then Detach(cfg, s, id, call)
    else Fail(Detach(cfg, Take(s, id), id, call), dropped, s.connections[id], Gone(id))
  }

  function DeletedReply(cfg: Config, s: State, id: Id, call: Call): Reply {
    if id !in s.connections then Rejected(NotFound(id))
    else match TeardownError(cfg, call)
         case Some(e) => Rejected(e)
         case None => Done
  }

  /** The deadline passed: the waiter gets its leg's timeout, the watchdog counts. */
  function AfterExpiry(cfg: Config, s: State, dropped: set<Ticket>, id: Id, call: Call): State {
    if id !in s.connections then s
    else
      var c := s.connections[id];
      Blame(cfg, Abandon(cfg, Fail(Take(s, id), dropped, c, c.ExpiryError()), id, call), dropped)
  }

  /** The parked peer vanished; the failed delivery already took the entry. */
  function AfterPeerGone(cfg: Config, s: State, dropped: set<Ticket>, id: Id, call: Call): State {
    Blame(cfg, Abandon(cfg, s, id, call), dropped)
  }

  /** The branch failed at runtime: one viewer's business, not the watchdog's. */
  function AfterReap(cfg: Config, s: State, dropped: set<Ticket>, id: Id, call: Call): State {
    if id !in s.connections then s
    else Abandon(cfg, Fail(Take(s, id), dropped, s.connections[id], Gone(id)), id, call)
  }

  /* ----- the steps ----- */

  function Created(cfg: Config, s: State, dropped: set<Ticket>, id: Id, t: Ticket, call: Call): State {
    if id in s.connections then Send(s, dropped, t, Rejected(WrongState(id)))
    else
      var s1 := Attach(cfg, s, id, call);
      match AttachError(cfg, call)
      case Some(e) => Send(s1, dropped, t, Rejected(e))
      case None => Park(s1, id, AwaitingOffer(t, s1.clock + cfg.offerTimeout))
  }

  function Offered(cfg: Config, s: State, dropped: set<Ticket>, id: Id, sdp: string, t: Ticket, call: Call): State {
    if id !in s.connections then Send(s, dropped, t, Rejected(NotFound(id)))
    else if !s.connections[id].AwaitingOffer? then Send(s, dropped, t, Rejected(WrongState(id)))
    else
      var peer := s.connections[id].whepReply;
      var s1 := Send(Take(s, id), dropped, peer, Offer(sdp));
      if peer in dropped then AfterPeerGone(cfg, Send(s1, dropped, t, Rejected(Gone(id))), dropped, id, call)
      else Park(s1, id, AwaitingAnswer(t, s1.clock + cfg.answerTimeout))
  }

  function Answered(cfg: Config, s: State, dropped: set<Ticket>, id: Id, sdp: string, t: Ticket, call: Call): State {
    if id !in s.connections then Send(s, dropped, t, Rejected(NotFound(id)))
    else if !s.connections[id].AwaitingAnswer? then Send(s, dropped, t, Rejected(WrongState(id)))
    else
      var peer := s.connections[id].whipReply;
      var s1 := Send(Take(s, id), dropped, peer, Answer(sdp));
      if peer in dropped then AfterPeerGone(cfg, Send(s1, dropped, t, Rejected(Gone(id))), dropped, id, call)
      else Send(Park(s1.(health := s.health + [Succeeded]), id, Established(s.clock)), dropped, t, Done)
  }

  function Removed(cfg: Config, s: State, dropped: set<Ticket>, id: Id, t: Ticket, call: Call): State {
    Send(AfterDelete(cfg, s, dropped, id, call), dropped, t, DeletedReply(cfg, s, id, call))
  }

  function Snapshot(s: State): map<Id, string> {
    map id | id in s.connections :: s.connections[id].Name()
  }

  function Cleared(s: State, dropped: set<Ticket>, t: Ticket): State {
    var s1 := ResetAll(s, dropped);
    Send(s1.(health := s.health + [Succeeded]), dropped, t, Done)
  }

  /** The ids of an iteration whose deadline has passed, in that order. */
  function ExpiredOf(connections: map<Id, Connection>, now: Instant, iteration: seq<Id>): seq<Id> {
    if iteration == [] then []
    else
      var n := |iteration| - 1;
      var id := iteration[n];
      ExpiredOf(connections, now, iteration[..n]) +
      if id in connections && connections[id].ExpiredAt(now) then [id] else []
  }

  function TeardownOf(teardowns: map<Id, Call>, id: Id): Call {
    if id in teardowns then teardowns[id] else PROMPT
  }

  /** Terminate the ids one after the other. */
  function ExpireEach(cfg: Config, s: State, dropped: set<Ticket>, ids: seq<Id>, teardowns: map<Id, Call>): State {
    if ids == [] then s
    else
      var n := |ids| - 1;
      AfterExpiry(cfg, ExpireEach(cfg, s, dropped, ids[..n], teardowns), dropped, ids[n], TeardownOf(teardowns, ids[n]))
  }

  /** `order` is an order in which a hash map with these keys may be walked. */
  ghost predicate Iterates(order: seq<Id>, keys: set<Id>) {
    && (forall id :: id in order <==> id in keys)
    && (forall i, j :: 0 <= i < j < |order| ==> order[i] != order[j])
  }

  /** What the runtime guarantees about an event: a command's sender is new, and a
      sweep walks the keys of the map. */
  ghost predicate Admissible(s: State, e: Event) {
    match e.input
    case Handle(command, _) => command.reply !in s.replies
    case ReapBranch(_, _) => true
    case SweepTick(iteration, _) => Iterates(iteration, s.connections.Keys)
  }

  function Handled(cfg: Config, s: State, dropped: set<Ticket>, command: Command, call: Call): State {
    match command
    case CreateConnection(id, t) => Created(cfg, s, dropped, id, t, call)
    case OfferReceived(id, sdp, t) => Offered(cfg, s, dropped, id, sdp, t, call)
    case AnswerReceived(id, sdp, t) => Answered(cfg, s, dropped, id, sdp, t, call)
    case RemoveConnection(id, t) => Removed(cfg, s, dropped, id, t, call)
    case ListConnections(t) => Send(s, dropped, t, Listing(Snapshot(s)))
    case Reset(t) => Cleared(s, dropped, t)
  }

  function Awake(s: State, wait: nat): State {
    s.(clock := s.clock + wait)
  }

  function Step(cfg: Config, s: State, e: Event): State {
    var s0 := Awake(s, e.wait);
    match e.input
    case Handle(command, call) => Handled(cfg, Submit(s0, command.reply), e.dropped, command, call)
    case ReapBranch(id, call) => AfterReap(cfg, s0, e.dropped, id, call)
    case SweepTick(iteration, teardowns) =>
      ExpireEach(cfg, s0, e.dropped, ExpiredOf(s0.connections, s0.clock, iteration), teardowns)
  }

  /** The state after `n` turns of the actor's loop. */
  function At(cfg: Config, start: State, events: seq<Event>, n: nat): State
    requires n <= |events|
  {
    if n == 0 then start else Step(cfg, At(cfg, start, events, n - 1), events[n - 1])
  }

  /** A run: every event is one the runtime can produce in the state it meets. */
  ghost predicate Possible(cfg: Config, start: State, events: seq<Event>) {
    forall k :: 0 <= k < |events| ==> Admissible(At(cfg, start, events, k), events[k])
  }
}
