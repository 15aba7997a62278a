/** Coordinator, supervisor and pipeline slot composed: the restart channel, the mailbox
    with its reset command, and what may survive from one pipeline run into the next. */
module System {
  import opened Prelude
  import opened Health
  import opened Signaling
  import opened Linearity
  import opened Invariants
  import opened Causality
  import opened Ledger
  import opened Rebase
  import opened PipelineGraph
  import opened BranchCalls
  import opened Agreement
  import S = Supervision

  const MAILBOX_CAPACITY: nat := 64

  /** The whole system. `busy` is the turn the coordinator is in the middle of, with the
      way its pipeline calls go; the supervisor can act meanwhile. `filled` says whether the
      pipeline slot holds a pipeline. The counters follow each restart request to its end. */
  datatype Sys = Sys(
    coord: State,
    busy: Option<Input>,
    mailbox: seq<Command>,
    issued: set<Ticket>,
    filled: bool,
    sup: S.Control,
    resetTicket: Ticket,
    taken: nat,
    drained: nat,
    discarded: nat)

  const BOOT := Sys(INITIAL, None, [], {}, false, S.START, 0, 0, 0, 0)

  datatype Move =
    | Post(command: Command)
    | Begin(input: Input)
    | Finish(wait: nat, dropped: set<Ticket>)
    | Supervise(action: S.Action, ticket: Ticket)

  /** An `add_branch` that finds the slot empty, or cannot even look, is refused. */
  predicate Harmless(input: Input) {
    input.Handle? && input.command.CreateConnection? ==>
      input.call.error in {Refusal(true, None), Refusal(false, None)}
  }

  ghost predicate Enabled(cfg: Config, s: Sys, m: Move) {
    match m
    case Post(command) => command.reply !in s.issued && !command.Reset? && |s.mailbox| < MAILBOX_CAPACITY
    case Begin(input) =>
      && s.busy.None?
      && (input.Handle? ==> s.mailbox != [] && s.mailbox[0] == input.command)
      && (s.filled || Harmless(input))
    case Finish(wait, dropped) => s.busy.Some? && Admissible(s.coord, Event(wait, dropped, s.busy.value))
    case Supervise(action, ticket) => MaySupervise(s, action, ticket)
  }

  /** The supervisor's protocol allows the action, and the shared parts do: a reset that
      is not even sent found the mailbox full. */
  ghost predicate MaySupervise(s: Sys, action: S.Action, ticket: Ticket) {
    && S.Next(s.sup, action).Some?
    && (action.RequestTaken? || action.StaleDropped? ==> s.coord.restart.pending)
    && (action.Drained? ==> !s.coord.restart.pending)
    && (action.ResetSent? ==> ticket !in s.issued && |s.mailbox| < MAILBOX_CAPACITY)
    && (s.sup.pc.SendingReset? && action == S.ResetReturned(S.NoReply) ==> |s.mailbox| >= MAILBOX_CAPACITY)
    && (action == S.ResetReturned(S.Acknowledged) ==> Log(s.coord, s.resetTicket) == [Delivered(Done)])
  }

  function Pending(s: Sys): nat {
    if s.coord.restart.pending then 1 else 0
  }

  function EmptyChannel(s: Sys): Sys {
    s.(coord := s.coord.(restart := s.coord.restart.(pending := false)))
  }

  /** What an action of the supervisor does to the shared parts. */
  function Effect(s: Sys, action: S.Action, ticket: Ticket): Sys {
    match action
    case StaleDropped => EmptyChannel(s).(drained := s.drained + Pending(s))
    case RequestTaken => EmptyChannel(s).(taken := s.taken + Pending(s))
    case InitDone(ok) => s.(filled := SlotAfterInit(s.filled, ok))
    case CleanedUp(ok) => s.(filled := SlotAfterCleanUp(s.filled, ok))
    case ResetSent =>
      s.(mailbox := s.mailbox + [Command.Reset(ticket)], issued := s.issued + {ticket}, resetTicket := ticket)
    case _ => s
  }

  /** A supervisor that stops drops the receiving end of the restart channel. */
  function Closed(s: Sys): Sys {
    var empty := EmptyChannel(s).(discarded := s.discarded + Pending(s));
    empty.(coord := empty.coord.(restart := empty.coord.restart.(open := false)))
  }

  function Supervised(s: Sys, action: S.Action, ticket: Ticket): Sys {
    match S.Next(s.sup, action)
    case None => s
    case Some(c) =>
      var after := Effect(s, action, ticket).(sup := c);
      if c.pc.Stopped? then Closed(after) else after
  }

  function Apply(cfg: Config, s: Sys, m: Move): Sys {
    match m
    case Post(command) => s.(mailbox := s.mailbox + [command], issued := s.issued + {command.reply})
    case Begin(input) =>
      s.(busy := Some(input), mailbox := if input.Handle? && s.mailbox != [] then s.mailbox[1..] else s.mailbox)
    case Finish(wait, dropped) =>
      if s.busy.Some? then s.(coord := Step(cfg, s.coord, Event(wait, dropped, s.busy.value)), busy := None) else s
    case Supervise(action, ticket) => Supervised(s, action, ticket)
  }

  function SysAt(cfg: Config, moves: seq<Move>, n: nat): Sys
    requires n <= |moves|
  {
    if n == 0 then BOOT else Apply(cfg, SysAt(cfg, moves, n - 1), moves[n - 1])
  }

  ghost predicate Allowed(cfg: Config, moves: seq<Move>) {
    forall k :: 0 <= k < |moves| ==> Enabled(cfg, SysAt(cfg, moves, k), moves[k])
  }

  /* ----- invariants ----- */

  /** Nothing of an earlier run is left in the coordinator, and the turn it may be in the
      middle of cannot bring anything in. */
  ghost predicate Quiet(cfg: Config, s: Sys) {
    && s.coord.connections == map[]
    && Burst(cfg.watchdogWindow, s.coord.health) == 0
    && (s.busy.Some? ==> Harmless(s.busy.value))
  }

  /** Commands on their way: in the mailbox or being handled. */
  function InFlight(s: Sys): seq<Command> {
    (if s.busy.Some? && s.busy.value.Handle? then [s.busy.value.command] else []) + s.mailbox
  }

  /** Each oneshot sender travels in one command at a time, and none has arrived before. */
  ghost predicate InOrder(arrived: set<Ticket>, issued: set<Ticket>, flight: seq<Command>) {
    && arrived <= issued
    && (forall k :: 0 <= k < |flight| ==> flight[k].reply in issued && flight[k].reply !in arrived)
    && (forall j, k :: 0 <= j < k < |flight| ==> flight[j].reply != flight[k].reply)
  }

  /** A reset that is awaited travels with its own sender. */
  ghost predicate OnlyAReset(flight: seq<Command>, ticket: Ticket) {
    forall k :: 0 <= k < |flight| && flight[k].reply == ticket ==> flight[k].Reset?
  }

  ghost predicate TicketsInOrder(s: Sys) {
    && InOrder(s.coord.replies.Keys, s.issued, InFlight(s))
    && (s.sup.pc.AwaitingReset? ==> s.resetTicket in s.issued && OnlyAReset(InFlight(s), s.resetTicket))
  }

  /** While a cleanup succeeds the slot is empty; once its reset is processed, and for as
      long as the boundary is clean, the coordinator is quiet. */
  ghost predicate BoundaryHolds(cfg: Config, s: Sys) {
    && (s.sup.pc.SendingReset? && s.sup.pc.cleaned ==> !s.filled)
    && (s.sup.pc.AwaitingReset? && s.sup.pc.cleaned ==>
         !s.filled && (s.resetTicket in s.coord.replies ==> Quiet(cfg, s)))
    && (s.sup.clean ==> !s.filled && Quiet(cfg, s))
  }

  /** Every restart request the watchdog made is accounted for. */
  ghost predicate RequestsBalance(s: Sys) {
    Trips(s.coord.health) == s.taken + s.drained + s.discarded + s.coord.restart.refused + Pending(s)
  }

  ghost predicate SysInv(cfg: Config, s: Sys) {
    Inv(cfg, s.coord) && TicketsInOrder(s) && BoundaryHolds(cfg, s) && RequestsBalance(s)
  }

  /* ----- a quiet coordinator stays quiet ----- */

  lemma QuietStays(cfg: Config, s: State, e: Event)
    requires s.connections == map[] && Burst(cfg.watchdogWindow, s.health) == 0
    requires Admissible(s, e) && Harmless(e.input)
    ensures Step(cfg, s, e).connections == map[] && Burst(cfg.watchdogWindow, Step(cfg, s, e).health) == 0
  {
    hide ExpireEach;
    match e.input
    case SweepTick(iteration, teardowns) =>
      OverdueSize(s, s.clock + e.wait, iteration);
      assert Overdue(s, s.clock + e.wait) == {};
      ExpireNothing(cfg, Awake(s, e.wait), e.dropped, teardowns);
    case _ =>
  }

  lemma ResetMakesQuiet(cfg: Config, s: State, e: Event)
    requires e.input.Handle? && e.input.command.Reset?
    ensures Step(cfg, s, e).connections == map[] && Burst(cfg.watchdogWindow, Step(cfg, s, e).health) == 0
  {
  }

  /* ----- preservation, move by move ----- */

  lemma PostKeepsInv(cfg: Config, s: Sys, command: Command)
    requires SysInv(cfg, s) && Enabled(cfg, s, Post(command))
    ensures SysInv(cfg, Apply(cfg, s, Post(command)))
  {
    hide Inv, Trips, S.Next, Handled, ExpireEach;
    var s' := Apply(cfg, s, Post(command));
    assert InFlight(s') == InFlight(s) + [command];
  }

  lemma BeginKeepsInv(cfg: Config, s: Sys, input: Input)
    requires SysInv(cfg, s) && Enabled(cfg, s, Begin(input))
    ensures SysInv(cfg, Apply(cfg, s, Begin(input)))
  {
    hide Inv, Trips, S.Next, Handled, ExpireEach;
    var s' := Apply(cfg, s, Begin(input));
    assert InFlight(s') == InFlight(s);
  }

  /** Finishing a turn takes its command out of flight. */
  lemma FinishedIsOutOfFlight(cfg: Config, s: Sys, wait: nat, dropped: set<Ticket>)
    requires s.busy.Some?
    ensures
      var s' := Apply(cfg, s, Finish(wait, dropped));
      InFlight(s) == (if s.busy.value.Handle? then [s.busy.value.command] else []) + InFlight(s')
        && InFlight(s') == s.mailbox
  {
    hide Step;
  }

  lemma ArrivedInOrder(arrived: set<Ticket>, issued: set<Ticket>, c: Command, rest: seq<Command>, ticket: Ticket)
    requires InOrder(arrived, issued, [c] + rest)
    ensures InOrder(arrived + {c.reply}, issued, rest)
    ensures OnlyAReset([c] + rest, ticket) ==> OnlyAReset(rest, ticket)
  {
    var flight := [c] + rest;
    assert flight[0] == c;
    assert forall k :: 0 <= k < |rest| ==> rest[k] == flight[k + 1];
  }

  lemma FinishKeepsTickets(cfg: Config, s: Sys, wait: nat, dropped: set<Ticket>)
    requires SysInv(cfg, s) && Enabled(cfg, s, Finish(wait, dropped))
    ensures TicketsInOrder(Apply(cfg, s, Finish(wait, dropped)))
  {
    hide Step, InFlight, Inv, Admissible, InOrder, OnlyAReset, BoundaryHolds, RequestsBalance;
    InvIsLinear(cfg, s.coord);
    var e := Event(wait, dropped, s.busy.value);
    StepSubmits(cfg, s.coord, e);
    FinishedIsOutOfFlight(cfg, s, wait, dropped);
    var s' := Apply(cfg, s, Finish(wait, dropped));
    if e.input.Handle? {
      ArrivedInOrder(s.coord.replies.Keys, s.issued, e.input.command, InFlight(s'), s.resetTicket);
    } else {
      assert InFlight(s) == InFlight(s') && s'.coord.replies.Keys == s.coord.replies.Keys;
    }
  }

  lemma InvIsLinear(cfg: Config, s: State)
    requires Inv(cfg, s)
    ensures Linear(s)
  {
  }

  lemma FinishKeepsBoundary(cfg: Config, s: Sys, wait: nat, dropped: set<Ticket>)
    requires SysInv(cfg, s) && Enabled(cfg, s, Finish(wait, dropped))
    ensures BoundaryHolds(cfg, Apply(cfg, s, Finish(wait, dropped)))
  {
    hide Step;
    var e := Event(wait, dropped, s.busy.value);
    StepSubmits(cfg, s.coord, e);
    if Quiet(cfg, s) {
      QuietStays(cfg, s.coord, e);
    }
    if e.input.Handle? && e.input.command.Reset? {
      ResetMakesQuiet(cfg, s.coord, e);
    }
    if e.input.Handle? {
      assert InFlight(s)[0] == e.input.command;
    }
  }

  lemma FinishKeepsInv(cfg: Config, s: Sys, wait: nat, dropped: set<Ticket>)
    requires SysInv(cfg, s) && Enabled(cfg, s, Finish(wait, dropped))
    ensures SysInv(cfg, Apply(cfg, s, Finish(wait, dropped)))
  {
    hide Step, Inv, TicketsInOrder, BoundaryHolds;
    var e := Event(wait, dropped, s.busy.value);
    StepKeepsInv(cfg, s.coord, e);
    StepCauses(cfg, s.coord, e);
    FinishKeepsTickets(cfg, s, wait, dropped);
    FinishKeepsBoundary(cfg, s, wait, dropped);
  }

  lemma InvIgnoresRestart(cfg: Config, s: State, channel: RestartChannel)
    requires Inv(cfg, s)
    ensures Inv(cfg, s.(restart := channel))
  {
  }

  lemma EffectTouches(s: Sys, action: S.Action, ticket: Ticket)
    ensures
      var s' := Effect(s, action, ticket);
      && s'.coord == s.coord.(restart := s'.coord.restart)
      && s'.sup == s.sup
      && s'.busy == s.busy
      && (if action.ResetSent?
          then s'.mailbox == s.mailbox + [Command.Reset(ticket)] && s'.issued == s.issued + {ticket}
            && s'.resetTicket == ticket
          else s'.mailbox == s.mailbox && s'.issued == s.issued && s'.resetTicket == s.resetTicket)
      && s'.filled == (if action.InitDone? && action.ok then true else if action.CleanedUp? && action.ok then false
             else s.filled)
  {
  }

  /** What the supervisor can touch of the coordinator is the restart channel. */
  lemma SuperviseTouches(s: Sys, action: S.Action, ticket: Ticket)
    requires MaySupervise(s, action, ticket)
    ensures
      var s' := Supervised(s, action, ticket);
      && s'.coord == s.coord.(restart := s'.coord.restart)
      && s'.sup == S.Next(s.sup, action).value
      && s'.busy == s.busy
      && (if action.ResetSent?
          then s'.mailbox == s.mailbox + [Command.Reset(ticket)] && s'.issued == s.issued + {ticket}
            && s'.resetTicket == ticket
          else s'.mailbox == s.mailbox && s'.issued == s.issued && s'.resetTicket == s.resetTicket)
      && s'.filled == (if action.InitDone? && action.ok then true else if action.CleanedUp? && action.ok then false
             else s.filled)
  {
    hide S.Next, Effect;
    EffectTouches(s, action, ticket);
  }

  lemma EffectBalances(s: Sys, action: S.Action, ticket: Ticket, c: S.Control)
    requires RequestsBalance(s)
    ensures RequestsBalance(Effect(s, action, ticket).(sup := c))
  {
    hide Trips;
  }

  lemma ClosedBalances(s: Sys)
    requires RequestsBalance(s)
    ensures RequestsBalance(Closed(s))
  {
    hide Trips;
  }

  lemma SuperviseBalances(s: Sys, action: S.Action, ticket: Ticket)
    requires MaySupervise(s, action, ticket) && RequestsBalance(s)
    ensures RequestsBalance(Supervised(s, action, ticket))
  {
    hide S.Next, Effect, Closed, RequestsBalance;
    var c := S.Next(s.sup, action).value;
    EffectBalances(s, action, ticket, c);
    ClosedBalances(Effect(s, action, ticket).(sup := c));
  }

  lemma SuperviseKeepsTickets(s: Sys, action: S.Action, ticket: Ticket)
    requires TicketsInOrder(s) && MaySupervise(s, action, ticket)
    ensures TicketsInOrder(Supervised(s, action, ticket))
  {
    hide Supervised;
    SuperviseTouches(s, action, ticket);
    var s' := Supervised(s, action, ticket);
    AwaitsOnlyASentReset(s.sup, action);
    if action.ResetSent? {
      assert InFlight(s') == InFlight(s) + [Command.Reset(ticket)];
    } else {
      assert InFlight(s') == InFlight(s);
    }
  }

  lemma AwaitsOnlyASentReset(c: S.Control, action: S.Action)
    requires S.Next(c, action).Some?
    ensures S.Next(c, action).value.pc.AwaitingReset? <==> action.ResetSent?
    ensures S.Next(c, action).value.pc.AwaitingReset? ==>
            c.pc.SendingReset? && c.pc.cleaned == S.Next(c, action).value.pc.cleaned
    ensures S.Next(c, action).value.pc.SendingReset? <==> action.CleanedUp?
    ensures S.Next(c, action).value.pc.SendingReset? ==> S.Next(c, action).value.pc.cleaned == action.ok
    ensures action.InitDone? && action.ok ==> !S.Next(c, action).value.clean && S.Next(c, action).value.pc == S.Spawning
    ensures S.Next(c, action).value.clean ==>
              c.clean || (c.pc.AwaitingReset? && c.pc.cleaned && action == S.ResetReturned(S.Acknowledged))
  {
  }

  lemma SuperviseKeepsBoundary(cfg: Config, s: Sys, action: S.Action, ticket: Ticket)
    requires TicketsInOrder(s) && BoundaryHolds(cfg, s) && MaySupervise(s, action, ticket)
    ensures BoundaryHolds(cfg, Supervised(s, action, ticket))
  {
    hide Supervised, S.Next;
    SuperviseTouches(s, action, ticket);
    AwaitsOnlyASentReset(s.sup, action);
    assert action == S.ResetReturned(S.Acknowledged) ==> s.resetTicket in s.coord.replies;
  }

  lemma SuperviseKeepsInv(cfg: Config, s: Sys, action: S.Action, ticket: Ticket)
    requires SysInv(cfg, s) && MaySupervise(s, action, ticket)
    ensures SysInv(cfg, Supervised(s, action, ticket))
  {
    hide Supervised, S.Next, TicketsInOrder, BoundaryHolds, RequestsBalance, Inv;
    SuperviseTouches(s, action, ticket);
    SuperviseKeepsTickets(s, action, ticket);
    SuperviseKeepsBoundary(cfg, s, action, ticket);
    SuperviseBalances(s, action, ticket);
    InvIgnoresRestart(cfg, s.coord, Supervised(s, action, ticket).coord.restart);
  }

  lemma SupervisingKeepsInv(cfg: Config, s: Sys, m: Move)
    requires m.Supervise? && SysInv(cfg, s) && Enabled(cfg, s, m)
    ensures SysInv(cfg, Apply(cfg, s, m))
  {
    hide SysInv, Supervised, Step;
    SuperviseKeepsInv(cfg, s, m.action, m.ticket);
  }

  lemma MoveKeepsInv(cfg: Config, s: Sys, m: Move)
    requires SysInv(cfg, s) && Enabled(cfg, s, m)
    ensures SysInv(cfg, Apply(cfg, s, m))
  {
    hide SysInv, Apply, Enabled;
    match m
    case Post(command) => PostKeepsInv(cfg, s, command);
    case Begin(input) => BeginKeepsInv(cfg, s, input);
    case Finish(wait, dropped) => FinishKeepsInv(cfg, s, wait, dropped);
    case Supervise(_, _) => SupervisingKeepsInv(cfg, s, m);
  }

  lemma BootIsFine(cfg: Config)
    ensures SysInv(cfg, BOOT)
  {
  }

  lemma {:induction false} EveryRunIsFine(cfg: Config, moves: seq<Move>, n: nat)
    requires Allowed(cfg, moves) && n <= |moves|
    ensures SysInv(cfg, SysAt(cfg, moves, n))
  {
    hide SysInv, Apply, Enabled;
    if n == 0 {
      BootIsFine(cfg);
    } else {
      EveryRunIsFine(cfg, moves, n - 1);
      MoveKeepsInv(cfg, SysAt(cfg, moves, n - 1), moves[n - 1]);
    }
  }

  /* ----- the supervisor's view ----- */

  /** The supervisor's actions among the first `n` moves. */
  function Actions(moves: seq<Move>, n: nat): seq<S.Action>
    requires n <= |moves|
  {
    if n == 0 then []
    else Actions(moves, n - 1) + if moves[n - 1].Supervise? then [moves[n - 1].action] else []
  }

  lemma OnlySuperviseMovesTheSupervisor(cfg: Config, s: Sys, m: Move)
    requires Enabled(cfg, s, m)
    ensures
      if m.Supervise? then Some(Apply(cfg, s, m).sup) == S.Next(s.sup, m.action) else Apply(cfg, s, m).sup == s.sup
  {
    hide S.Next, Step;
  }

  lemma {:induction false} SupervisorFollowsItsProtocol(cfg: Config, moves: seq<Move>, n: nat)
    requires Allowed(cfg, moves) && n <= |moves|
    ensures S.Follow(Actions(moves, n)) == Some(SysAt(cfg, moves, n).sup)
  {
    hide S.Next, Apply, Enabled;
    if n == 0 {
    } else {
      var past, m := Actions(moves, n - 1), moves[n - 1];
      SupervisorFollowsItsProtocol(cfg, moves, n - 1);
      OnlySuperviseMovesTheSupervisor(cfg, SysAt(cfg, moves, n - 1), m);
      if m.Supervise? {
        S.FollowOne(past, m.action);
      } else {
        assert Actions(moves, n) == past;
      }
    }
  }

  /** The run boundary: whenever `init` begins and the latest `clean_up` and the latest
      reset both succeeded, the connection map is empty, every reply sender the coordinator
      ever took in has been used exactly once, the watchdog counts no failure, and the
      slot is empty. */
  lemma RunBoundary(cfg: Config, moves: seq<Move>, n: nat)
    requires Allowed(cfg, moves) && n < |moves| && moves[n].Supervise? && moves[n].action.InitStarted?
    requires S.BothSucceeded(Actions(moves, n))
    ensures
      var s := SysAt(cfg, moves, n);
      && s.coord.connections == map[]
      && (forall t :: t in s.coord.replies ==> |s.coord.replies[t]| == 1)
      && Burst(cfg.watchdogWindow, s.coord.health) == 0
      && !s.filled
  {
    hide Apply, SysAt;
    var s := SysAt(cfg, moves, n);
    EveryRunIsFine(cfg, moves, n);
    SupervisorFollowsItsProtocol(cfg, moves, n);
    S.CleanMeansBothSucceeded(Actions(moves, n));
    assert Enabled(cfg, s, moves[n]);
    assert s.sup.pc == S.Initializing;
    assert s.sup.clean;
  }

  lemma OneMove(cfg: Config, moves: seq<Move>, n: nat)
    requires n < |moves|
    ensures SysAt(cfg, moves, n + 1) == Apply(cfg, SysAt(cfg, moves, n), moves[n])
  {
    hide Apply;
  }

  lemma RefusedCreate(cfg: Config, s: State, e: Event)
    requires Admissible(s, e) && s.connections == map[] && Harmless(e.input)
    requires e.input.Handle? && e.input.command.CreateConnection?
    ensures
      var s', t, error := Step(cfg, s, e), e.input.command.reply, AttachError(cfg, e.input.call);
      && s'.connections == map[]
      && error.Some? && (error.value == NotReady || error.value.PipelineBusy?)
      && Log(s', t) == [Fate(e.dropped, t, Rejected(error.value))]
  {
    hide ExpireEach, Offered, Answered, AfterDelete, AfterReap, ResetAll;
  }

  /** In between, creates are refused: at a clean boundary a turn that handles a create
      leaves the map empty and answers the client with one of the retryable errors an empty
      slot or a lost lock gives. */
  lemma CreatesAreRefusedAtTheBoundary(cfg: Config, moves: seq<Move>, n: nat)
    requires Allowed(cfg, moves) && n < |moves| && moves[n].Finish?
    requires SysAt(cfg, moves, n).sup.clean
    requires SysAt(cfg, moves, n).busy.value.Handle? && SysAt(cfg, moves, n).busy.value.command.CreateConnection?
    ensures
      var s, s' := SysAt(cfg, moves, n), SysAt(cfg, moves, n + 1);
      var t, call := s.busy.value.command.reply, s.busy.value.call;
      && s'.coord.connections == map[]
      && AttachError(cfg, call).Some?
      && (AttachError(cfg, call).value == NotReady || AttachError(cfg, call).value.PipelineBusy?)
      && Log(s'.coord, t) == [Fate(moves[n].dropped, t, Rejected(AttachError(cfg, call).value))]
  {
    hide Step, SysAt, Inv, TicketsInOrder, RequestsBalance;
    EveryRunIsFine(cfg, moves, n);
    var s := SysAt(cfg, moves, n);
    assert Enabled(cfg, s, moves[n]);
    RefusedCreate(cfg, s.coord, Event(moves[n].wait, moves[n].dropped, s.busy.value));
    OneMove(cfg, moves, n);
  }

  /** Conservation: every trip's request ends up taken (and so forces one quit), drained
      before a run, discarded at the end, refused because one was already pending, or still
      pending, of which there is at most one. */
  lemma RestartRequestsAreConserved(cfg: Config, moves: seq<Move>, n: nat)
    requires Allowed(cfg, moves) && n <= |moves|
    ensures
      var s := SysAt(cfg, moves, n);
      && Trips(s.coord.health) == s.taken + s.drained + s.discarded + s.coord.restart.refused + Pending(s)
      && Pending(s) <= 1
  {
    hide SysAt;
    EveryRunIsFine(cfg, moves, n);
  }

  lemma OneMoreCounted(trace: seq<S.Action>, a: S.Action)
    ensures S.Count(trace + [a]).quits == S.Count(trace).quits + if a.QuitCalled? then 1 else 0
  {
    assert (trace + [a])[..|trace|] == trace;
  }

  /** A request taken is a run forced to quit. */
  lemma {:induction false} TakenRequestsForceQuits(cfg: Config, moves: seq<Move>, n: nat)
    requires Allowed(cfg, moves) && n <= |moves|
    ensures SysAt(cfg, moves, n).taken ==
            S.Count(Actions(moves, n)).quits + S.One(SysAt(cfg, moves, n).sup.pc.Quitting?)
  {
    hide Apply, Enabled, S.One;
    if n == 0 {
      NothingTakenYet();
    } else {
      hide S.Count;
      var past, m, s := Actions(moves, n - 1), moves[n - 1], SysAt(cfg, moves, n - 1);
      TakenRequestsForceQuits(cfg, moves, n - 1);
      TakenMoves(cfg, s, m);
      if m.Supervise? {
        OneMoreCounted(past, m.action);
      } else {
        assert Actions(moves, n) == past;
      }
    }
  }

  lemma NothingTakenYet()
    ensures S.Count([]).quits == 0 && S.One(BOOT.sup.pc.Quitting?) == 0 && BOOT.taken == 0
  {
  }

  lemma QuittingFollowsARequest(c: S.Control, action: S.Action)
    requires S.Next(c, action).Some?
    ensures c.pc.Quitting? <==> action.QuitCalled?
    ensures S.Next(c, action).value.pc.Quitting? <==> action.RequestTaken?
    ensures S.Next(c, action).value.pc.Stopped? ==> !action.RequestTaken?
  {
  }

  lemma TakenActions(s: Sys, action: S.Action, ticket: Ticket)
    requires MaySupervise(s, action, ticket)
    ensures Supervised(s, action, ticket).taken == s.taken + if action.RequestTaken? then 1 else 0
  {
    hide S.Next;
  }

  lemma TakenMoves(cfg: Config, s: Sys, m: Move)
    requires Enabled(cfg, s, m)
    ensures
      var s' := Apply(cfg, s, m);
      s'.taken + S.One(s.sup.pc.Quitting?) ==
      s.taken + S.One(s'.sup.pc.Quitting?) + if m.Supervise? && m.action.QuitCalled? then 1 else 0
  {
    hide Step, S.Next, Supervised, MaySupervise;
    if m.Supervise? {
      assert MaySupervise(s, m.action, m.ticket);
      MaySuperviseFollows(s, m.action, m.ticket);
      QuittingFollowsARequest(s.sup, m.action);
      TakenActions(s, m.action, m.ticket);
      SuperviseTouches(s, m.action, m.ticket);
    }
  }

  lemma MaySuperviseFollows(s: Sys, action: S.Action, ticket: Ticket)
    requires MaySupervise(s, action, ticket)
    ensures S.Next(s.sup, action).Some?
  {
  }

  /* ----- the coordinator inside the system ----- */

  /** The turns the coordinator has finished in the first `n` moves. */
  function Turns(cfg: Config, moves: seq<Move>, n: nat): seq<Event>
    requires n <= |moves|
  {
    if n == 0 then []
    else
      var past, m, busy := Turns(cfg, moves, n - 1), moves[n - 1], SysAt(cfg, moves, n - 1).busy;
      if m.Finish? && busy.Some? then past + [Event(m.wait, m.dropped, busy.value)] else past
  }

  lemma {:induction false} AtPrefix(cfg: Config, events: seq<Event>, e: Event, n: nat)
    requires n <= |events|
    ensures At(cfg, INITIAL, events + [e], n) == At(cfg, INITIAL, events, n)
  {
    hide Step;
    if n == 0 {
    } else {
      AtPrefix(cfg, events, e, n - 1);
    }
  }

  /** The supervisor's share of a state: nothing but the restart channel. */
  predicate SameButRestart(s: State, b: State) {
    s == b.(restart := s.restart)
  }

  /** Composition: inside the system the coordinator goes through exactly a run of its own,
      whatever the supervisor does to the shared channel meanwhile. What holds of every run
      of the actor therefore holds of the system. */
  lemma CoordinatorRunsAsAlone(cfg: Config, moves: seq<Move>, n: nat)
    requires Allowed(cfg, moves) && n <= |moves|
    ensures Possible(cfg, INITIAL, Turns(cfg, moves, n))
    ensures SameButRestart(SysAt(cfg, moves, n).coord, At(cfg, INITIAL, Turns(cfg, moves, n), |Turns(cfg, moves, n)|))
  {
    hide SysAt, At, Turns, Possible;
    var turns := Turns(cfg, moves, n);
    TurnsAreARun(cfg, moves, n);
    EveryRunIsFine(cfg, moves, n);
    EveryRunKeepsInv(cfg, turns, |turns|);
    BooksTellOrphans(cfg, SysAt(cfg, moves, n).coord, At(cfg, INITIAL, turns, |turns|));
  }

  /** The calls tell what is attached, and with the map what is orphaned. */
  lemma BooksTellOrphans(cfg: Config, s: State, b: State)
    requires Inv(cfg, s) && Inv(cfg, b) && Alike(s, b, [])
    ensures SameButRestart(s, b)
  {
    assert [] + b.calls == b.calls;
    assert s.orphans == s.attached - s.connections.Keys && b.orphans == b.attached - b.connections.Keys;
  }

  lemma {:induction false} TurnsAreARun(cfg: Config, moves: seq<Move>, n: nat)
    requires Allowed(cfg, moves) && n <= |moves|
    ensures Possible(cfg, INITIAL, Turns(cfg, moves, n))
    ensures Alike(SysAt(cfg, moves, n).coord, At(cfg, INITIAL, Turns(cfg, moves, n), |Turns(cfg, moves, n)|), [])
  {
    hide Apply, Enabled, Step, Possible, Alike;
    if n == 0 {
      NoTurnsYet(cfg);
    } else {
      TurnsAreARun(cfg, moves, n - 1);
      var s, m, past := SysAt(cfg, moves, n - 1), moves[n - 1], Turns(cfg, moves, n - 1);
      assert Enabled(cfg, s, m);
      OtherMovesKeepTheCoordinator(cfg, s, m);
      if m.Finish? {
        OneMoreTurn(cfg, past, s.coord, Event(m.wait, m.dropped, s.busy.value));
      } else {
        StillAlike(s.coord, Apply(cfg, s, m).coord, At(cfg, INITIAL, past, |past|));
      }
    }
  }

  lemma NoTurnsYet(cfg: Config)
    ensures Possible(cfg, INITIAL, []) && SysAt(cfg, [], 0) == BOOT && Alike(INITIAL, INITIAL, [])
  {
  }

  lemma StillAlike(s: State, s': State, b: State)
    requires Alike(s, b, []) && s' == s.(restart := s'.restart)
    ensures Alike(s', b, [])
  {
  }

  lemma OtherMovesKeepTheCoordinator(cfg: Config, s: Sys, m: Move)
    requires Enabled(cfg, s, m)
    ensures !m.Finish? ==> Apply(cfg, s, m).coord == s.coord.(restart := Apply(cfg, s, m).coord.restart)
    ensures m.Finish? ==>
              && s.busy.Some? && Admissible(s.coord, Event(m.wait, m.dropped, s.busy.value))
              && Apply(cfg, s, m).coord == Step(cfg, s.coord, Event(m.wait, m.dropped, s.busy.value))
  {
    hide Step, S.Next;
    if m.Supervise? {
      SuperviseTouches(s, m.action, m.ticket);
    }
  }

  lemma OneMoreTurn(cfg: Config, events: seq<Event>, s: State, e: Event)
    requires Possible(cfg, INITIAL, events) && Alike(s, At(cfg, INITIAL, events, |events|), []) && Admissible(s, e)
    ensures Possible(cfg, INITIAL, events + [e])
    ensures Alike(Step(cfg, s, e), At(cfg, INITIAL, events + [e], |events| + 1), [])
  {
    hide Step, Admissible, Alike;
    StepAlike(cfg, s, At(cfg, INITIAL, events, |events|), [], e);
    AtPrefix(cfg, events, e, |events|);
    forall k | 0 <= k < |events| + 1 ensures Admissible(At(cfg, INITIAL, events + [e], k), (events + [e])[k]) {
      AtPrefix(cfg, events, e, k);
    }
  }

  /* ----- one pipeline after another ----- */

  lemma {:induction false} TurnsGrow(cfg: Config, moves: seq<Move>, m: nat, n: nat)
    requires m <= n <= |moves|
    ensures Turns(cfg, moves, m) <= Turns(cfg, moves, n)
    decreases n - m
  {
    hide SysAt;
    if m == n {
    } else {
      TurnsGrow(cfg, moves, m, n - 1);
    }
  }

  /** A run from its `p`-th state on is a run from that state. */
  lemma {:induction false} RunFrom(cfg: Config, events: seq<Event>, p: nat, k: nat)
    requires p + k <= |events|
    ensures At(cfg, At(cfg, INITIAL, events, p), events[p..], k) == At(cfg, INITIAL, events, p + k)
  {
    hide Step;
    if k == 0 {
    } else {
      RunFrom(cfg, events, p, k - 1);
    }
  }

  lemma {:induction false} RunOfPrefix(cfg: Config, events: seq<Event>, longer: seq<Event>, n: nat)
    requires events <= longer && n <= |events|
    ensures At(cfg, INITIAL, events, n) == At(cfg, INITIAL, longer, n)
  {
    hide Step;
    if n == 0 {
    } else {
      RunOfPrefix(cfg, events, longer, n - 1);
    }
  }

  lemma PossibleFrom(cfg: Config, events: seq<Event>, p: nat)
    requires Possible(cfg, INITIAL, events) && p <= |events|
    ensures Possible(cfg, At(cfg, INITIAL, events, p), events[p..])
  {
    hide Step, Admissible, At;
    forall k | 0 <= k < |events| - p
      ensures Admissible(At(cfg, At(cfg, INITIAL, events, p), events[p..], k), events[p..][k])
    {
      RunFrom(cfg, events, p, k);
    }
  }

  /** The coordinator's state at `n`, in a run of its own from where it was at `m`. */
  lemma StretchIsARun(cfg: Config, moves: seq<Move>, m: nat, n: nat) returns (start: State, events: seq<Event>)
    requires Allowed(cfg, moves) && m <= n <= |moves|
    ensures SameButRestart(SysAt(cfg, moves, m).coord, start) && Inv(cfg, start) && Possible(cfg, start, events)
    ensures SameButRestart(SysAt(cfg, moves, n).coord, At(cfg, start, events, |events|))
  {
    hide SysAt, At, Turns, Possible, Inv;
    var first, all := Turns(cfg, moves, m), Turns(cfg, moves, n);
    CoordinatorRunsAsAlone(cfg, moves, m);
    CoordinatorRunsAsAlone(cfg, moves, n);
    TurnsGrow(cfg, moves, m, n);
    var p := |first|;
    start, events := At(cfg, INITIAL, all, p), all[p..];
    RunOfPrefix(cfg, first, all, p);
    EveryRunKeepsInv(cfg, first, p);
    PossibleFrom(cfg, all, p);
    RunFrom(cfg, all, p, |all| - p);
  }

  /** Map and pipeline agree in every run of the pipeline: from an `init` that succeeds after a
      fully successful cleanup on, given the calls the coordinator has made since, each live
      connection has its whole branch in the new pipeline and nothing else is in it but
      orphans and leftovers of those calls. */
  lemma EachPipelineAgrees(
      cfg: Config, decode: bool, moves: seq<Move>, m: nat, n: nat, hs: seq<Happening>, gs: seq<Graph>)
    requires Allowed(cfg, moves) && m < n <= |moves|
    requires moves[m].Supervise? && moves[m].action == S.InitDone(true) && S.BothSucceeded(Actions(moves, m))
    requires OnANewPipeline(cfg, decode, CallsSince(SysAt(cfg, moves, m).coord, SysAt(cfg, moves, n).coord), hs, gs)
    ensures
      var since, s := SysAt(cfg, moves, m).coord, SysAt(cfg, moves, n).coord;
      MapAgrees(cfg, decode, s, CallsSince(since, s), hs, gs[|hs|]) && Core(gs[|hs|]) == gs[0]
  {
    hide SysAt, At, Possible, Inv, OnANewPipeline, Leftovers, Whole, NoBranch, Core, TeardownFailed, S.Next;
    EmptyWhileInitializing(cfg, moves, m);
    var start, events := StretchIsARun(cfg, moves, m, n);
    WorkedOnANew(cfg, decode, CallsSince(SysAt(cfg, moves, m).coord, SysAt(cfg, moves, n).coord), hs, gs);
    MapAndPipelineAgree(cfg, decode, start, events, |events|, hs, gs);
  }

  lemma WorkedOnANew(cfg: Config, decode: bool, calls: seq<BranchCall>, hs: seq<Happening>, gs: seq<Graph>)
    requires OnANewPipeline(cfg, decode, calls, hs, gs)
    ensures |gs| == |hs| + 1
  {
  }

  /** At the end of an `init` that follows a clean boundary the map is still empty. */
  lemma EmptyWhileInitializing(cfg: Config, moves: seq<Move>, m: nat)
    requires Allowed(cfg, moves) && m < |moves|
    requires moves[m].Supervise? && moves[m].action.InitDone? && S.BothSucceeded(Actions(moves, m))
    ensures SysAt(cfg, moves, m).coord.connections == map[]
  {
    hide Apply, SysAt;
    EveryRunIsFine(cfg, moves, m);
    SupervisorFollowsItsProtocol(cfg, moves, m);
    S.CleanMeansBothSucceeded(Actions(moves, m));
    var s := SysAt(cfg, moves, m);
    assert Enabled(cfg, s, moves[m]);
    assert s.sup.pc == S.AwaitingInit;
    assert s.sup.clean;
  }

  /** Restart causality for the whole system: every forced quit, and every request drained,
      discarded, refused or pending, has cost `max(threshold, 1)` handshakes that expired or
      lost their peer. */
  lemma RestartsAreEarnedBySystem(cfg: Config, moves: seq<Move>, n: nat)
    requires Allowed(cfg, moves) && n <= |moves|
    ensures
      var s, turns := SysAt(cfg, moves, n), Turns(cfg, moves, n);
      Max(cfg.watchdogThreshold as nat, 1) * (s.taken + s.drained + s.discarded + s.coord.restart.refused + Pending(s))
      <= BlamableSoFar(cfg, INITIAL, turns, |turns|)
  {
    hide SysAt, Turns, At, Possible, Trips, BlamableSoFar;
    CoordinatorRunsAsAlone(cfg, moves, n);
    RestartRequestsAreConserved(cfg, moves, n);
    var turns := Turns(cfg, moves, n);
    RestartsAreEarned(cfg, turns, |turns|);
  }
}
