/** Why the run boundary needs both successes: two runs of the composed system in which a
    viewer of the previous run is still in the map when the next `init` begins. */
module Hazards {
  import opened Prelude
  import opened Health
  import opened Signaling
  import opened System
  import S = Supervision

  /** The moves are a run of the system that ends in `s`, and the latest `clean_up` and the
      latest reset in it ended so. */
  ghost predicate Reached(cfg: Config, moves: seq<Move>, s: Sys, cleanup: Option<bool>, reset: Option<S.ResetResult>) {
    && Allowed(cfg, moves) && SysAt(cfg, moves, |moves|) == s
    && S.LastCleanup(Actions(moves, |moves|)) == cleanup
    && S.LastReset(Actions(moves, |moves|)) == reset
  }

  lemma {:induction false} PrefixesAgree(cfg: Config, moves: seq<Move>, m: Move, n: nat)
    requires n <= |moves|
    ensures SysAt(cfg, moves + [m], n) == SysAt(cfg, moves, n) && Actions(moves + [m], n) == Actions(moves, n)
  {
    hide Apply;
    if n == 0 {
    } else {
      PrefixesAgree(cfg, moves, m, n - 1);
    }
  }

  function CleanupAfter(m: Move, cleanup: Option<bool>): Option<bool> {
    if m.Supervise? && m.action.CleanedUp? then Some(m.action.ok) else cleanup
  }

  function ResetAfter(m: Move, reset: Option<S.ResetResult>): Option<S.ResetResult> {
    if m.Supervise? && m.action.ResetReturned? then Some(m.action.result) else reset
  }

  lemma OneMoreIsAllowed(cfg: Config, moves: seq<Move>, m: Move)
    requires Allowed(cfg, moves) && Enabled(cfg, SysAt(cfg, moves, |moves|), m)
    ensures Allowed(cfg, moves + [m])
    ensures SysAt(cfg, moves + [m], |moves| + 1) == Apply(cfg, SysAt(cfg, moves, |moves|), m)
  {
    hide Apply, Enabled;
    var longer := moves + [m];
    PrefixesAgree(cfg, moves, m, |moves|);
    forall k | 0 <= k < |longer| ensures Enabled(cfg, SysAt(cfg, longer, k), longer[k]) {
      PrefixesAgree(cfg, moves, m, if k < |moves| then k else |moves|);
    }
  }

  lemma OneMoreAction(cfg: Config, moves: seq<Move>, m: Move)
    ensures
      var trace, longer := Actions(moves, |moves|), Actions(moves + [m], |moves| + 1);
      && S.LastCleanup(longer) == CleanupAfter(m, S.LastCleanup(trace))
      && S.LastReset(longer) == ResetAfter(m, S.LastReset(trace))
  {
    hide S.LastCleanup, S.LastReset, SysAt;
    var trace := Actions(moves, |moves|);
    PrefixesAgree(cfg, moves, m, |moves|);
    if m.Supervise? {
      assert Actions(moves + [m], |moves| + 1) == trace + [m.action];
      S.OneMoreInTrace(trace, m.action);
    } else {
      assert Actions(moves + [m], |moves| + 1) == trace;
    }
  }

  lemma OneMoreMove(cfg: Config, moves: seq<Move>, s: Sys, m: Move, cleanup: Option<bool>, reset: Option<S.ResetResult>)
    requires Reached(cfg, moves, s, cleanup, reset) && Enabled(cfg, s, m)
    ensures Reached(cfg, moves + [m], Apply(cfg, s, m), CleanupAfter(m, cleanup), ResetAfter(m, reset))
  {
    hide Apply, Enabled, Allowed, SysAt, Actions, S.LastCleanup, S.LastReset, CleanupAfter, ResetAfter;
    OneMoreIsAllowed(cfg, moves, m);
    OneMoreAction(cfg, moves, m);
  }

  /** An action that touches nothing shared but, at most, the slot. */
  predicate Local(action: S.Action) {
    !action.RequestTaken? && !action.StaleDropped? && !action.ResetSent? && !action.ResetReturned?
  }

  function SlotAfter(action: S.Action, filled: bool): bool {
    match action
    case InitDone(ok) => BranchCalls.SlotAfterInit(filled, ok)
    case CleanedUp(ok) => BranchCalls.SlotAfterCleanUp(filled, ok)
    case _ => filled
  }

  lemma LocalActions(s: Sys, action: S.Action, c: S.Control)
    requires S.Next(s.sup, action) == Some(c) && !c.pc.Stopped? && Local(action) && !s.coord.restart.pending
    ensures MaySupervise(s, action, 0)
    ensures Supervised(s, action, 0) == s.(sup := c, filled := SlotAfter(action, s.filled))
  {
    hide S.Next;
  }

  lemma SuperviseAlone(cfg: Config, moves: seq<Move>, s: Sys, action: S.Action, c: S.Control,
                       cleanup: Option<bool>, reset: Option<S.ResetResult>)
    requires Reached(cfg, moves, s, cleanup, reset)
    requires S.Next(s.sup, action) == Some(c) && !c.pc.Stopped? && Local(action) && !s.coord.restart.pending
    ensures
      var m := Supervise(action, 0);
      Reached(cfg, moves + [m], s.(sup := c, filled := SlotAfter(action, s.filled)), CleanupAfter(m, cleanup),
            ResetAfter(m, reset))
  {
    hide S.Next, Reached, Supervised, MaySupervise, Step;
    LocalActions(s, action, c);
    OneMoreMove(cfg, moves, s, Supervise(action, 0), cleanup, reset);
  }

  /** The viewer `id` creates a connection: posted, begun and handled. */
  lemma OneViewerJoins(
      cfg: Config, moves: seq<Move>, s: Sys, id: Id, t: Ticket, cleanup: Option<bool>, reset: Option<S.ResetResult>)
    returns (longer: seq<Move>, s': Sys)
    requires Reached(cfg, moves, s, cleanup, reset) && s.filled && s.busy.None? && s.mailbox == []
    requires id !in s.coord.connections && t !in s.issued && t !in s.coord.replies && !s.coord.restart.pending
    ensures Reached(cfg, longer, s', cleanup, reset)
    ensures s'.sup == s.sup && s'.filled && s'.busy.None? && s'.mailbox == [] && s'.coord.restart == s.coord.restart
    ensures s'.coord.connections.Keys == s.coord.connections.Keys + {id}
    ensures s'.issued == s.issued + {t} && s'.coord.replies.Keys == s.coord.replies.Keys + {t}
  {
    hide Reached, S.Next, ExpireEach, Offered, Answered, AfterDelete, AfterReap, ResetAll;
    var command := CreateConnection(id, t);
    var input := Handle(command, PROMPT);
    var posted := s.(mailbox := [command], issued := s.issued + {t});
    OneMoreMove(cfg, moves, s, Post(command), cleanup, reset);
    assert Apply(cfg, s, Post(command)) == posted;
    longer := moves + [Post(command)];
    var begun := posted.(busy := Some(input), mailbox := []);
    OneMoreMove(cfg, longer, posted, Begin(input), cleanup, reset);
    assert Apply(cfg, posted, Begin(input)) == begun;
    longer := longer + [Begin(input)];
    OneMoreMove(cfg, longer, begun, Finish(0, {}), cleanup, reset);
    longer := longer + [Finish(0, {})];
    s' := Apply(cfg, begun, Finish(0, {}));
  }

  /** The coordinator takes a command and is busy with it until further notice. */
  lemma TurnHangs(cfg: Config, moves: seq<Move>, s: Sys, command: Command, call: Call)
    returns (longer: seq<Move>, s': Sys)
    requires Reached(cfg, moves, s, None, None) && s.filled && s.busy.None? && s.mailbox == []
    requires command.reply !in s.issued && !command.Reset?
    ensures Reached(cfg, longer, s', None, None)
    ensures s' == s.(busy := Some(Handle(command, call)), issued := s.issued + {command.reply})
  {
    hide Reached, S.Next, Step;
    var input := Handle(command, call);
    var posted := s.(mailbox := [command], issued := s.issued + {command.reply});
    OneMoreMove(cfg, moves, s, Post(command), None, None);
    assert Apply(cfg, s, Post(command)) == posted;
    longer := moves + [Post(command)];
    OneMoreMove(cfg, longer, posted, Begin(input), None, None);
    s' := posted.(busy := Some(input), mailbox := []);
    assert Apply(cfg, posted, Begin(input)) == s';
    longer := longer + [Begin(input)];
  }

  lemma Resetting(cleaned: bool)
    ensures
      var sending := S.Control(S.SendingReset(S.Completed(true), cleaned), 0, false);
      var awaiting := S.Control(S.AwaitingReset(S.Completed(true), cleaned), 0, false);
      && S.Next(sending, S.ResetSent) == Some(awaiting)
      && S.Next(awaiting, S.ResetReturned(S.NoReply)) == Some(S.Control(S.Sleeping(false), 0, false))
      && S.Next(awaiting, S.ResetReturned(S.Acknowledged)) == Some(S.Control(S.Sleeping(cleaned), 0, cleaned))
  {
    hide S.BackoffDelay;
  }

  /** The reset of a cleanup is queued behind the turn in progress and times out there. */
  lemma ResetTimesOut(cfg: Config, moves: seq<Move>, s: Sys, t: Ticket, cleaned: bool)
    returns (longer: seq<Move>, s': Sys)
    requires Reached(cfg, moves, s, Some(cleaned), None)
             && s.sup == S.Control(S.SendingReset(S.Completed(true), cleaned), 0, false)
    requires t !in s.issued && s.mailbox == [] && s.busy.Some? && !s.coord.restart.pending
    ensures Reached(cfg, longer, s', Some(cleaned), Some(S.NoReply))
    ensures s'.sup == S.Control(S.Sleeping(false), 0, false) && s'.coord == s.coord && s'.busy == s.busy
  {
    hide Reached, Step, S.Next;
    Resetting(cleaned);
    var send := Supervise(S.ResetSent, t);
    var sent := s.(sup := S.Control(S.AwaitingReset(S.Completed(true), cleaned), 0, false),
                   mailbox := [Command.Reset(t)], issued := s.issued + {t}, resetTicket := t);
    assert Apply(cfg, s, send) == sent;
    OneMoreMove(cfg, moves, s, send, Some(cleaned), None);
    longer := moves + [send];
    var returned := Supervise(S.ResetReturned(S.NoReply), 0);
    OneMoreMove(cfg, longer, sent, returned, Some(cleaned), None);
    longer, s' := longer + [returned], Apply(cfg, sent, returned);
    assert s' == sent.(sup := S.Control(S.Sleeping(false), 0, false));
  }

  lemma Booted(cfg: Config)
    ensures Reached(cfg, [], BOOT, None, None)
  {
    hide S.Next;
  }

  lemma StartingUp()
    ensures S.Next(S.START, S.SawNoShutdown) == Some(S.Control(S.Draining, 0, true))
    ensures S.Next(S.Control(S.Draining, 0, true), S.Drained) == Some(S.Control(S.Initializing, 0, true))
    ensures S.Next(S.Control(S.Initializing, 0, true), S.InitStarted) == Some(S.Control(S.AwaitingInit, 0, true))
  {
  }

  lemma FirstInit(cfg: Config) returns (moves: seq<Move>, s: Sys)
    ensures Reached(cfg, moves, s, None, None) && s == BOOT.(sup := S.Control(S.AwaitingInit, 0, true))
  {
    hide Reached, S.Next;
    Booted(cfg);
    StartingUp();
    moves, s := Advance(cfg, [], BOOT, S.SawNoShutdown, S.Control(S.Draining, 0, true), None, None);
    moves, s := Advance(cfg, moves, s, S.Drained, S.Control(S.Initializing, 0, true), None, None);
    moves, s := Advance(cfg, moves, s, S.InitStarted, S.Control(S.AwaitingInit, 0, true), None, None);
  }

  lemma FirstRun(cfg: Config) returns (moves: seq<Move>, s: Sys)
    ensures Reached(cfg, moves, s, None, None) && s == BOOT.(sup := S.Control(S.Running, 0, false), filled := true)
  {
    hide Reached;
    moves, s := FirstInit(cfg);
    SuperviseAlone(cfg, moves, s, S.InitDone(true), S.Control(S.Spawning, 0, false), None, None);
    moves, s := moves + [Supervise(S.InitDone(true), 0)], s.(sup := S.Control(S.Spawning, 0, false), filled := true);
    SuperviseAlone(cfg, moves, s, S.RunSpawned, S.Control(S.Running, 0, false), None, None);
    moves, s := moves + [Supervise(S.RunSpawned, 0)], s.(sup := S.Control(S.Running, 0, false));
  }

  /** A clean end, then a `clean_up`. */
  lemma RunEnds(cfg: Config, moves: seq<Move>, s: Sys, cleaned: bool) returns (longer: seq<Move>, s': Sys)
    requires Reached(cfg, moves, s, None, None) && s.sup == S.Control(S.Running, 0, false) && s.filled
             && !s.coord.restart.pending
    ensures Reached(cfg, longer, s', Some(cleaned), None)
    ensures s' == s.(sup := S.Control(S.SendingReset(S.Completed(true), cleaned), 0, false), filled := !cleaned)
  {
    hide Reached;
    var ended := S.Control(S.CleaningUp(S.Completed(true)), 0, false);
    SuperviseAlone(cfg, moves, s, S.RunStopped(true), ended, None, None);
    longer, s' := moves + [Supervise(S.RunStopped(true), 0)], s.(sup := ended);
    var done := S.Control(S.SendingReset(S.Completed(true), cleaned), 0, false);
    SuperviseAlone(cfg, longer, s', S.CleanedUp(cleaned), done, None, None);
    longer, s' := longer + [Supervise(S.CleanedUp(cleaned), 0)], s'.(sup := done, filled := !cleaned);
  }

  /** One action the supervisor takes alone, to the control state `c`. */
  lemma Advance(
      cfg: Config, moves: seq<Move>, s: Sys, action: S.Action, c: S.Control, cleanup: Option<bool>,
      reset: Option<S.ResetResult>)
    returns (longer: seq<Move>, s': Sys)
    requires Reached(cfg, moves, s, cleanup, reset) && !s.coord.restart.pending
    requires S.Next(s.sup, action) == Some(c) && !c.pc.Stopped? && Local(action)
    requires !action.InitDone? && !action.CleanedUp?
    ensures Reached(cfg, longer, s', cleanup, reset) && s' == s.(sup := c)
    ensures longer == moves + [Supervise(action, 0)]
  {
    hide S.Next, Reached, Supervised, MaySupervise, Step;
    SuperviseAlone(cfg, moves, s, action, c, cleanup, reset);
    longer, s' := moves + [Supervise(action, 0)], s.(sup := c);
  }

  /** From asleep after a clean end to the start of the next `init`. */
  lemma NextRunStarts(cfg: Config, moves: seq<Move>, s: Sys, cleanup: Option<bool>, reset: Option<S.ResetResult>)
    returns (longer: seq<Move>, s': Sys)
    requires Reached(cfg, moves, s, cleanup, reset)
    requires s.sup == S.Control(S.Sleeping(false), 0, false) && !s.coord.restart.pending
    ensures Reached(cfg, longer, s', cleanup, reset) && longer != []
            && longer[|longer| - 1] == Supervise(S.InitStarted, 0)
    ensures s'.coord == s.coord && s'.busy == s.busy
  {
    hide Reached, S.Next;
    WakingUp();
    longer, s' := Advance(cfg, moves, s, S.Slept(1), S.Control(S.Top, 0, false), cleanup, reset);
    longer, s' := Advance(cfg, longer, s', S.SawNoShutdown, S.Control(S.Draining, 0, false), cleanup, reset);
    longer, s' := Advance(cfg, longer, s', S.Drained, S.Control(S.Initializing, 0, false), cleanup, reset);
    longer, s' := Advance(cfg, longer, s', S.InitStarted, S.Control(S.AwaitingInit, 0, false), cleanup, reset);
  }

  lemma WakingUp()
    ensures S.Next(S.Control(S.Sleeping(false), 0, false), S.Slept(1)) == Some(S.Control(S.Top, 0, false))
    ensures S.Next(S.Control(S.Top, 0, false), S.SawNoShutdown) == Some(S.Control(S.Draining, 0, false))
    ensures S.Next(S.Control(S.Draining, 0, false), S.Drained) == Some(S.Control(S.Initializing, 0, false))
    ensures S.Next(S.Control(S.Initializing, 0, false), S.InitStarted) == Some(S.Control(S.AwaitingInit, 0, false))
  {
    hide S.SaturatingPow2, S.AfterReset;
  }

  /** The reset command of the supervisor, sent, handled and acknowledged. */
  lemma ResetIsAcknowledged(cfg: Config, moves: seq<Move>, s: Sys) returns (longer: seq<Move>, s': Sys)
    requires Reached(cfg, moves, s, Some(false), None)
             && s.sup == S.Control(S.SendingReset(S.Completed(true), false), 0, false)
    requires s.coord == INITIAL && s.busy.None? && s.mailbox == [] && s.issued == {}
    ensures Reached(cfg, longer, s', Some(false), Some(S.Acknowledged))
    ensures s'.sup == S.Control(S.Sleeping(false), 0, false) && s'.filled == s.filled && s'.busy.None?
            && s'.mailbox == []
    ensures s'.coord.connections == map[] && s'.issued == {0} && 1 !in s'.coord.replies && !s'.coord.restart.pending
  {
    hide Reached, Step, S.Next;
    Resetting(false);
    var send := Supervise(S.ResetSent, 0);
    var input := Handle(Command.Reset(0), PROMPT);
    var sent := s.(sup := S.Control(S.AwaitingReset(S.Completed(true), false), 0, false),
                   mailbox := [Command.Reset(0)], issued := {0}, resetTicket := 0);
    assert Apply(cfg, s, send) == sent;
    OneMoreMove(cfg, moves, s, send, Some(false), None);
    longer := moves + [send];
    var begun := sent.(busy := Some(input), mailbox := []);
    assert Apply(cfg, sent, Begin(input)) == begun;
    OneMoreMove(cfg, longer, sent, Begin(input), Some(false), None);
    longer := longer + [Begin(input)];
    OneMoreMove(cfg, longer, begun, Finish(0, {}), Some(false), None);
    var reset := Apply(cfg, begun, Finish(0, {}));
    longer := longer + [Finish(0, {})];
    ResetStep(cfg);
    assert reset == begun.(coord := Step(cfg, INITIAL, Event(0, {}, input)), busy := None);
    longer, s' := ResetReturns(cfg, longer, reset);
  }

  lemma ResetStep(cfg: Config)
    ensures
      var s' := Step(cfg, INITIAL, Event(0, {}, Handle(Command.Reset(0), PROMPT)));
      && s'.connections == map[] && s'.replies == map[0 := [Delivered(Done)]] && s'.restart == INITIAL.restart
  {
    var s1 := Submit(Awake(INITIAL, 0), 0);
    assert s1.replies == map[0 := []];
    var s2 := ResetAll(s1, {}).(health := [Succeeded]);
    assert s2.replies == map[0 := []];
    assert Log(s2, 0) + [Fate({}, 0, Done)] == [Delivered(Done)];
    assert Send(s2, {}, 0, Done).replies == map[0 := [Delivered(Done)]];
  }

  lemma ResetReturns(cfg: Config, moves: seq<Move>, s: Sys) returns (longer: seq<Move>, s': Sys)
    requires Reached(cfg, moves, s, Some(false), None)
             && s.sup == S.Control(S.AwaitingReset(S.Completed(true), false), 0, false)
    requires s.resetTicket == 0 && s.coord.replies == map[0 := [Delivered(Done)]]
    ensures Reached(cfg, longer, s', Some(false), Some(S.Acknowledged))
    ensures s' == s.(sup := S.Control(S.Sleeping(false), 0, false))
  {
    hide Reached, Step, S.Next;
    Resetting(false);
    var returned := Supervise(S.ResetReturned(S.Acknowledged), 0);
    OneMoreMove(cfg, moves, s, returned, Some(false), None);
    longer, s' := moves + [returned], Apply(cfg, s, returned);
  }

  /** A run of the system that starts a pipeline after a cleanup that came out so. */
  ghost predicate StartsRun(cfg: Config, moves: seq<Move>, cleaned: bool, reset: S.ResetResult) {
    && Allowed(cfg, moves) && moves != []
    && moves[|moves| - 1].Supervise? && moves[|moves| - 1].action.InitStarted?
    && S.LastCleanup(Actions(moves, |moves|)) == Some(cleaned)
    && S.LastReset(Actions(moves, |moves|)) == Some(reset)
  }

  /** It starts with a viewer of the previous run still in the map, while the turn in progress
      keeps the coordinator busy for `hold`. */
  ghost predicate StaleViewer(cfg: Config, moves: seq<Move>, cleaned: bool, reset: S.ResetResult, hold: nat) {
    var s := SysAt(cfg, moves, |moves|);
    && StartsRun(cfg, moves, cleaned, reset)
    && s.coord.connections != map[]
    && HeldFor(cfg, s) == hold
  }

  /** How much longer the turn in progress takes. */
  function HeldFor(cfg: Config, s: Sys): int {
    if s.busy.None? then 0 else Step(cfg, s.coord, Event(0, {}, s.busy.value)).clock - s.coord.clock
  }

  lemma Stale(cfg: Config, moves: seq<Move>, s: Sys, cleaned: bool, reset: S.ResetResult, hold: nat)
    requires Reached(cfg, moves, s, Some(cleaned), Some(reset)) && "a" in s.coord.connections && HeldFor(cfg, s) == hold
    requires moves != [] && moves[|moves| - 1] == Supervise(S.InitStarted, 0)
    ensures StaleViewer(cfg, moves, cleaned, reset, hold)
  {
    hide SysAt, Actions, HeldFor;
  }

  lemma HangingTeardownHolds(cfg: Config, s: Sys, t: Ticket)
    requires s.busy == Some(Handle(RemoveConnection("b", t), PROMPT.(detach := cfg.teardownTimeout + 1)))
    requires "b" in s.coord.connections
    ensures HeldFor(cfg, s) == cfg.teardownTimeout
  {
    hide Created, Offered, Answered, ExpireEach, ResetAll;
  }

  lemma HangingAttachHolds(cfg: Config, s: Sys, t: Ticket, hold: nat)
    requires s.busy == Some(Handle(CreateConnection("b", t), PROMPT.(attach := hold)))
    requires "b" !in s.coord.connections
    ensures HeldFor(cfg, s) == hold
  {
    hide Offered, Answered, ExpireEach, ResetAll, AfterDelete;
  }

  /** A `clean_up` alone is not enough: with a reset that times out behind a hanging DELETE, a
      viewer of the previous run is still in the map when the next `init` begins. The DELETE
      is cut off at the teardown timeout, so that has to be the longer of the two. */
  lemma BoundaryNeedsTheReset(cfg: Config)
    ensures exists moves :: StaleViewer(cfg, moves, true, S.NoReply, cfg.teardownTimeout)
  {
    hide Reached, StaleViewer, HeldFor;
    var call := PROMPT.(detach := cfg.teardownTimeout + 1);
    var moves, s := FirstRun(cfg);
    moves, s := OneViewerJoins(cfg, moves, s, "a", 1, None, None);
    moves, s := OneViewerJoins(cfg, moves, s, "b", 2, None, None);
    moves, s := TurnHangs(cfg, moves, s, RemoveConnection("b", 3), call);
    moves, s := RunEnds(cfg, moves, s, true);
    moves, s := ResetTimesOut(cfg, moves, s, 4, true);
    moves, s := NextRunStarts(cfg, moves, s, Some(true), Some(S.NoReply));
    HangingTeardownHolds(cfg, s, 3);
    Stale(cfg, moves, s, true, S.NoReply, cfg.teardownTimeout);
  }

  /** With neither it takes no more than an attach that blocks, for however long, with the
      pipeline's lock in hand: `clean_up` cannot have the lock and the reset times out. */
  lemma BoundaryNeedsEither(cfg: Config, hold: nat)
    ensures exists moves :: StaleViewer(cfg, moves, false, S.NoReply, hold)
  {
    hide Reached, StaleViewer, HeldFor;
    var moves, s := FirstRun(cfg);
    moves, s := OneViewerJoins(cfg, moves, s, "a", 1, None, None);
    moves, s := TurnHangs(cfg, moves, s, CreateConnection("b", 2), PROMPT.(attach := hold));
    moves, s := RunEnds(cfg, moves, s, false);
    moves, s := ResetTimesOut(cfg, moves, s, 3, false);
    moves, s := NextRunStarts(cfg, moves, s, Some(false), Some(S.NoReply));
    HangingAttachHolds(cfg, s, 2, hold);
    Stale(cfg, moves, s, false, S.NoReply, hold);
  }

  /** Nor is the reset alone: with a `clean_up` that fails, a create can slip in between the
      acknowledged reset and the next `init`, the coordinator being free all along. */
  lemma BoundaryNeedsTheCleanup(cfg: Config)
    ensures exists moves :: StaleViewer(cfg, moves, false, S.Acknowledged, 0)
  {
    hide Reached, StaleViewer;
    var moves, s := FirstRun(cfg);
    moves, s := RunEnds(cfg, moves, s, false);
    moves, s := ResetIsAcknowledged(cfg, moves, s);
    moves, s := OneViewerJoins(cfg, moves, s, "a", 1, Some(false), Some(S.Acknowledged));
    moves, s := NextRunStarts(cfg, moves, s, Some(false), Some(S.Acknowledged));
    Stale(cfg, moves, s, false, S.Acknowledged, 0);
  }

  /** After a fully successful cleanup every run starts with an empty map. */
  lemma CleanRunsStartEmpty(cfg: Config, moves: seq<Move>)
    requires StartsRun(cfg, moves, true, S.Acknowledged)
    ensures SysAt(cfg, moves, |moves|).coord.connections == map[]
  {
    hide SysAt, S.LastCleanup, S.LastReset, S.Next;
    var n := |moves| - 1;
    var past, m := Actions(moves, n), moves[n];
    S.OneMoreInTrace(past, m.action);
    assert Actions(moves, |moves|) == past + [m.action];
    RunBoundary(cfg, moves, n);
    LastMove(cfg, moves);
  }

  lemma LastMove(cfg: Config, moves: seq<Move>)
    requires Allowed(cfg, moves) && moves != [] && moves[|moves| - 1].Supervise?
    ensures SysAt(cfg, moves, |moves|).coord.connections == SysAt(cfg, moves, |moves| - 1).coord.connections
  {
    hide S.Next, Step;
    OtherMovesKeepTheCoordinator(cfg, SysAt(cfg, moves, |moves| - 1), moves[|moves| - 1]);
  }

  /** The exact condition: of the runs that start after a `clean_up` and a reset that came out
      so, all start with an empty map if and only if both succeeded. */
  lemma BoundaryIsCleanIffBothSucceeded(cfg: Config, cleaned: bool, reset: S.ResetResult)
    requires reset in {S.Acknowledged, S.NoReply}
    ensures (forall moves :: StartsRun(cfg, moves, cleaned, reset) ==>
               SysAt(cfg, moves, |moves|).coord.connections == map[])
            <==> cleaned && reset.Acknowledged?
  {
    hide StartsRun, SysAt, HeldFor;
    if cleaned && reset.Acknowledged? {
      forall moves | StartsRun(cfg, moves, cleaned, reset)
        ensures SysAt(cfg, moves, |moves|).coord.connections == map[]
      {
        CleanRunsStartEmpty(cfg, moves);
      }
    } else if cleaned {
      BoundaryNeedsTheReset(cfg);
    } else if reset.Acknowledged? {
      BoundaryNeedsTheCleanup(cfg);
    } else {
      BoundaryNeedsEither(cfg, 0);
    }
  }
}
