/** From the trip to the forced quit: no request is lost while the supervisor listens, and no
    run is quit for a trip that was not its own. */
module Restarts {
  import opened Prelude
  import opened Signaling
  import opened Lifecycle
  import opened System
  import opened Vitals
  import S = Supervision

  /** The turn finished by the `n`-th move trips the watchdog. */
  ghost predicate TripsAt(cfg: Config, moves: seq<Move>, n: int) {
    && 0 <= n < |moves| && moves[n].Finish?
    && var s := SysAt(cfg, moves, n);
       s.busy.Some? && Tripping(cfg, s.coord, Event(moves[n].wait, moves[n].dropped, s.busy.value))
  }

  predicate Does(moves: seq<Move>, n: int, action: S.Action) {
    0 <= n < |moves| && moves[n].Supervise? && moves[n].action == action
  }

  /** What one move does to the restart channel. */
  lemma ChannelMoves(cfg: Config, moves: seq<Move>, n: nat)
    requires Allowed(cfg, moves) && n < |moves|
    ensures
      var s, s' := SysAt(cfg, moves, n), SysAt(cfg, moves, n + 1);
      var r, r' := s.coord.restart, s'.coord.restart;
      match moves[n]
      case Finish(_, _) =>
        && s'.sup == s.sup && r'.open == r.open
        && (r'.pending <==> r.pending || (TripsAt(cfg, moves, n) && r.open))
        && r'.refused == r.refused + if TripsAt(cfg, moves, n) && (r.pending || !r.open) then 1 else 0
      case Supervise(a, _) =>
        && S.Next(s.sup, a) == Some(s'.sup)
        && r'.open == (r.open && !s'.sup.pc.Stopped?)
        && (r'.pending ==> r.pending)
        && (a.Drained? || s'.sup.pc.Stopped? ==> !r'.pending)
        && (a.RequestTaken? ==> r.pending)
      case _ => s'.sup == s.sup && r' == r
  {
    hide S.Next, Step, Tripping, Allowed;
    MoveIsEnabled(cfg, moves, n);
    OneMove(cfg, moves, n);
    var s, m := SysAt(cfg, moves, n), moves[n];
    if m.Finish? {
      TripsQueueTheirRequest(cfg, s.coord, Event(m.wait, m.dropped, s.busy.value));
    }
  }

  lemma MoveIsEnabled(cfg: Config, moves: seq<Move>, n: nat)
    requires Allowed(cfg, moves) && n < |moves|
    ensures Enabled(cfg, SysAt(cfg, moves, n), moves[n])
  {
    hide SysAt, Enabled;
  }

  /** The channel is open exactly as long as the supervisor has not stopped, and a stopped
      supervisor leaves no request behind. */
  lemma {:induction false} OpenUntilStopped(cfg: Config, moves: seq<Move>, n: nat)
    requires Allowed(cfg, moves) && n <= |moves|
    ensures
      var s := SysAt(cfg, moves, n);
      (s.coord.restart.open <==> !s.sup.pc.Stopped?) && (s.sup.pc.Stopped? ==> !s.coord.restart.pending)
  {
    hide Apply, S.Next, Allowed, TripsAt;
    if n == 0 {
    } else {
      OpenUntilStopped(cfg, moves, n - 1);
      ChannelMoves(cfg, moves, n - 1);
      StoppedIsFinal();
    }
  }

  lemma StoppedIsFinal()
    ensures forall c: S.Control, a :: c.pc.Stopped? ==> S.Next(c, a).None?
  {
    hide S.BackoffDelay, S.AfterReset;
  }

  /** While the supervisor runs, every trip is heard: its turn ends with a request waiting in
      the channel, and it is refused only if one was waiting there already. */
  lemma TripsAreHeard(cfg: Config, moves: seq<Move>, n: nat)
    requires Allowed(cfg, moves) && TripsAt(cfg, moves, n) && !SysAt(cfg, moves, n).sup.pc.Stopped?
    ensures
      var r, r' := SysAt(cfg, moves, n).coord.restart, SysAt(cfg, moves, n + 1).coord.restart;
      r'.pending && r'.refused == r.refused + if r.pending then 1 else 0
  {
    hide SysAt, Allowed, TripsAt;
    assert moves[n].Finish? by {
      TripsFinish(cfg, moves, n);
    }
    OpenUntilStopped(cfg, moves, n);
    ChannelMoves(cfg, moves, n);
  }

  lemma TripsFinish(cfg: Config, moves: seq<Move>, n: int)
    requires TripsAt(cfg, moves, n)
    ensures 0 <= n < |moves| && moves[n].Finish?
  {
  }

  /** `d` is the latest drain before `n`. */
  ghost predicate LastDrain(moves: seq<Move>, d: int, n: int) {
    Does(moves, d, S.Drained) && d < n && forall k :: d < k < n ==> !Does(moves, k, S.Drained)
  }

  /** From its drain to its end, a run. */
  predicate UnderWay(pc: S.Pc) {
    pc.Initializing? || pc.AwaitingInit? || pc.Spawning? || pc.Running?
  }

  lemma RunsBeginWithADrain(c: S.Control, a: S.Action)
    requires S.Next(c, a).Some? && UnderWay(S.Next(c, a).value.pc)
    ensures a.Drained? || UnderWay(c.pc)
  {
    hide S.BackoffDelay;
  }

  /** Every run has been preceded by a drain. */
  lemma {:induction false} EveryRunIsDrainedFor(cfg: Config, moves: seq<Move>, n: nat)
    requires Allowed(cfg, moves) && n <= |moves| && UnderWay(SysAt(cfg, moves, n).sup.pc)
    ensures exists d :: LastDrain(moves, d, n)
  {
    hide Apply, S.Next, Allowed, TripsAt, UnderWay;
    if n == 0 {
      NotUnderWayYet();
    } else {
      ChannelMoves(cfg, moves, n - 1);
      if Does(moves, n - 1, S.Drained) {
        assert LastDrain(moves, n - 1, n);
      } else {
        if moves[n - 1].Supervise? {
          RunsBeginWithADrain(SysAt(cfg, moves, n - 1).sup, moves[n - 1].action);
        }
        EveryRunIsDrainedFor(cfg, moves, n - 1);
        var d :| LastDrain(moves, d, n - 1);
        assert LastDrain(moves, d, n);
      }
    }
  }

  lemma NotUnderWayYet()
    ensures !UnderWay(BOOT.sup.pc)
  {
  }

  lemma {:induction false} RequestsSinceTheDrain(cfg: Config, moves: seq<Move>, d: nat, n: nat)
    requires Allowed(cfg, moves) && n <= |moves| && LastDrain(moves, d, n)
    requires SysAt(cfg, moves, n).coord.restart.pending
    ensures exists m :: d < m < n && TripsAt(cfg, moves, m)
    decreases n
  {
    hide SysAt, S.Next, Allowed, TripsAt;
    ChannelMoves(cfg, moves, n - 1);
    if SysAt(cfg, moves, n - 1).coord.restart.pending && d < n - 1 {
      RequestsSinceTheDrain(cfg, moves, d, n - 1);
    }
  }

  /** Every forced quit is for a trip of the run it ends: the request the supervisor takes was
      made after the drain that run began with, which dropped whatever was left before. */
  lemma QuitsAreForTheirOwnRun(cfg: Config, moves: seq<Move>, n: nat)
    requires Allowed(cfg, moves) && Does(moves, n, S.RequestTaken)
    ensures exists d, m :: LastDrain(moves, d, n) && d < m < n && TripsAt(cfg, moves, m)
  {
    hide SysAt, Allowed, TripsAt, S.Next;
    ChannelMoves(cfg, moves, n);
    RequestsAreTakenInARun(SysAt(cfg, moves, n).sup, moves[n].action);
    EveryRunIsDrainedFor(cfg, moves, n);
    var d :| LastDrain(moves, d, n);
    RequestsSinceTheDrain(cfg, moves, d, n);
  }

  lemma RequestsAreTakenInARun(c: S.Control, a: S.Action)
    requires S.Next(c, a).Some? && a.RequestTaken?
    ensures UnderWay(c.pc)
  {
  }
}
