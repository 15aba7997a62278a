/** The pipeline supervisor (src/supervisor.rs): the restart loop as the code runs it, and
    the protocol it follows as an automaton over its visible actions. */
module Supervision {
  import opened Prelude

  /* ----- backoff ----- */

  const BASE_RESTART_DELAY: nat := 1
  const MAX_RESTART_DELAY: nat := 30

  function Pow2(n: nat): nat {
    if n == 0 then 1 else 2 * Pow2(n - 1)
  }

  /** `u32::saturating_pow` with base two. */
  function SaturatingPow2(n: nat): u32 {
    Min(Pow2(n), U32_MAX as int) as u32
  }

  function MinU32(a: u32, b: u32): u32 {
    if a < b then a else b
  }

  function SaturatingInc(n: u32): u32 {
    if n == U32_MAX then n else n + 1
  }

  /** Seconds before the next run. */
  function BackoffDelay(consecutiveFailures: u32): nat {
    if consecutiveFailures <= 1 then BASE_RESTART_DELAY
    else Min(BASE_RESTART_DELAY * MinU32(SaturatingPow2((consecutiveFailures - 1) as nat), 64) as nat,
          MAX_RESTART_DELAY)
  }

  lemma {:induction false} Pow2Grows(m: nat, n: nat)
    requires m <= n
    ensures 1 <= Pow2(m) <= Pow2(n)
    decreases n
  {
    if m < n {
      Pow2Grows(m, n - 1);
    } else if n > 0 {
      Pow2Grows(n - 1, n - 1);
    }
  }

  /** The saturations never show: the delay is `min(2^(n-1), 30)` seconds, and it only grows. */
  lemma BackoffIsCappedDoubling(n: u32, m: u32)
    ensures BackoffDelay(n) == if n == 0 then 1 else Min(Pow2((n - 1) as nat), 30)
    ensures n <= m ==> BackoffDelay(n) <= BackoffDelay(m) <= MAX_RESTART_DELAY
  {
    BackoffClosedForm(n);
    BackoffClosedForm(m);
    if 1 <= n <= m {
      Pow2Grows((n - 1) as nat, (m - 1) as nat);
    } else if m >= 1 {
      Pow2Grows(0, (m - 1) as nat);
    }
  }

  lemma BackoffClosedForm(n: u32)
    ensures BackoffDelay(n) == if n == 0 then 1 else Min(Pow2((n - 1) as nat), 30)
  {
    assert Pow2(5) == 32;
    if n >= 6 {
      Pow2Grows(5, (n - 1) as nat);
    } else if n >= 1 {
      Pow2Grows((n - 1) as nat, 5);
    }
  }

  /* ----- the protocol ----- */

  datatype Outcome = Completed(ok: bool) | ShuttingDown | Restart

  datatype ResetResult = Acknowledged | Unreachable | NoReply

  /** What the supervisor can be seen doing. */
  datatype Action =
    | SawNoShutdown
    | SawShutdown
    | StaleDropped
    | Drained
    | InitStarted
    | InitDone(ok: bool)
    | RunSpawned
    | RunStopped(ok: bool)
    | EndCalled
    | RequestTaken
    | QuitCalled
    | RunJoined
    | RunAborted
    | CleanedUp(ok: bool)
    | ResetSent
    | ResetReturned(result: ResetResult)
    | Slept(seconds: nat)

  datatype Pc =
    | Top
    | Draining
    | Initializing
    | AwaitingInit
    | Spawning
    | Running
    | Ending
    | Quitting
    | Joining(next: Outcome)
    | CleaningUp(outcome: Outcome)
    | SendingReset(outcome: Outcome, cleaned: bool)
    | AwaitingReset(outcome: Outcome, cleaned: bool)
    | Sleeping(boundary: bool)
    | Stopped

  /** Where the supervisor is, its failure count, and whether the signaling plane is at a
      clean run boundary: the last cleanup fully succeeded (or nothing ran yet). */
  datatype Control = Control(pc: Pc, failures: u32, clean: bool)

  const START := Control(Top, 0, true)

  function CountAfter(outcome: Outcome, failures: u32): u32 {
    match outcome
    case Completed(false) => SaturatingInc(failures)
    case _ => 0
  }

  /** The next control state, if the action is one the supervisor may take now. */
  function Next(c: Control, a: Action): Option<Control> {
    match (c.pc, a)
    case (Top, SawNoShutdown) => Some(c.(pc := Draining))
    case (Top, SawShutdown) => Some(c.(pc := Stopped))
    case (Draining, StaleDropped) => Some(c)
    case (Draining, Drained) => Some(c.(pc := Initializing))
    case (Initializing, InitStarted) => Some(c.(pc := AwaitingInit))
    case (AwaitingInit, InitDone(true)) => Some(c.(pc := Spawning, clean := false))
    case (AwaitingInit, InitDone(false)) => Some(c.(pc := CleaningUp(Completed(false))))
    case (Spawning, RunSpawned) => Some(c.(pc := Running))
    case (Running, RunStopped(ok)) => Some(c.(pc := CleaningUp(Completed(ok))))
    case (Running, SawShutdown) => Some(c.(pc := Ending))
    case (Running, RequestTaken) => Some(c.(pc := Quitting))
    case (Ending, EndCalled) => Some(c.(pc := Joining(ShuttingDown)))
    case (Quitting, QuitCalled) => Some(c.(pc := Joining(Restart)))
    case (Joining(next), RunJoined) => Some(c.(pc := CleaningUp(next)))
    case (Joining(next), RunAborted) => Some(c.(pc := CleaningUp(next)))
    case (CleaningUp(outcome), CleanedUp(ok)) => Some(c.(pc := SendingReset(outcome, ok)))
    case (SendingReset(outcome, cleaned), ResetSent) => Some(c.(pc := AwaitingReset(outcome, cleaned)))
    case (SendingReset(outcome, cleaned), ResetReturned(result)) =>
      if result.Acknowledged? then None else Some(AfterReset(c, outcome, false))
    case (AwaitingReset(outcome, cleaned), ResetReturned(result)) =>
      Some(AfterReset(c, outcome, cleaned && result.Acknowledged?))
    case (Sleeping(_), Slept(seconds)) => if seconds == BackoffDelay(c.failures) then Some(c.(pc := Top)) else None
    case (Sleeping(_), SawShutdown) => Some(c.(pc := Stopped))
    case _ => None
  }

  function AfterReset(c: Control, outcome: Outcome, clean: bool): Control {
    if outcome.ShuttingDown? then Control(Stopped, c.failures, clean)
    else Control(Sleeping(clean), CountAfter(outcome, c.failures), clean)
  }

  /** Follow a trace from the start, if the protocol allows it. */
  function Follow(trace: seq<Action>): Option<Control> {
    if trace == [] then Some(START)
    else match Follow(trace[..|trace| - 1])
         case None => None
         case Some(c) => Next(c, trace[|trace| - 1])
  }

  lemma FollowOne(trace: seq<Action>, a: Action)
    ensures Follow(trace + [a]) == match Follow(trace) case None => None case Some(c) => Next(c, a)
  {
    assert (trace + [a])[..|trace|] == trace;
  }

  lemma FollowPrefix(trace: seq<Action>, k: nat)
    requires Follow(trace).Some? && k <= |trace|
    ensures Follow(trace[..k]).Some?
    decreases |trace| - k
  {
    hide Next;
    if k < |trace| {
      FollowPrefix(trace, k + 1);
      assert trace[..k + 1][..k] == trace[..k];
    } else {
      assert trace[..k] == trace;
    }
  }

  /* ----- the code ----- */

  datatype Join = Joined(ok: bool) | TimedOut

  /** Which arm of the select fires while the pipeline runs. */
  datatype Wake = Stops(ok: bool) | Shutdown(ended: Join) | RestartRequest(quit: Join)

  /** What the environment does during one turn of the loop. The drain before the run meets
      `stale` restart requests, those that arrive while it loops included. */
  datatype Cycle = Cycle(
    stop: bool, stale: nat, initOk: bool, wake: Wake,
    cleaned: bool, resetSent: bool, reset: ResetResult, stopAsleep: bool)

  function WakeOutcome(wake: Wake): Outcome {
    match wake
    case Stops(ok) => Completed(ok)
    case Shutdown(_) => ShuttingDown
    case RestartRequest(_) => Restart
  }

  function JoinTrace(join: Join): seq<Action> {
    if join.Joined? then [RunJoined] else [RunAborted]
  }

  /** What each part of the loop does, call by call, in a given environment. */
  function WatchTrace(wake: Wake): seq<Action> {
    match wake
    case Stops(ok) => [RunStopped(ok)]
    case Shutdown(join) => [SawShutdown, EndCalled] + JoinTrace(join)
    case RestartRequest(join) => [RequestTaken, QuitCalled] + JoinTrace(join)
  }

  function DrainTrace(stale: nat): seq<Action> {
    if stale == 0 then [] else DrainTrace(stale - 1) + [StaleDropped]
  }

  function PipelineTrace(env: Cycle): seq<Action> {
    DrainTrace(env.stale) + [Drained, InitStarted, InitDone(env.initOk)] +
    if env.initOk then [RunSpawned] + WatchTrace(env.wake) else []
  }

  function PipelineOutcome(env: Cycle): Outcome {
    if env.initOk then WakeOutcome(env.wake) else Completed(false)
  }

  function CleanupTrace(env: Cycle): seq<Action> {
    [CleanedUp(env.cleaned)] + if env.resetSent then [ResetSent, ResetReturned(env.reset)] else [ResetReturned(NoReply)]
  }

  predicate Continues(env: Cycle) {
    !env.stop && !PipelineOutcome(env).ShuttingDown? && !env.stopAsleep
  }

  function TurnTrace(env: Cycle, failures: u32): seq<Action> {
    if env.stop then [SawShutdown]
    else
      [SawNoShutdown] + (PipelineTrace(env) + CleanupTrace(env)) +
      if PipelineOutcome(env).ShuttingDown? then []
      else if env.stopAsleep then [SawShutdown]
      else [Slept(BackoffDelay(CountAfter(PipelineOutcome(env), failures)))]
  }

  /** The failure count after the first `n` turns. */
  function CountSoFar(script: seq<Cycle>, n: nat): u32
    requires n <= |script|
  {
    if n == 0 then 0 else CountAfter(PipelineOutcome(script[n - 1]), CountSoFar(script, n - 1))
  }

  /** The calls of the first `n` turns; a turn that does not continue is the last. */
  function LoopTrace(script: seq<Cycle>, n: nat): seq<Action>
    requires n <= |script|
  {
    if n == 0 then []
    else if exists k :: 0 <= k < n - 1 && !Continues(script[k]) then LoopTrace(script, n - 1)
    else LoopTrace(script, n - 1) + TurnTrace(script[n - 1], CountSoFar(script, n - 1))
  }

  lemma StartingSteps(c: Control)
    requires c.pc == Draining
    ensures Next(c.(pc := Initializing), InitStarted) == Some(c.(pc := AwaitingInit))
    ensures Next(c.(pc := AwaitingInit), InitDone(true)) == Some(c.(pc := Spawning, clean := false))
    ensures Next(c.(pc := AwaitingInit), InitDone(false)) == Some(c.(pc := CleaningUp(Completed(false))))
    ensures Next(c.(pc := Spawning, clean := false), RunSpawned) == Some(c.(pc := Running, clean := false))
  {
  }

  lemma RunningSteps(c: Control)
    requires c.pc == Running
    ensures forall ok :: Next(c, RunStopped(ok)) == Some(c.(pc := CleaningUp(Completed(ok))))
    ensures Next(c, SawShutdown) == Some(c.(pc := Ending))
    ensures Next(c.(pc := Ending), EndCalled) == Some(c.(pc := Joining(ShuttingDown)))
    ensures Next(c, RequestTaken) == Some(c.(pc := Quitting))
    ensures Next(c.(pc := Quitting), QuitCalled) == Some(c.(pc := Joining(Restart)))
  {
  }

  lemma CleaningSteps(c: Control, outcome: Outcome, cleaned: bool, result: ResetResult)
    requires c.pc == CleaningUp(outcome)
    ensures Next(c, CleanedUp(cleaned)) == Some(c.(pc := SendingReset(outcome, cleaned)))
    ensures
      var sending, awaiting := c.(pc := SendingReset(outcome, cleaned)), c.(pc := AwaitingReset(outcome, cleaned));
      && Next(sending, ResetSent) == Some(awaiting)
      && Next(sending, ResetReturned(NoReply)) == Some(AfterReset(c, outcome, false))
      && Next(awaiting, ResetReturned(result)) == Some(AfterReset(c, outcome, cleaned && result.Acknowledged?))
  {
  }

  class Supervisor {
    ghost var trace: seq<Action>

    ghost predicate At(c: Control)
      reads this
    {
      Follow(trace) == Some(c)
    }

    constructor ()
      ensures trace == [] && At(START)
    {
      trace := [];
    }

    ghost method Do(a: Action, c: Control)
      requires At(c) && Next(c, a).Some?
      modifies this`trace
      ensures trace == old(trace) + [a] && At(Next(c, a).value)
    {
      FollowOne(trace, a);
      trace := trace + [a];
    }

    /** Bounded join of the run task, which is aborted when it does not end in time. */
    method JoinRun(join: Join, ghost c: Control)
      requires At(c) && c.pc.Joining?
      modifies this
      ensures At(c.(pc := CleaningUp(c.pc.next)))
      ensures trace == old(trace) + JoinTrace(join)
    {
      match join {
        case Joined(_) => Do(RunJoined, c);
        case TimedOut => Do(RunAborted, c);
      }
    }

    /** Drop the requests left in the channel, until a receive finds it empty. */
    method DrainRequests(stale: nat, ghost c: Control)
      requires At(c) && c.pc == Draining
      modifies this
      ensures At(c.(pc := Initializing))
      ensures trace == old(trace) + (DrainTrace(stale) + [Drained])
    {
      hide Follow, BackoffDelay, AfterReset;
      var received := 0;
      while received < stale
        invariant 0 <= received <= stale
        invariant At(c) && trace == old(trace) + DrainTrace(received)
      {
        Do(StaleDropped, c);
        received := received + 1;
      }
      Do(Drained, c);
    }

    /** The select of a running pipeline. */
    method WatchRun(wake: Wake, ghost c: Control) returns (outcome: Outcome)
      requires At(c) && c.pc == Running
      modifies this
      ensures outcome == WakeOutcome(wake)
      ensures trace == old(trace) + WatchTrace(wake)
      ensures At(c.(pc := CleaningUp(outcome)))
    {
      hide Next, Follow, BackoffDelay, AfterReset;
      RunningSteps(c);
      match wake {
        case Stops(ok) =>
          Do(RunStopped(ok), c);
          return Completed(ok);
        case Shutdown(join) =>
          Do(SawShutdown, c);
          Do(EndCalled, c.(pc := Ending));
          JoinRun(join, c.(pc := Joining(ShuttingDown)));
          return ShuttingDown;
        case RestartRequest(join) =>
          Do(RequestTaken, c);
          Do(QuitCalled, c.(pc := Quitting));
          JoinRun(join, c.(pc := Joining(Restart)));
          return Restart;
      }
    }

    /** `run_pipeline_until_stopped`. */
    method RunPipelineUntilStopped(env: Cycle, ghost c: Control) returns (outcome: Outcome)
      requires At(c) && c.pc == Draining
      modifies this
      ensures At(c.(pc := CleaningUp(outcome), clean := c.clean && !env.initOk))
      ensures outcome == PipelineOutcome(env)
      ensures trace == old(trace) + PipelineTrace(env)
    {
      hide Next, Follow, WatchTrace, BackoffDelay, AfterReset;
      StartingSteps(c);
      DrainRequests(env.stale, c);
      Do(InitStarted, c.(pc := Initializing));
      Do(InitDone(env.initOk), c.(pc := AwaitingInit));
      if !env.initOk {
        return Completed(false);
      }
      ghost var r := c.(clean := false);
      Do(RunSpawned, r.(pc := Spawning));
      outcome := WatchRun(env.wake, r.(pc := Running));
    }

    /** `cleanup`: clean the pipeline up, then try one bounded reset. A reset that cannot
        even be queued in time is cut off before it is sent. */
    method Cleanup(env: Cycle, outcome: Outcome, ghost c: Control)
      requires At(c) && c.pc == CleaningUp(outcome)
      modifies this
      ensures At(AfterReset(c, outcome, env.cleaned && env.resetSent && env.reset.Acknowledged?))
      ensures trace == old(trace) + CleanupTrace(env)
    {
      hide Next, Follow, BackoffDelay, AfterReset;
      CleaningSteps(c, outcome, env.cleaned, env.reset);
      Do(CleanedUp(env.cleaned), c);
      if env.resetSent {
        Do(ResetSent, c.(pc := SendingReset(outcome, env.cleaned)));
        Do(ResetReturned(env.reset), c.(pc := AwaitingReset(outcome, env.cleaned)));
      } else {
        Do(ResetReturned(NoReply), c.(pc := SendingReset(outcome, env.cleaned)));
      }
    }

    /** A run and the cleanup after it. */
    method RunAndCleanUp(env: Cycle, ghost c: Control) returns (outcome: Outcome, ghost d: Control)
      requires At(c) && c.pc == Draining
      modifies this
      ensures outcome == PipelineOutcome(env)
      ensures At(d) && exists clean :: d == AfterReset(c, outcome, clean)
      ensures trace == old(trace) + (PipelineTrace(env) + CleanupTrace(env))
    {
      hide Follow, Next, PipelineTrace, CleanupTrace, PipelineOutcome, CountAfter;
      outcome := RunPipelineUntilStopped(env, c);
      ghost var e := c.(pc := CleaningUp(outcome), clean := c.clean && !env.initOk);
      Cleanup(env, outcome, e);
      d := AfterReset(e, outcome, env.cleaned && env.resetSent && env.reset.Acknowledged?);
      assert d == AfterReset(c, outcome, d.clean);
    }

    /** One turn of the loop, from its top. */
    method Turn(env: Cycle, failures: u32, ghost c: Control) returns (running: bool, count: u32, ghost d: Control)
      requires At(c) && c.pc == Top && c.failures == failures
      modifies this
      ensures At(d) && d.pc == (if running then Top else Stopped)
      ensures running ==> d.failures == count
      ensures running == Continues(env) && (running ==> count == CountAfter(PipelineOutcome(env), failures))
      ensures trace == old(trace) + TurnTrace(env, failures)
    {
      hide Follow, PipelineTrace, CleanupTrace, BackoffDelay;
      if env.stop {
        Do(SawShutdown, c);
        return false, failures, c.(pc := Stopped);
      }
      Do(SawNoShutdown, c);
      var outcome;
      ghost var e;
      outcome, e := RunAndCleanUp(env, c.(pc := Draining));
      match outcome {
        case ShuttingDown => return false, failures, e;
        case Restart => count := 0;
        case Completed(ok) => count := if ok then 0 else SaturatingInc(failures);
      }
      running, count, d := SleepOrStop(env.stopAsleep, count, e);
    }

    /** The select of the backoff sleep. */
    method SleepOrStop(
        stop: bool, failures: u32, ghost c: Control) returns (running: bool, count: u32, ghost d: Control)
      requires At(c) && c.pc.Sleeping? && c.failures == failures
      modifies this
      ensures At(d) && running == !stop && d == c.(pc := if running then Top else Stopped) && count == failures
      ensures trace == old(trace) + if stop then [SawShutdown] else [Slept(BackoffDelay(failures))]
    {
      if stop {
        Do(SawShutdown, c);
        return false, failures, c.(pc := Stopped);
      }
      Do(Slept(BackoffDelay(failures)), c);
      return true, failures, c.(pc := Top);
    }

    /** The supervision loop, for as many turns as `script` foresees. It makes exactly the
        calls the script's outcomes call for, all of which the protocol allows, and it stops
        exactly where the protocol says it is stopped. */
    method Run(script: seq<Cycle>) returns (stopped: bool)
      requires At(START) && trace == []
      modifies this
      ensures trace == LoopTrace(script, |script|)
      ensures Follow(trace).Some? && Follow(trace).value.pc == if stopped then Stopped else Top
      ensures stopped <==> exists k :: 0 <= k < |script| && !Continues(script[k])
    {
      hide AfterReset, TurnTrace, Continues, Follow;
      var consecutiveFailures: u32 := 0;
      ghost var c := START;
      stopped := false;
      var k := 0;
      while k < |script| && !stopped
        invariant 0 <= k <= |script|
        invariant At(c) && c.pc == if stopped then Stopped else Top
        invariant !stopped ==> c.failures == consecutiveFailures == CountSoFar(script, k)
        invariant forall j :: 0 <= j < k - 1 ==> Continues(script[j])
        invariant k > 0 ==> stopped == !Continues(script[k - 1])
        invariant k == 0 ==> !stopped
        invariant trace == LoopTrace(script, k)
      {
        var running;
        running, consecutiveFailures, c := Turn(script[k], consecutiveFailures, c);
        stopped := !running;
        k := k + 1;
      }
      NothingAfterTheLastTurn(script, k);
    }
  }

  lemma {:induction false} DrainsStale(n: nat)
    ensures multiset(DrainTrace(n))[StaleDropped] == n
    ensures forall a :: a in DrainTrace(n) ==> a == StaleDropped
  {
    if n == 0 {
    } else {
      DrainsStale(n - 1);
    }
  }

  /** The run ends by being told to, through `end` or `quit`. */
  predicate ToldToStop(env: Cycle) {
    !env.stop && env.initOk && !env.wake.Stops?
  }

  /** The run task ends in time. */
  predicate EndsInTime(wake: Wake)
    requires !wake.Stops?
  {
    match wake
    case Shutdown(join) => join.Joined?
    case RestartRequest(join) => join.Joined?
  }

  /** The run was shut down, or the turn did not even start one, or its sleep was cut short. */
  predicate SeesShutdown(env: Cycle) {
    env.stop || (env.initOk && env.wake.Shutdown?) || env.stopAsleep
  }

  /** The calls one turn of the loop makes, one by one: it drains and starts a run unless
      told to stop before; it ends what it was told to end, the way it was told to, joining
      the run exactly if it ends in time and aborting it exactly if not; and whatever came of
      it, it cleans up once and attempts one reset; then it sleeps, unless it is to stop. */
  predicate Makes(env: Cycle, failures: u32, a: Action) {
    var up := !env.stop && env.initOk;
    match a
    case SawNoShutdown => !env.stop
    case SawShutdown => SeesShutdown(env)
    case StaleDropped => !env.stop && env.stale > 0
    case Drained => !env.stop
    case InitStarted => !env.stop
    case InitDone(ok) => !env.stop && ok == env.initOk
    case RunSpawned => up
    case RunStopped(ok) => up && env.wake == Stops(ok)
    case EndCalled => up && env.wake.Shutdown?
    case RequestTaken => up && env.wake.RestartRequest?
    case QuitCalled => up && env.wake.RestartRequest?
    case RunJoined => ToldToStop(env) && EndsInTime(env.wake)
    case RunAborted => ToldToStop(env) && !EndsInTime(env.wake)
    case CleanedUp(ok) => !env.stop && ok == env.cleaned
    case ResetSent => !env.stop && env.resetSent
    case ResetReturned(r) => !env.stop && r == if env.resetSent then env.reset else NoReply
    case Slept(seconds) =>
      !SeesShutdown(env) && seconds == BackoffDelay(CountAfter(PipelineOutcome(env), failures))
  }

  lemma WatchCalls(wake: Wake, a: Action)
    ensures a in WatchTrace(wake) <==>
            match a
            case RunStopped(ok) => wake == Stops(ok)
            case SawShutdown => wake.Shutdown?
            case EndCalled => wake.Shutdown?
            case RequestTaken => wake.RestartRequest?
            case QuitCalled => wake.RestartRequest?
            case RunJoined => !wake.Stops? && EndsInTime(wake)
            case RunAborted => !wake.Stops? && !EndsInTime(wake)
            case _ => false
  {
  }

  lemma CleanupCalls(env: Cycle, a: Action)
    ensures a in CleanupTrace(env) <==>
            match a
            case CleanedUp(ok) => ok == env.cleaned
            case ResetSent => env.resetSent
            case ResetReturned(r) => r == if env.resetSent then env.reset else NoReply
            case _ => false
  {
  }

  lemma PipelineCalls(env: Cycle, a: Action)
    ensures a in PipelineTrace(env) <==>
            || a == Drained || a == InitStarted || a == InitDone(env.initOk)
            || (a == StaleDropped && env.stale > 0)
            || (env.initOk && (a == RunSpawned || a in WatchTrace(env.wake)))
  {
    hide WatchTrace, DrainTrace;
    DrainsStale(env.stale);
    assert StaleDropped in DrainTrace(env.stale) <==> multiset(DrainTrace(env.stale))[StaleDropped] > 0;
  }

  /** A turn makes exactly these calls. */
  lemma TurnCalls(env: Cycle, failures: u32, a: Action)
    ensures a in TurnTrace(env, failures) <==> Makes(env, failures, a)
  {
    hide WatchTrace, CleanupTrace, PipelineTrace, DrainTrace, BackoffDelay, CountAfter;
    WatchCalls(env.wake, a);
    CleanupCalls(env, a);
    PipelineCalls(env, a);
  }

  /** Each `init` comes straight after a drain that found the channel empty. */
  lemma InitFollowsADrain(trace: seq<Action>, i: nat)
    requires Follow(trace).Some? && i < |trace| && trace[i] == InitStarted
    ensures i > 0 && trace[i - 1] == Drained
  {
    hide Next;
    StepOf(trace, i);
    OnlyDrainedInitializes();
    if i > 0 {
      StepOf(trace, i - 1);
    }
  }

  lemma OnlyDrainedInitializes()
    ensures !START.pc.Initializing?
    ensures forall c, a :: Next(c, a).Some? && a.InitStarted? ==> c.pc.Initializing?
    ensures forall c, a :: Next(c, a).Some? && Next(c, a).value.pc.Initializing? ==> a.Drained?
  {
    hide BackoffDelay;
  }

  /** Turns the loop never reaches add nothing. */
  lemma NothingAfterTheLastTurn(script: seq<Cycle>, n: nat)
    requires n <= |script|
    requires n < |script| ==> n > 0 && !Continues(script[n - 1])
    ensures LoopTrace(script, |script|) == LoopTrace(script, n)
    decreases |script| - n
  {
    hide TurnTrace, Continues;
    if n < |script| {
      NothingAfterLater(script, n, |script|);
    }
  }

  lemma {:induction false} NothingAfterLater(script: seq<Cycle>, n: nat, m: nat)
    requires 0 < n <= m <= |script| && !Continues(script[n - 1])
    ensures LoopTrace(script, m) == LoopTrace(script, n)
    decreases m - n
  {
    hide TurnTrace, Continues;
    if n == m {
    } else {
      NothingAfterLater(script, n, m - 1);
      assert 0 <= n - 1 < m - 1 && !Continues(script[n - 1]);
    }
  }

  /* ----- laws of the protocol ----- */

  /** How often each call occurs in a trace. */
  datatype Tally = Tally(inits: nat, spawns: nat, stopped: nat, ends: nat, quits: nat, joins: nat, cleanups: nat,
        resets: nat)

  function CountOne(n: Tally, a: Action): Tally {
    match a
    case InitStarted => n.(inits := n.inits + 1)
    case RunSpawned => n.(spawns := n.spawns + 1)
    case RunStopped(_) => n.(stopped := n.stopped + 1)
    case EndCalled => n.(ends := n.ends + 1)
    case QuitCalled => n.(quits := n.quits + 1)
    case RunJoined => n.(joins := n.joins + 1)
    case RunAborted => n.(joins := n.joins + 1)
    case CleanedUp(_) => n.(cleanups := n.cleanups + 1)
    case ResetReturned(_) => n.(resets := n.resets + 1)
    case _ => n
  }

  function Count(trace: seq<Action>): Tally {
    if trace == [] then Tally(0, 0, 0, 0, 0, 0, 0, 0)
    else CountOne(Count(trace[..|trace| - 1]), trace[|trace| - 1])
  }

  function One(b: bool): nat {
    if b then 1 else 0
  }

  predicate Live(pc: Pc) {
    pc.Running? || pc.Ending? || pc.Quitting? || pc.Joining?
  }

  /** How many calls of each kind there have been when the supervisor is at `pc`. */
  ghost predicate Balanced(pc: Pc, n: Tally) {
    && n.inits == n.cleanups + One(pc.AwaitingInit? || pc.Spawning? || Live(pc) || pc.CleaningUp?)
    && n.cleanups == n.resets + One(pc.SendingReset? || pc.AwaitingReset?)
    && n.spawns == n.stopped + n.ends + n.quits + One(pc.Running? || pc.Ending? || pc.Quitting?)
    && n.spawns == n.stopped + n.joins + One(Live(pc))
  }

  lemma BalancedInRun(c: Control, n: Tally, a: Action)
    requires Live(c.pc) && Balanced(c.pc, n) && Next(c, a).Some?
    ensures Balanced(Next(c, a).value.pc, CountOne(n, a))
  {
    hide BackoffDelay;
  }

  lemma BalancedBetweenRuns(c: Control, n: Tally, a: Action)
    requires !Live(c.pc) && Balanced(c.pc, n) && Next(c, a).Some?
    ensures Balanced(Next(c, a).value.pc, CountOne(n, a))
  {
    hide BackoffDelay;
  }

  lemma BalancedStep(c: Control, n: Tally, a: Action)
    requires Balanced(c.pc, n) && Next(c, a).Some?
    ensures Balanced(Next(c, a).value.pc, CountOne(n, a))
  {
    hide Next, Balanced, CountOne, Live;
    if Live(c.pc) {
      BalancedInRun(c, n, a);
    } else {
      BalancedBetweenRuns(c, n, a);
    }
  }

  /** In every run the calls come in cycles: each `init` is followed by exactly one
      `clean_up` and each `clean_up` by exactly one reset attempt before anything else
      starts; each spawned run ends by itself or by exactly one of `end` and `quit`, and in
      the latter case is joined or aborted before `clean_up`. (As this holds of every
      prefix of a run, the calls alternate.) */
  lemma {:induction false} CallsComeInCycles(trace: seq<Action>)
    requires Follow(trace).Some?
    ensures Balanced(Follow(trace).value.pc, Count(trace))
  {
    hide Next, CountOne, Balanced;
    if trace == [] {
      NothingIsBalanced();
    } else {
      var past := trace[..|trace| - 1];
      CallsComeInCycles(past);
      BalancedStep(Follow(past).value, Count(past), trace[|trace| - 1]);
    }
  }

  lemma NothingIsBalanced()
    ensures Balanced(START.pc, Count([]))
  {
  }

  /** On the way out: shutdown has been read. */
  predicate LeavingFor(pc: Pc) {
    match pc
    case Stopped => true
    case Ending => true
    case Joining(o) => o.ShuttingDown?
    case CleaningUp(o) => o.ShuttingDown?
    case SendingReset(o, _) => o.ShuttingDown?
    case AwaitingReset(o, _) => o.ShuttingDown?
    case _ => false
  }

  lemma LeavingIsFinal(c: Control, a: Action)
    requires Next(c, a).Some?
    ensures a == SawShutdown || LeavingFor(c.pc) ==> LeavingFor(Next(c, a).value.pc)
    ensures LeavingFor(c.pc) ==> a != InitStarted && a != RunSpawned
  {
  }

  lemma {:induction false} ShutdownSticks(trace: seq<Action>, i: nat, j: nat)
    requires Follow(trace).Some? && i < j <= |trace| && trace[i] == SawShutdown
    ensures Follow(trace[..j]).Some? && LeavingFor(Follow(trace[..j]).value.pc)
    decreases j
  {
    hide Next, LeavingFor;
    StepOf(trace, j - 1);
    LeavingIsFinal(Follow(trace[..j - 1]).value, trace[j - 1]);
    if i == j - 1 {
    } else {
      ShutdownSticks(trace, i, j - 1);
    }
  }

  lemma StepOf(trace: seq<Action>, j: nat)
    requires Follow(trace).Some? && j < |trace|
    ensures Follow(trace[..j]).Some? && Next(Follow(trace[..j]).value, trace[j]).Some?
    ensures Follow(trace[..j + 1]) == Next(Follow(trace[..j]).value, trace[j])
  {
    hide Next;
    FollowPrefix(trace, j);
    FollowPrefix(trace, j + 1);
    assert trace[..j + 1] == trace[..j] + [trace[j]];
    FollowOne(trace[..j], trace[j]);
  }

  /** Once a loop-top check or a select reads shutdown, no further `init` happens. */
  lemma NoInitAfterShutdown(trace: seq<Action>, i: nat, j: nat)
    requires Follow(trace).Some? && i < j < |trace| && trace[i] == SawShutdown
    ensures trace[j] != InitStarted && trace[j] != RunSpawned
  {
    hide Next, LeavingFor;
    ShutdownSticks(trace, i, j);
    StepOf(trace, j);
    LeavingIsFinal(Follow(trace[..j]).value, trace[j]);
  }

  /** Failed runs since the last clean end or watchdog restart, read off the trace. */
  function FailureScan(trace: seq<Action>): nat {
    if trace == [] then 0 else ScanOne(FailureScan(trace[..|trace| - 1]), trace[|trace| - 1])
  }

  function Saturated(n: nat): u32 {
    Min(n, U32_MAX as int) as u32
  }

  /** The counter agrees with the `failures` scanned, as far as an outcome has been counted. */
  ghost predicate Counted(c: Control, failures: nat) {
    var n := Saturated(failures);
    match c.pc
    case CleaningUp(o) => o.ShuttingDown? || CountAfter(o, c.failures) == n
    case SendingReset(o, _) => o.ShuttingDown? || CountAfter(o, c.failures) == n
    case AwaitingReset(o, _) => o.ShuttingDown? || CountAfter(o, c.failures) == n
    case Joining(o) => o.ShuttingDown? || (o.Restart? && n == 0)
    case Quitting => n == 0
    case Ending => true
    case Stopped => true
    case _ => c.failures == n
  }

  function ScanOne(past: nat, a: Action): nat {
    match a
    case InitDone(ok) => if ok then past else past + 1
    case RunStopped(ok) => if ok then 0 else past + 1
    case RequestTaken => 0
    case _ => past
  }

  lemma CountedStep(c: Control, failures: nat, a: Action)
    requires Counted(c, failures) && Next(c, a).Some?
    ensures Counted(Next(c, a).value, ScanOne(failures, a))
  {
    hide BackoffDelay;
  }

  /** The loop's counter is that scan, saturated, as soon as an outcome has been counted. */
  lemma {:induction false} CounterIsScan(trace: seq<Action>)
    requires Follow(trace).Some?
    ensures Counted(Follow(trace).value, FailureScan(trace))
  {
    hide Next, ScanOne;
    if trace == [] {
    } else {
      var past := trace[..|trace| - 1];
      CounterIsScan(past);
      CountedStep(Follow(past).value, FailureScan(past), trace[|trace| - 1]);
    }
  }

  /** Every delay is the backoff of the failures since the last clean end or restart. */
  lemma DelaysFollowFailures(trace: seq<Action>, seconds: nat)
    requires Follow(trace + [Slept(seconds)]).Some?
    ensures seconds == BackoffDelay(Saturated(FailureScan(trace)))
  {
    FollowOne(trace, Slept(seconds));
    CounterIsScan(trace);
  }

  /** The result of the latest `clean_up`, if there has been one. */
  function LastCleanup(trace: seq<Action>): Option<bool> {
    if trace == [] then None
    else match trace[|trace| - 1]
         case CleanedUp(ok) => Some(ok)
         case _ => LastCleanup(trace[..|trace| - 1])
  }

  /** The result of the latest reset attempt, if there has been one. */
  function LastReset(trace: seq<Action>): Option<ResetResult> {
    if trace == [] then None
    else match trace[|trace| - 1]
         case ResetReturned(result) => Some(result)
         case _ => LastReset(trace[..|trace| - 1])
  }

  /** A cleanup that came out so fully succeeded, or none has been needed yet. */
  predicate Succeeded(cleanup: Option<bool>, reset: Option<ResetResult>) {
    (cleanup == None || cleanup == Some(true)) && (reset == None || reset == Some(Acknowledged))
  }

  predicate BothSucceeded(trace: seq<Action>) {
    Succeeded(LastCleanup(trace), LastReset(trace))
  }

  lemma OneMoreInTrace(trace: seq<Action>, a: Action)
    ensures LastCleanup(trace + [a]) == if a.CleanedUp? then Some(a.ok) else LastCleanup(trace)
    ensures LastReset(trace + [a]) == if a.ResetReturned? then Some(a.result) else LastReset(trace)
  {
    assert (trace + [a])[..|trace|] == trace;
  }

  /** What the control state tells about the latest results. */
  ghost predicate Tells(c: Control, cleanup: Option<bool>, reset: Option<ResetResult>) {
    match c.pc
    case SendingReset(_, cleaned) => cleanup == Some(cleaned)
    case AwaitingReset(_, cleaned) => cleanup == Some(cleaned)
    case Sleeping(clean) => c.clean == clean == Succeeded(cleanup, reset)
    case Top => c.clean == Succeeded(cleanup, reset)
    case Draining => c.clean == Succeeded(cleanup, reset)
    case Initializing => c.clean == Succeeded(cleanup, reset)
    case AwaitingInit => c.clean == Succeeded(cleanup, reset)
    case _ => true
  }

  lemma TellsStep(c: Control, cleanup: Option<bool>, reset: Option<ResetResult>, a: Action)
    requires Tells(c, cleanup, reset) && Next(c, a).Some?
    ensures Tells(Next(c, a).value, if a.CleanedUp? then Some(a.ok) else cleanup,
                  if a.ResetReturned? then Some(a.result) else reset)
  {
    hide BackoffDelay;
  }

  /** At a loop top, asleep, and up to the end of `init`, the control state says "clean"
      exactly if the latest `clean_up` and the latest reset both succeeded. */
  lemma {:induction false} CleanMeansBothSucceeded(trace: seq<Action>)
    requires Follow(trace).Some?
    ensures Tells(Follow(trace).value, LastCleanup(trace), LastReset(trace))
  {
    hide Next;
    if trace == [] {
    } else {
      var past, a := trace[..|trace| - 1], trace[|trace| - 1];
      hide LastCleanup, LastReset, Tells;
      CleanMeansBothSucceeded(past);
      TellsStep(Follow(past).value, LastCleanup(past), LastReset(past), a);
      assert trace == past + [a];
      OneMoreInTrace(past, a);
    }
  }
}
