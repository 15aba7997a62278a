/** What failures, restarts and time cost: the sweep, the causes of a restart request,
    the bounded stall, and the branches left behind. */
module Causality {
  import opened Prelude
  import opened Health
  import opened Signaling
  import opened Linearity
  import opened Invariants
  import opened Lifecycle

  /** The connections whose deadline has passed at `now`. */
  function Overdue(s: State, now: Instant): set<Id> {
    set id | id in s.connections && !s.connections[id].Established? && s.connections[id].deadline <= now
  }

  function OverdueAmong(connections: map<Id, Connection>, now: Instant, iteration: seq<Id>): set<Id> {
    set id | id in iteration && id in connections && connections[id].ExpiredAt(now)
  }

  /** There is always an order to walk the map in, so a sweep can always happen. */
  lemma {:induction false} SweepsCanHappen(keys: set<Id>)
    ensures exists order :: Iterates(order, keys)
    decreases |keys|
  {
    if keys == {} {
      assert Iterates([], keys);
    } else {
      var id :| id in keys;
      SweepsCanHappen(keys - {id});
      var rest :| Iterates(rest, keys - {id});
      assert Iterates(rest + [id], keys);
    }
  }

  lemma OneMoreOverdue(connections: map<Id, Connection>, now: Instant, iteration: seq<Id>, id: Id)
    ensures OverdueAmong(connections, now, iteration + [id]) ==
            OverdueAmong(connections, now, iteration) +
            if id in connections && connections[id].ExpiredAt(now) then {id} else {}
  {
  }

  lemma {:induction false} ExpiredOfSize(connections: map<Id, Connection>, now: Instant, iteration: seq<Id>)
    requires forall i, j :: 0 <= i < j < |iteration| ==> iteration[i] != iteration[j]
    ensures |ExpiredOf(connections, now, iteration)| == |OverdueAmong(connections, now, iteration)|
  {
    hide OverdueAmong;
    if iteration == [] {
      NobodyAmongNone(connections, now);
    } else {
      var n := |iteration| - 1;
      var past, id := iteration[..n], iteration[n];
      ExpiredOfSize(connections, now, past);
      assert iteration == past + [id];
      OneMoreOverdue(connections, now, past, id);
      assert id !in past;
      OnlyAmong(connections, now, past, id);
    }
  }

  lemma NobodyAmongNone(connections: map<Id, Connection>, now: Instant)
    ensures OverdueAmong(connections, now, []) == {}
  {
  }

  lemma OnlyAmong(connections: map<Id, Connection>, now: Instant, iteration: seq<Id>, id: Id)
    requires id !in iteration
    ensures id !in OverdueAmong(connections, now, iteration)
  {
  }

  /** A sweep terminates exactly the overdue ids, each once, in any iteration order. */
  lemma OverdueSize(s: State, now: Instant, iteration: seq<Id>)
    requires Iterates(iteration, s.connections.Keys)
    ensures |ExpiredOf(s.connections, now, iteration)| == |Overdue(s, now)|
  {
    ExpiredOfSize(s.connections, now, iteration);
    assert Overdue(s, now) == OverdueAmong(s.connections, now, iteration);
  }

  /* ----- causes of a restart ----- */

  /** Handshakes an event can fail: overdue live entries for a sweep, one for a delivery
      whose parked peer is gone, none for anything else. */
  function Blamable(s: State, e: Event): nat {
    match e.input
    case Handle(OfferReceived(id, _, _), _) =>
      if id in s.connections && s.connections[id].AwaitingOffer? && s.connections[id].whepReply in e.dropped then 1
        else 0
    case Handle(AnswerReceived(id, _, _), _) =>
      if id in s.connections && s.connections[id].AwaitingAnswer? && s.connections[id].whipReply in e.dropped then 1
        else 0
    case SweepTick(_, _) => |Overdue(s, s.clock + e.wait)|
    case _ => 0
  }

  /** One step trips at most once, only when it failed a handshake, and sends exactly one
      restart request when it does. Deletes, reaps, resets, lists, creates and rejected
      commands therefore never cause one. */
  lemma StepCauses(cfg: Config, s: State, e: Event)
    requires Admissible(s, e)
    ensures
      var s' := Step(cfg, s, e);
      && Failures(s'.health) <= Failures(s.health) + Blamable(s, e)
      && Trips(s'.health) == Trips(s.health) + (if Tripping(cfg, s, e) then 1 else 0)
      && s'.restart == (if Tripping(cfg, s, e) then TrySend(s.restart) else s.restart)
      && (Tripping(cfg, s, e) ==> Blamable(s, e) > 0)
  {
    hide Created, Offered, Answered, ExpireEach, AfterReap, AfterDelete, ResetAll, Trips, Failures, Burst;
    var s0 := Awake(s, e.wait);
    match e.input
    case Handle(OfferReceived(id, sdp, t), call) => OfferedShape(cfg, Submit(s0, t), e.dropped, id, sdp, t, call);
    case Handle(AnswerReceived(id, sdp, t), call) => AnsweredShape(cfg, Submit(s0, t), e.dropped, id, sdp, t, call);
    case SweepTick(iteration, teardowns) =>
      var ids := ExpiredOf(s0.connections, s0.clock, iteration);
      ExpireEachShape(cfg, s0, e.dropped, ids, teardowns);
      OverdueSize(s, s0.clock, iteration);
      assert ids == [] ==> ExpireEach(cfg, s0, e.dropped, ids, teardowns) == s0 by {
        ExpireNothing(cfg, s0, e.dropped, teardowns);
      }
    case _ => QuietSteps(cfg, s, e);
  }

  lemma ExpireNothing(cfg: Config, s: State, dropped: set<Ticket>, teardowns: map<Id, Call>)
    ensures ExpireEach(cfg, s, dropped, [], teardowns) == s
  {
  }

  lemma QuietSteps(cfg: Config, s: State, e: Event)
    requires e.input.ReapBranch?
             || (e.input.Handle? && !e.input.command.OfferReceived? && !e.input.command.AnswerReceived?)
    ensures
      var s' := Step(cfg, s, e);
      !Tripping(cfg, s, e) && Trips(s'.health) == Trips(s.health) && Failures(s'.health) == Failures(s.health)
        && s'.restart == s.restart
  {
    hide Offered, Answered, ExpireEach, Created, AfterDelete, AfterReap;
    Appended(s.health, Succeeded);
    var s0 := Awake(s, e.wait);
    match e.input
    case Handle(CreateConnection(id, t), call) => CreatedShape(cfg, Submit(s0, t), e.dropped, id, t, call);
    case Handle(RemoveConnection(id, t), call) => GoneShape(cfg, Submit(s0, t), e.dropped, id, call);
    case ReapBranch(id, call) => GoneShape(cfg, s0, e.dropped, id, call);
    case _ =>
  }

  /** Handshakes failed over the first `n` turns of a run. */
  function BlamableSoFar(cfg: Config, start: State, events: seq<Event>, n: nat): nat
    requires n <= |events|
  {
    if n == 0 then 0
    else BlamableSoFar(cfg, start, events, n - 1) + Blamable(At(cfg, start, events, n - 1), events[n - 1])
  }

  /** Restart requests sent, whether taken by the supervisor, pending or refused. */
  function Requested(ch: RestartChannel): nat {
    ch.refused + if ch.pending then 1 else 0
  }

  /** Restart causality over every run: each request costs `max(threshold, 1)` expiries of
      live entries or vanished peers, so nothing else can ever force one. */
  lemma {:induction false} RestartsAreEarned(cfg: Config, events: seq<Event>, n: nat)
    requires Possible(cfg, INITIAL, events) && n <= |events|
    ensures
      var s := At(cfg, INITIAL, events, n);
      && Requested(s.restart) == Trips(s.health)
      && Max(cfg.watchdogThreshold as nat, 1) * Requested(s.restart) <= BlamableSoFar(cfg, INITIAL, events, n)
  {
    FailuresAreBlamed(cfg, events, n);
    EveryRunKeepsInv(cfg, events, n);
    TripsArePaidFor(cfg.watchdogThreshold as nat, cfg.watchdogWindow, At(cfg, INITIAL, events, n).health);
  }

  lemma NothingBlamedYet()
    ensures Failures(INITIAL.health) == 0 && Trips(INITIAL.health) == 0
  {
  }

  lemma {:induction false} FailuresAreBlamed(cfg: Config, events: seq<Event>, n: nat)
    requires Possible(cfg, INITIAL, events) && n <= |events|
    ensures
      var s := At(cfg, INITIAL, events, n);
      Failures(s.health) <= BlamableSoFar(cfg, INITIAL, events, n) && Requested(s.restart) == Trips(s.health)
  {
    hide Step, Blamable, Trips, Failures, Admissible;
    if n == 0 {
      NothingBlamedYet();
    } else {
      FailuresAreBlamed(cfg, events, n - 1);
      StepCauses(cfg, At(cfg, INITIAL, events, n - 1), events[n - 1]);
    }
  }

  /* ----- the stall bound ----- */

  lemma ExpireEachTakes(cfg: Config, s: State, dropped: set<Ticket>, ids: seq<Id>, teardowns: map<Id, Call>)
    ensures
      s.clock <= ExpireEach(cfg, s, dropped, ids, teardowns).clock <= s.clock + |ids| * cfg.teardownTimeout
  {
    hide AfterExpiry;
    if ids == [] {
    } else {
      var n := |ids| - 1;
      var mid := ExpireEach(cfg, s, dropped, ids[..n], teardowns);
      ExpireEachTakes(cfg, s, dropped, ids[..n], teardowns);
      AfterExpiryShape(cfg, mid, dropped, ids[n], TeardownOf(teardowns, ids[n]));
      assert |ids| * cfg.teardownTimeout == n * cfg.teardownTimeout + cfg.teardownTimeout;
    }
  }

  lemma PeerGoneTakes(cfg: Config, s: State, dropped: set<Ticket>, id: Id, call: Call)
    ensures s.clock <= AfterPeerGone(cfg, s, dropped, id, call).clock <= s.clock + cfg.teardownTimeout
  {
    hide Blame, Trips, Failures;
    BlameShape(cfg, Abandon(cfg, s, id, call), dropped);
  }

  lemma HandledTakes(cfg: Config, s: State, dropped: set<Ticket>, command: Command, call: Call)
    ensures
      s.clock <= Handled(cfg, s, dropped, command, call).clock
      <= s.clock + cfg.teardownTimeout + if command.CreateConnection? then call.attach else 0
  {
    hide AfterPeerGone;
    forall b: State, id | b.clock == s.clock
      ensures s.clock <= AfterPeerGone(cfg, b, dropped, id, call).clock <= s.clock + cfg.teardownTimeout
    {
      PeerGoneTakes(cfg, b, dropped, id, call);
    }
  }

  /** What a step does without ever waiting: the attach of a create. No timeout cuts it. */
  function UncutTime(e: Event): nat {
    if e.input.Handle? && e.input.command.CreateConnection? then e.input.call.attach else 0
  }

  /** However the pipeline behaves, a command or a reap holds the actor for at most one
      teardown timeout, a create for the time of its synchronous attach besides, and a
      sweep for one timeout per overdue connection. */
  lemma StallIsBounded(cfg: Config, s: State, e: Event)
    requires Admissible(s, e)
    ensures
      var now, s' := s.clock + e.wait, Step(cfg, s, e);
      now <= s'.clock <= now + (if e.input.SweepTick? then |Overdue(s, now)| else 1) * cfg.teardownTimeout +
        UncutTime(e)
  {
    if e.input.SweepTick? {
      hide ExpireEach;
      var s0 := Awake(s, e.wait);
      OverdueSize(s, s0.clock, e.input.iteration);
      ExpireEachTakes(cfg, s0, e.dropped, ExpiredOf(s0.connections, s0.clock, e.input.iteration), e.input.teardowns);
    } else if e.input.Handle? {
      hide ExpireEach, Handled;
      HandledTakes(cfg, Submit(Awake(s, e.wait), e.input.command.reply), e.dropped, e.input.command, e.input.call);
    } else {
      hide ExpireEach, Handled;
    }
  }

  /* ----- the sweep ----- */

  /** The timeout a waiter is owed names the leg it was waiting for. */
  function LegTimeout(c: Connection): SignalError {
    Timeout(if c.AwaitingOffer? then "SDP offer" else "SDP answer")
  }

  /** What became of the waiter `t` parked on `id`: still parked, timed out on its own leg
      because `id` was terminated, or failed by a trip. */
  ghost predicate SweptFate(s: State, s': State, dropped: set<Ticket>, id: Id, terminated: bool)
    requires id in s.connections && s.connections[id].Waiter().Some?
  {
    var c, t := s.connections[id], s.connections[id].Waiter().value;
    || Entry(s', id) == Some(c)
    || (terminated && Log(s', t) == [Fate(dropped, t, Rejected(LegTimeout(c)))])
    || (Trips(s'.health) > Trips(s.health) && Log(s', t) == [Fate(dropped, t, Rejected(Unavailable))])
  }

  lemma BlameFate(cfg: Config, s: State, dropped: set<Ticket>, t: Ticket)
    ensures
      var b := Blame(cfg, s, dropped);
      || Log(b, t) == Log(s, t)
      || (Trips(b.health) > Trips(s.health) && t in s.replies && Waiting(s.connections, t)
          && Log(b, t) == Log(s, t) + [Fate(dropped, t, Rejected(Unavailable))])
    ensures
      var b := Blame(cfg, s, dropped);
      Trips(b.health) > Trips(s.health) && t in s.replies && Waiting(s.connections, t) ==>
        Log(b, t) == Log(s, t) + [Fate(dropped, t, Rejected(Unavailable))]
  {
    Appended(s.health, FailureEvent(cfg, s));
  }

  /** An expiry up to the point where the watchdog is fed. */
  function Expelled(cfg: Config, s: State, dropped: set<Ticket>, x: Id, call: Call): State
    requires x in s.connections
  {
    Abandon(cfg, Fail(Take(s, x), dropped, s.connections[x], s.connections[x].ExpiryError()), x, call)
  }

  lemma ExpelledShape(cfg: Config, s: State, dropped: set<Ticket>, x: Id, call: Call)
    requires x in s.connections
    ensures
      var torn := Expelled(cfg, s, dropped, x, call);
      torn.connections == s.connections - {x} && torn.health == s.health
  {
  }

  lemma AfterExpiryBlames(cfg: Config, s: State, dropped: set<Ticket>, x: Id, call: Call)
    requires x in s.connections
    ensures AfterExpiry(cfg, s, dropped, x, call) == Blame(cfg, Expelled(cfg, s, dropped, x, call), dropped)
  {
    hide Blame;
  }

  /** Its own waiter gets its own leg's timeout; every other is parked as before. */
  lemma ExpelledFate(cfg: Config, s: State, dropped: set<Ticket>, x: Id, call: Call, id: Id)
    requires Linear(s) && x in s.connections && id in s.connections && s.connections[id].Waiter().Some?
    ensures
      var c, t, torn := s.connections[id], s.connections[id].Waiter().value, Expelled(cfg, s, dropped, x, call);
      && t in torn.replies
      && Log(torn, t) == (if id == x then [Fate(dropped, t, Rejected(LegTimeout(c)))] else [])
      && Waiting(torn.connections, t) == (id != x)
  {
    var c, t := s.connections[id], s.connections[id].Waiter().value;
    var torn := Expelled(cfg, s, dropped, x, call);
    FailAccounts(s, {}, dropped, x, s.connections[x].ExpiryError());
    if id != x {
      assert id in torn.connections && torn.connections[id] == c;
    }
  }

  lemma AfterExpiryFate(cfg: Config, s: State, dropped: set<Ticket>, x: Id, call: Call, id: Id)
    requires Linear(s) && id in s.connections && s.connections[id].Waiter().Some?
    ensures SweptFate(s, AfterExpiry(cfg, s, dropped, x, call), dropped, id, id == x)
  {
    hide Blame, Expelled, Abandon, Fail, Take, LegTimeout, Linear, Waiting;
    if x in s.connections {
      var torn := Expelled(cfg, s, dropped, x, call);
      AfterExpiryBlames(cfg, s, dropped, x, call);
      ExpelledShape(cfg, s, dropped, x, call);
      ExpelledFate(cfg, s, dropped, x, call, id);
      BlameShape(cfg, torn, dropped);
      BlameFate(cfg, torn, dropped, s.connections[id].Waiter().value);
    }
  }

  /** A sender that is not parked is not touched. */
  lemma AfterExpirySpares(cfg: Config, s: State, dropped: set<Ticket>, x: Id, call: Call, t: Ticket)
    requires Linear(s) && !Waiting(s.connections, t)
    ensures Log(AfterExpiry(cfg, s, dropped, x, call), t) == Log(s, t)
  {
    if x in s.connections {
      hide Blame;
      var c := s.connections[x];
      var torn := Expelled(cfg, s, dropped, x, call);
      assert c.Waiter() != Some(t);
      assert !Waiting(torn.connections, t);
      BlameFate(cfg, torn, dropped, t);
    }
  }

  lemma ExpireEachFate(cfg: Config, s: State, dropped: set<Ticket>, ids: seq<Id>, teardowns: map<Id, Call>, id: Id)
    requires Linear(s) && id in s.connections && s.connections[id].Waiter().Some?
    ensures SweptFate(s, ExpireEach(cfg, s, dropped, ids, teardowns), dropped, id, id in ids)
  {
    hide AfterExpiry;
    if ids == [] {
    } else {
      var n := |ids| - 1;
      var x, call := ids[n], TeardownOf(teardowns, ids[n]);
      var mid := ExpireEach(cfg, s, dropped, ids[..n], teardowns);
      assert ids == ids[..n] + [x];
      ExpireEachFate(cfg, s, dropped, ids[..n], teardowns, id);
      ExpireEachAccounts(cfg, s, dropped, ids[..n], teardowns);
      ExpireEachShape(cfg, s, dropped, ids[..n], teardowns);
      AfterExpiryShape(cfg, mid, dropped, x, call);
      if Entry(mid, id) == Some(s.connections[id]) {
        AfterExpiryFate(cfg, mid, dropped, x, call, id);
      } else {
        AfterExpirySpares(cfg, mid, dropped, x, call, s.connections[id].Waiter().value);
      }
    }
  }

  /** The entries and the restart channel after a sweep. */
  lemma SweptMap(cfg: Config, s: State, e: Event)
    requires Admissible(s, e) && e.input.SweepTick?
    ensures
      var now, s' := s.clock + e.wait, Step(cfg, s, e);
      && Overdue(s', now) == {}
      && s'.connections == (if Tripping(cfg, s, e) then map[] else s.connections - Overdue(s, now))
      && s'.restart == (if Tripping(cfg, s, e) then TrySend(s.restart) else s.restart)
  {
    hide Step, Trips, Failures, NextEntry;
    SweepIsPerViewer(cfg, s, e);
    var now := s.clock + e.wait;
    assert (set id | id in s.connections && s.connections[id].ExpiredAt(now)) == Overdue(s, now);
  }

  /** The waiters after a sweep. */
  lemma SweptWaiter(cfg: Config, s: State, e: Event, id: Id)
    requires Linear(s) && Admissible(s, e) && e.input.SweepTick?
    requires id in s.connections && s.connections[id].Waiter().Some?
    ensures SweptFate(s, Step(cfg, s, e), e.dropped, id, id in Overdue(s, s.clock + e.wait))
  {
    hide ExpireEach, SweptFate, Linear;
    var s0 := Awake(s, e.wait);
    var ids := ExpiredOf(s0.connections, s0.clock, e.input.iteration);
    ExpiredOfMembers(s0.connections, s0.clock, e.input.iteration);
    AwakeIsLinear(s, e.wait);
    ExpireEachFate(cfg, s0, e.dropped, ids, e.input.teardowns, id);
    assert id in ids <==> id in Overdue(s, s0.clock);
    WaitingChangesNoFate(s, e.wait, Step(cfg, s, e), e.dropped, id, id in ids);
  }

  lemma AwakeIsLinear(s: State, wait: nat)
    requires Linear(s)
    ensures Linear(Awake(s, wait))
  {
  }

  lemma WaitingChangesNoFate(s: State, wait: nat, s': State, dropped: set<Ticket>, id: Id, terminated: bool)
    requires id in s.connections && s.connections[id].Waiter().Some?
    requires SweptFate(Awake(s, wait), s', dropped, id, terminated)
    ensures SweptFate(s, s', dropped, id, terminated)
  {
    hide Trips;
  }

  /** Sweep correctness, whatever the iteration order and the teardowns: nothing overdue
      at its start remains; without a trip exactly the overdue entries are gone and with
      one the map is empty; every waiter still parked is untouched, and every other was
      consumed once, by its own leg's timeout if its entry was overdue, or by `Unavailable`
      if the watchdog tripped; and at most one restart is requested. */
  lemma SweepIsCorrect(cfg: Config, s: State, e: Event)
    requires Linear(s) && Admissible(s, e) && e.input.SweepTick?
    ensures
      var now, s' := s.clock + e.wait, Step(cfg, s, e);
      && Overdue(s', now) == {}
      && s'.connections == (if Tripping(cfg, s, e) then map[] else s.connections - Overdue(s, now))
      && s'.restart == (if Tripping(cfg, s, e) then TrySend(s.restart) else s.restart)
      && forall id :: id in s.connections && s.connections[id].Waiter().Some? ==>
                        SweptFate(s, s', e.dropped, id, id in Overdue(s, now))
  {
    hide Step, Trips, Tripping, SweptFate, Linear, Admissible;
    SweptMap(cfg, s, e);
    forall id | id in s.connections && s.connections[id].Waiter().Some?
      ensures SweptFate(s, Step(cfg, s, e), e.dropped, id, id in Overdue(s, s.clock + e.wait))
    {
      SweptWaiter(cfg, s, e, id);
    }
  }
}
