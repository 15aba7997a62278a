/** What a step tells the watchdog, and what the watchdog tells the supervisor, in terms of
    what became of the connections. */
module Vitals {
  import opened Prelude
  import opened Health
  import opened Signaling
  import opened Invariants
  import opened Lifecycle
  import opened Causality

  /** From `s` to `s'` the watchdog heard of nothing but failures, each stamped with the time
      it happened at; nothing takes time after the last. */
  ghost predicate OnlyFailures(s: State, s': State) {
    && s.clock <= s'.clock
    && s.health <= s'.health
    && (forall k :: |s.health| <= k < |s'.health| ==>
          !s'.health[k].Succeeded? && s.clock <= s'.health[k].at <= s'.clock)
    && (forall j, k :: |s.health| <= j < k < |s'.health| ==> s'.health[j].at <= s'.health[k].at)
    && (|s'.health| > |s.health| ==> s'.health[|s'.health| - 1].at == s'.clock)
  }

  lemma BlameNotes(cfg: Config, s: State, dropped: set<Ticket>)
    ensures OnlyFailures(s, Blame(cfg, s, dropped)) && |Blame(cfg, s, dropped).health| == |s.health| + 1
  {
    hide Burst;
  }

  lemma PeerGoneNotes(cfg: Config, s: State, dropped: set<Ticket>, id: Id, call: Call)
    ensures
      var s' := AfterPeerGone(cfg, s, dropped, id, call);
      OnlyFailures(s, s') && |s'.health| == |s.health| + 1
  {
    hide Blame, TeardownError;
    BlameNotes(cfg, Abandon(cfg, s, id, call), dropped);
  }

  lemma ExpiryNotes(cfg: Config, s: State, dropped: set<Ticket>, id: Id, call: Call)
    ensures
      var s' := AfterExpiry(cfg, s, dropped, id, call);
      && OnlyFailures(s, s')
      && |s'.health| == |s.health| + (if id in s.connections then 1 else 0)
      && (id !in s.connections ==> s' == s)
  {
    hide Blame, TeardownError;
    if id in s.connections {
      var c := s.connections[id];
      BlameNotes(cfg, Abandon(cfg, Fail(Take(s, id), dropped, c, c.ExpiryError()), id, call), dropped);
    }
  }

  lemma NotesAddUp(s: State, mid: State, s': State)
    requires OnlyFailures(s, mid) && OnlyFailures(mid, s') && (s' == mid || |s'.health| > |mid.health|)
    ensures OnlyFailures(s, s')
  {
    forall j, k | |s.health| <= j < k < |s'.health| ensures s'.health[j].at <= s'.health[k].at {
      if j < |mid.health| <= k {
        assert mid.health[j] == s'.health[j];
      } else if k < |mid.health| {
        assert mid.health[j] == s'.health[j] && mid.health[k] == s'.health[k];
      }
    }
    forall k | |s.health| <= k < |s'.health|
      ensures !s'.health[k].Succeeded? && s.clock <= s'.health[k].at <= s'.clock
    {
      if k < |mid.health| {
        assert mid.health[k] == s'.health[k];
      }
    }
  }

  lemma {:induction false} ExpireEachNotes(
      cfg: Config, s: State, dropped: set<Ticket>, ids: seq<Id>, teardowns: map<Id, Call>)
    ensures
      var s' := ExpireEach(cfg, s, dropped, ids, teardowns);
      OnlyFailures(s, s') && |s'.health| <= |s.health| + |ids|
  {
    hide AfterExpiry, OnlyFailures;
    if ids == [] {
      NothingNoted(s);
    } else {
      var n := |ids| - 1;
      var mid := ExpireEach(cfg, s, dropped, ids[..n], teardowns);
      ExpireEachNotes(cfg, s, dropped, ids[..n], teardowns);
      ExpiryNotes(cfg, mid, dropped, ids[n], TeardownOf(teardowns, ids[n]));
      NotesAddUp(s, mid, ExpireEach(cfg, s, dropped, ids, teardowns));
    }
  }

  lemma NothingNoted(s: State)
    ensures OnlyFailures(s, s)
  {
  }

  lemma NotedLater(s: State, s0: State, s': State)
    requires OnlyFailures(s0, s') && s0.health == s.health && s.clock <= s0.clock
    ensures OnlyFailures(s, s')
  {
  }

  /* ----- what a step reports ----- */

  /** A handshake is completed. */
  ghost predicate Establishes(s: State, s': State) {
    exists id :: Phase(Entry(s, id)) == 2 && Phase(Entry(s', id)) == 3
  }

  predicate IsReset(e: Event) {
    e.input.Handle? && e.input.command.Reset?
  }

  /** The delivery of an offer or answer to a live entry of that phase whose waiter has gone. */
  predicate LosesPeer(s: State, e: Event) {
    match e.input
    case Handle(OfferReceived(id, _, _), _) =>
      id in s.connections && s.connections[id].AwaitingOffer? && s.connections[id].whepReply in e.dropped
    case Handle(AnswerReceived(id, _, _), _) =>
      id in s.connections && s.connections[id].AwaitingAnswer? && s.connections[id].whipReply in e.dropped
    case _ => false
  }

  /** The watchdog hears of a success exactly when a handshake completes or a reset comes in,
      and then of nothing else; of one failure when a peer is lost; of one per overdue entry
      in a sweep, as far as it gets without a trip; and otherwise of nothing. Failures are
      stamped with the time they happen at. */
  ghost predicate Reported(cfg: Config, s: State, e: Event, s': State) {
    if Establishes(s, s') || IsReset(e) then s'.health == s.health + [Succeeded]
    else
      && OnlyFailures(s.(clock := s.clock + e.wait), s')
      && var heard := |s'.health| - |s.health|;
         if e.input.SweepTick? then
           var overdue := |Overdue(s, s.clock + e.wait)|;
           if Trips(s'.health) > Trips(s.health) then 1 <= heard <= overdue else heard == overdue
         else heard == if LosesPeer(s, e) then 1 else 0
  }

  lemma OfferReports(cfg: Config, s: State, dropped: set<Ticket>, id: Id, sdp: string, t: Ticket, call: Call)
    ensures
      var s' := Offered(cfg, s, dropped, id, sdp, t, call);
      && OnlyFailures(s, s')
      && |s'.health| == |s.health| + (if id in s.connections && s.connections[id].AwaitingOffer?
                                         && s.connections[id].whepReply in dropped then 1 else 0)
  {
    hide AfterPeerGone, OnlyFailures;
    NothingNoted(s);
    if id in s.connections && s.connections[id].AwaitingOffer? {
      var peer := s.connections[id].whepReply;
      var told := Send(Send(Take(s, id), dropped, peer, Offer(sdp)), dropped, t, Rejected(Gone(id)));
      PeerGoneNotes(cfg, told, dropped, id, call);
      NoteIgnores(s, told, AfterPeerGone(cfg, told, dropped, id, call));
      NoteIgnoresAfter(s, Offered(cfg, s, dropped, id, sdp, t, call));
    } else {
      NoteIgnoresAfter(s, Offered(cfg, s, dropped, id, sdp, t, call));
    }
  }

  lemma NoteIgnores(s: State, told: State, s': State)
    requires OnlyFailures(told, s') && told.health == s.health && told.clock == s.clock
    ensures OnlyFailures(s, s')
  {
  }

  lemma NoteIgnoresAfter(s: State, s': State)
    ensures s'.health == s.health && s'.clock == s.clock ==> OnlyFailures(s, s')
  {
  }

  lemma AnswerReports(cfg: Config, s: State, dropped: set<Ticket>, id: Id, sdp: string, t: Ticket, call: Call)
    ensures
      var s' := Answered(cfg, s, dropped, id, sdp, t, call);
      if id in s.connections && s.connections[id].AwaitingAnswer? then
        if s.connections[id].whipReply in dropped then OnlyFailures(s, s') && |s'.health| == |s.health| + 1
        else s'.health == s.health + [Succeeded]
      else s'.health == s.health && s'.clock == s.clock
  {
    hide AfterPeerGone, OnlyFailures;
    if id in s.connections && s.connections[id].AwaitingAnswer? && s.connections[id].whipReply in dropped {
      var peer := s.connections[id].whipReply;
      var told := Send(Send(Take(s, id), dropped, peer, Answer(sdp)), dropped, t, Rejected(Gone(id)));
      PeerGoneNotes(cfg, told, dropped, id, call);
      NoteIgnores(s, told, AfterPeerGone(cfg, told, dropped, id, call));
    }
  }

  lemma QuietReports(cfg: Config, s: State, e: Event)
    requires e.input.ReapBranch?
             || (e.input.Handle? && !e.input.command.OfferReceived? && !e.input.command.AnswerReceived?)
    ensures
      var s' := Step(cfg, s, e);
      if IsReset(e) then s'.health == s.health + [Succeeded]
      else s'.health == s.health && s.clock + e.wait <= s'.clock
  {
    hide AttachError, TeardownError, AttachTime, TeardownTime, Offered, Answered, ExpireEach;
  }

  /** Which entries a step can establish: the one its answer is delivered to. */
  lemma EstablishesExactly(cfg: Config, s: State, e: Event)
    requires Admissible(s, e)
    ensures Establishes(s, Step(cfg, s, e)) <==>
            && e.input.Handle? && e.input.command.AnswerReceived?
            && Phase(Entry(s, e.input.command.id)) == 2 && !LosesPeer(s, e)
  {
    hide Step, AttachError, TeardownError;
    StepIsPerViewer(cfg, s, e);
    if e.input.Handle? && e.input.command.AnswerReceived? && Phase(Entry(s, e.input.command.id)) == 2
       && !LosesPeer(s, e) {
      AnswersDoNotTrip(cfg, s, e);
      assert Phase(Entry(Step(cfg, s, e), e.input.command.id)) == 3;
    }
  }

  lemma AnswersDoNotTrip(cfg: Config, s: State, e: Event)
    requires e.input.Handle? && e.input.command.AnswerReceived?
    requires Phase(Entry(s, e.input.command.id)) == 2 && !LosesPeer(s, e)
    ensures !Tripping(cfg, s, e)
  {
    hide Offered, Answered, Trips, Failures;
    var AnswerReceived(id, sdp, t) := e.input.command;
    AnsweredShape(cfg, Submit(Awake(s, e.wait), t), e.dropped, id, sdp, t, e.input.call);
  }

  lemma StepReports(cfg: Config, s: State, e: Event)
    requires Admissible(s, e)
    ensures Reported(cfg, s, e, Step(cfg, s, e))
  {
    hide Step, OnlyFailures, Establishes;
    EstablishesExactly(cfg, s, e);
    match e.input
    case Handle(OfferReceived(_, _, _), _) => OfferStepReports(cfg, s, e);
    case Handle(AnswerReceived(_, _, _), _) => AnswerStepReports(cfg, s, e);
    case SweepTick(_, _) => SweepStepReports(cfg, s, e);
    case _ =>
      QuietReports(cfg, s, e);
      NoteIgnoresTime(s.(clock := s.clock + e.wait), Step(cfg, s, e));
  }

  lemma NoteIgnoresTime(s: State, s': State)
    ensures s'.health == s.health && s.clock <= s'.clock ==> OnlyFailures(s, s')
  {
  }

  lemma OfferStepReports(cfg: Config, s: State, e: Event)
    requires e.input.Handle? && e.input.command.OfferReceived?
    ensures
      var s' := Step(cfg, s, e);
      OnlyFailures(s.(clock := s.clock + e.wait), s') && |s'.health| == |s.health| + if LosesPeer(s, e) then 1 else 0
  {
    hide Offered, OnlyFailures;
    var OfferReceived(id, sdp, t) := e.input.command;
    var s1 := Submit(Awake(s, e.wait), t);
    OfferReports(cfg, s1, e.dropped, id, sdp, t, e.input.call);
    NoteIgnores(s.(clock := s.clock + e.wait), s1, Step(cfg, s, e));
  }

  lemma AnswerStepReports(cfg: Config, s: State, e: Event)
    requires e.input.Handle? && e.input.command.AnswerReceived?
    ensures
      var s' := Step(cfg, s, e);
      if Phase(Entry(s, e.input.command.id)) == 2 && !LosesPeer(s, e) then s'.health == s.health + [Succeeded]
      else
        && OnlyFailures(s.(clock := s.clock + e.wait), s')
        && |s'.health| == |s.health| + if LosesPeer(s, e) then 1 else 0
  {
    hide Answered, OnlyFailures;
    var AnswerReceived(id, sdp, t) := e.input.command;
    var s1 := Submit(Awake(s, e.wait), t);
    AnswerReports(cfg, s1, e.dropped, id, sdp, t, e.input.call);
    if LosesPeer(s, e) {
      NoteIgnores(s.(clock := s.clock + e.wait), s1, Step(cfg, s, e));
    } else {
      NoteIgnoresTime(s.(clock := s.clock + e.wait), Step(cfg, s, e));
    }
  }

  lemma {:induction false} ExpiredOfDistinct(connections: map<Id, Connection>, now: Instant, iteration: seq<Id>)
    requires forall i, j :: 0 <= i < j < |iteration| ==> iteration[i] != iteration[j]
    ensures
      var ids := ExpiredOf(connections, now, iteration);
      forall i, j :: 0 <= i < j < |ids| ==> ids[i] != ids[j]
  {
    if iteration == [] {
    } else {
      var n := |iteration| - 1;
      ExpiredOfDistinct(connections, now, iteration[..n]);
      ExpiredOfMembers(connections, now, iteration[..n]);
      assert iteration[n] !in iteration[..n];
    }
  }

  /** Without a trip every one of the ids fails its handshake. */
  lemma {:induction false} ExpireEachNotesAll(
      cfg: Config, s: State, dropped: set<Ticket>, ids: seq<Id>, teardowns: map<Id, Call>)
    requires forall i, j :: 0 <= i < j < |ids| ==> ids[i] != ids[j]
    requires forall i :: 0 <= i < |ids| ==> ids[i] in s.connections
    requires Trips(ExpireEach(cfg, s, dropped, ids, teardowns).health) == Trips(s.health)
    ensures |ExpireEach(cfg, s, dropped, ids, teardowns).health| == |s.health| + |ids|
  {
    hide AfterExpiry, Trips, Failures;
    if ids == [] {
    } else {
      var n := |ids| - 1;
      var mid := ExpireEach(cfg, s, dropped, ids[..n], teardowns);
      ExpireEachShape(cfg, s, dropped, ids[..n], teardowns);
      AfterExpiryShape(cfg, mid, dropped, ids[n], TeardownOf(teardowns, ids[n]));
      ExpireEachNotesAll(cfg, s, dropped, ids[..n], teardowns);
      assert ids[n] !in ids[..n];
      ExpiryNotes(cfg, mid, dropped, ids[n], TeardownOf(teardowns, ids[n]));
    }
  }

  lemma TripsNeedEvents(h: seq<HealthEvent>, h': seq<HealthEvent>)
    requires h <= h' && |h'| == |h|
    ensures Trips(h') == Trips(h)
  {
    assert h' == h;
  }

  lemma SweepStepReports(cfg: Config, s: State, e: Event)
    requires e.input.SweepTick? && Admissible(s, e)
    ensures OnlyFailures(s.(clock := s.clock + e.wait), Step(cfg, s, e))
    ensures
      var s', overdue := Step(cfg, s, e), |Overdue(s, s.clock + e.wait)|;
      && |s'.health| - |s.health| <= overdue
      && if Trips(s'.health) > Trips(s.health) then |s'.health| > |s.health| else |s'.health| - |s.health| == overdue
  {
    hide ExpireEach, Trips, Failures;
    var s0 := Awake(s, e.wait);
    var ids := ExpiredOf(s0.connections, s0.clock, e.input.iteration);
    ExpireEachNotes(cfg, s0, e.dropped, ids, e.input.teardowns);
    OverdueSize(s, s0.clock, e.input.iteration);
    ExpiredOfDistinct(s0.connections, s0.clock, e.input.iteration);
    ExpiredOfMembers(s0.connections, s0.clock, e.input.iteration);
    ExpireEachShape(cfg, s0, e.dropped, ids, e.input.teardowns);
    if Trips(Step(cfg, s, e).health) == Trips(s.health) {
      ExpireEachNotesAll(cfg, s0, e.dropped, ids, e.input.teardowns);
    } else if |Step(cfg, s, e).health| == |s.health| {
      TripsNeedEvents(s.health, Step(cfg, s, e).health);
    }
  }

  /** A completed handshake clears the watchdog. */
  lemma HandshakesClearTheWatchdog(cfg: Config, s: State, e: Event)
    requires Admissible(s, e) && (Establishes(s, Step(cfg, s, e)) || IsReset(e))
    ensures Burst(cfg.watchdogWindow, Step(cfg, s, e).health) == 0
  {
    hide Step, Establishes, OnlyFailures;
    StepReports(cfg, s, e);
  }

  /* ----- the history over runs ----- */

  /** What the watchdog has heard so far: in order of time, and of nothing in the future. */
  ghost predicate Timed(s: State) {
    && Monotone(s.health)
    && forall k :: 0 <= k < |s.health| && !s.health[k].Succeeded? ==> s.health[k].at <= s.clock
  }

  lemma StepKeepsTimed(cfg: Config, s: State, e: Event)
    requires Timed(s) && Admissible(s, e)
    ensures Timed(Step(cfg, s, e)) && s.health <= Step(cfg, s, e).health
  {
    hide Step, Establishes, Overdue, Trips;
    var s' := Step(cfg, s, e);
    StepReports(cfg, s, e);
    StallIsBounded(cfg, s, e);
    forall i, j | 0 <= i < j < |s'.health| && !s'.health[i].Succeeded? && !s'.health[j].Succeeded?
      ensures s'.health[i].at <= s'.health[j].at
    {
      assert i < |s.health| ==> s'.health[i] == s.health[i];
      assert j < |s.health| ==> s'.health[j] == s.health[j];
    }
  }

  lemma {:induction false} HistoryIsTimed(cfg: Config, events: seq<Event>, n: nat)
    requires Possible(cfg, INITIAL, events) && n <= |events|
    ensures Timed(At(cfg, INITIAL, events, n))
  {
    hide Step, Timed, Admissible;
    if n == 0 {
      NothingHeard();
    } else {
      HistoryIsTimed(cfg, events, n - 1);
      StepKeepsTimed(cfg, At(cfg, INITIAL, events, n - 1), events[n - 1]);
    }
  }

  lemma NothingHeard()
    ensures Timed(INITIAL)
  {
  }

  lemma {:induction false} HistoryGrows(cfg: Config, events: seq<Event>, m: nat, n: nat)
    requires Possible(cfg, INITIAL, events) && m <= n <= |events|
    ensures At(cfg, INITIAL, events, m).health <= At(cfg, INITIAL, events, n).health
    decreases n - m
  {
    hide Step, Timed, Admissible;
    if m == n {
    } else {
      HistoryGrows(cfg, events, m, n - 1);
      HistoryIsTimed(cfg, events, n - 1);
      StepKeepsTimed(cfg, At(cfg, INITIAL, events, n - 1), events[n - 1]);
    }
  }

  /** Turn `i` is the one that reported the `k`-th entry of the history. */
  ghost predicate ReportedAt(cfg: Config, events: seq<Event>, i: nat, k: nat)
    requires i < |events|
  {
    |At(cfg, INITIAL, events, i).health| <= k < |At(cfg, INITIAL, events, i + 1).health|
  }

  lemma OneTurn(cfg: Config, events: seq<Event>, i: nat)
    requires Possible(cfg, INITIAL, events) && i < |events|
    ensures Admissible(At(cfg, INITIAL, events, i), events[i])
    ensures At(cfg, INITIAL, events, i + 1) == Step(cfg, At(cfg, INITIAL, events, i), events[i])
  {
    hide Step, Admissible;
  }

  /** A turn that reports a success puts it into the history where it stands. */
  lemma SuccessStands(cfg: Config, events: seq<Event>, i: nat, n: nat)
    requires Possible(cfg, INITIAL, events) && i < n <= |events|
    requires Establishes(At(cfg, INITIAL, events, i), At(cfg, INITIAL, events, i + 1)) || IsReset(events[i])
    ensures
      var k, h := |At(cfg, INITIAL, events, i).health|, At(cfg, INITIAL, events, n).health;
      && k < |h| && h[k] == Succeeded
      && |At(cfg, INITIAL, events, i + 1).health| == k + 1
  {
    hide Step, At, Possible, Admissible, Establishes, OnlyFailures, Overdue, Trips;
    OneTurn(cfg, events, i);
    StepReports(cfg, At(cfg, INITIAL, events, i), events[i]);
    HistoryGrows(cfg, events, i + 1, n);
  }

  /** The failures behind a trip follow each other with no good news in between: from the turn
      that reported the first of them up to the turn that trips, no handshake completes and
      no reset comes in. */
  lemma NoGoodNewsBehindATrip(cfg: Config, events: seq<Event>, first: nat, i: nat, last: nat, k: nat)
    requires Possible(cfg, INITIAL, events) && first <= i <= last < |events|
    requires ReportedAt(cfg, events, last, k) && At(cfg, INITIAL, events, last + 1).health[k].Tripped?
    requires k + 1 >= Max(cfg.watchdogThreshold as nat, 1) ==>
               ReportedAt(cfg, events, first, k + 1 - Max(cfg.watchdogThreshold as nat, 1))
    ensures k + 1 >= Max(cfg.watchdogThreshold as nat, 1)
    ensures !Establishes(At(cfg, INITIAL, events, i), At(cfg, INITIAL, events, i + 1)) && !IsReset(events[i])
  {
    hide Step, At, Establishes, Possible;
    var h := At(cfg, INITIAL, events, last + 1).health;
    FailuresBehindATrip(cfg, events, last, k);
    if Establishes(At(cfg, INITIAL, events, i), At(cfg, INITIAL, events, i + 1)) || IsReset(events[i]) {
      SuccessStands(cfg, events, i, last + 1);
      HistoryGrows(cfg, events, i, last);
      if i > first {
        HistoryGrows(cfg, events, first + 1, i);
      }
    }
  }

  lemma {:induction false} HonestPrefix(threshold: nat, window: nat, h: seq<HealthEvent>, k: nat)
    requires Honest(threshold, window, h) && k <= |h|
    ensures Honest(threshold, window, h[..k])
    decreases |h| - k
  {
    if k == |h| {
      assert h[..k] == h;
    } else {
      HonestPrefix(threshold, window, h, k + 1);
      assert h[..k + 1][..k] == h[..k];
    }
  }

  /** The entry `h[k]` closes `many` failures on end, within `span`. */
  ghost predicate ClosesBurst(h: seq<HealthEvent>, k: int, many: int, span: int) {
    && 1 <= many <= k + 1 <= |h|
    && (forall i :: k + 1 - many <= i < k ==> h[i].Failed?)
    && !h[k].Succeeded? && !h[k + 1 - many].Succeeded?
    && h[k].at <= h[k + 1 - many].at + span
  }

  lemma TripClosesBurst(threshold: nat, window: nat, h: seq<HealthEvent>, k: nat)
    requires Honest(threshold, window, h) && Monotone(h) && k < |h| && h[k].Tripped?
    ensures ClosesBurst(h, k, Max(threshold, 1), (Max(threshold, 1) - 1) * window)
  {
    hide Honest, Burst;
    var past, many := h[..k + 1], Max(threshold, 1);
    HonestPrefix(threshold, window, h, k + 1);
    assert Monotone(past);
    TripSpan(threshold, window, past);
    assert past[k + 1 - many] == h[k + 1 - many] && past[k] == h[k];
    forall i | k + 1 - many <= i < k ensures h[i].Failed? {
      assert past[i] == h[i];
    }
  }

  /** Behind every trip of a run there are `max(threshold, 1)` failures on end, that one
      included, and they happened within `max(threshold, 1) - 1` windows. */
  lemma FailuresBehindATrip(cfg: Config, events: seq<Event>, last: nat, k: nat)
    requires Possible(cfg, INITIAL, events) && last < |events|
    requires ReportedAt(cfg, events, last, k) && At(cfg, INITIAL, events, last + 1).health[k].Tripped?
    ensures
      var many := Max(cfg.watchdogThreshold as nat, 1);
      ClosesBurst(At(cfg, INITIAL, events, last + 1).health, k, many, (many - 1) * cfg.watchdogWindow)
  {
    hide Step, At, Possible, Honest, Monotone, ClosesBurst;
    EveryRunKeepsInv(cfg, events, last + 1);
    HistoryIsTimed(cfg, events, last + 1);
    TripClosesBurst(cfg.watchdogThreshold as nat, cfg.watchdogWindow, At(cfg, INITIAL, events, last + 1).health, k);
  }

  /* ----- the restart channel ----- */

  /** A trip leaves its request in the channel if the supervisor still listens, or finds one
      waiting there; only then, or if nobody listens, is it refused. Nothing else touches it. */
  lemma TripsQueueTheirRequest(cfg: Config, s: State, e: Event)
    requires Admissible(s, e)
    ensures
      var s', trips := Step(cfg, s, e), Tripping(cfg, s, e);
      && s'.restart.open == s.restart.open
      && (s'.restart.pending <==> s.restart.pending || (trips && s.restart.open))
      && s'.restart.refused == s.restart.refused + if trips && (s.restart.pending || !s.restart.open) then 1 else 0
  {
    hide Step, Trips, Failures, Overdue;
    StepCauses(cfg, s, e);
  }
}
