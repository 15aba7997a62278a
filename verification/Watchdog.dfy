/** The windowed failure counter (src/signal/watchdog.rs): a counter and one
    timestamp that refine a scan of the whole event history. */
module Health {
  import opened Prelude

  /** What the watchdog has been told, oldest first. A failure that trips is logged
      as `Tripped`. */
  datatype HealthEvent = Failed(at: nat) | Tripped(at: nat) | Succeeded

  /** `Instant::duration_since`, which saturates at zero. */
  function Since(later: nat, earlier: nat): nat {
    if earlier <= later then later - earlier else 0
  }

  /** Length of the burst a history ends in: failures each at most `window` after
      the previous one, uninterrupted by a success or a trip. */
  function Burst(window: nat, h: seq<HealthEvent>): nat {
    var n := |h|;
    if n == 0 || !h[n - 1].Failed? then 0
    else if n == 1 || !h[n - 2].Failed? || Since(h[n - 1].at, h[n - 2].at) > window then 1
    else 1 + Burst(window, h[..n - 1])
  }

  /** The last `k` events are failures with adjacent gaps of at most `window`. */
  ghost predicate EndsInBurst(window: nat, h: seq<HealthEvent>, k: nat) {
    && k <= |h|
    && (forall i :: |h| - k <= i < |h| ==> h[i].Failed?)
    && (forall i, j :: |h| - k <= i < |h| && j == i + 1 < |h| ==> Since(h[j].at, h[i].at) <= window)
  }

  /** A burst that goes on is one longer than it was. */
  lemma BurstGoesOn(window: nat, h: seq<HealthEvent>, k: nat)
    requires |h| > 1 && k > 1 && h[|h| - 1].Failed? && h[|h| - 2].Failed?
    requires Since(h[|h| - 1].at, h[|h| - 2].at) <= window
    ensures EndsInBurst(window, h, k) <==> EndsInBurst(window, h[..|h| - 1], k - 1)
  {
    var n, past := |h|, h[..|h| - 1];
    if EndsInBurst(window, past, k - 1) {
      forall i | n - k <= i < n ensures h[i].Failed? {
        assert i < n - 1 ==> past[i] == h[i];
      }
      forall i, j | n - k <= i < n && j == i + 1 < n ensures Since(h[j].at, h[i].at) <= window {
        assert j < n - 1 ==> past[i] == h[i] && past[j] == h[j];
      }
    }
  }

  lemma LastTwo(window: nat, h: seq<HealthEvent>, k: nat)
    requires k > 1 && EndsInBurst(window, h, k)
    ensures h[|h| - 1].Failed? && h[|h| - 2].Failed? && Since(h[|h| - 1].at, h[|h| - 2].at) <= window
  {
    var i, j := |h| - 2, |h| - 1;
    assert h[i].Failed? && h[j].Failed? && Since(h[j].at, h[i].at) <= window;
  }

  /** A burst of at most one failure is there exactly if the history ends in one. */
  lemma ShortBursts(window: nat, h: seq<HealthEvent>, k: nat)
    requires k <= 1 || |h| <= 1 || !h[|h| - 1].Failed? || !h[|h| - 2].Failed?
             || Since(h[|h| - 1].at, h[|h| - 2].at) > window
    ensures EndsInBurst(window, h, k) <==> k == 0 || (k == 1 && |h| > 0 && h[|h| - 1].Failed?)
  {
    if k > 1 && EndsInBurst(window, h, k) {
      LastTwo(window, h, k);
    }
  }

  /** `Burst` is the longest such suffix. */
  lemma {:induction false} BurstIsLongestSuffix(window: nat, h: seq<HealthEvent>, k: nat)
    ensures EndsInBurst(window, h, k) <==> k <= Burst(window, h)
  {
    hide EndsInBurst;
    var n := |h|;
    if n > 1 && k > 1 && h[n - 1].Failed? && h[n - 2].Failed? && Since(h[n - 1].at, h[n - 2].at) <= window {
      BurstGoesOn(window, h, k);
      BurstIsLongestSuffix(window, h[..n - 1], k - 1);
    } else {
      ShortBursts(window, h, k);
    }
  }

  /** Every trip in the history was due, and every failure that did not trip was not. */
  ghost predicate Honest(threshold: nat, window: nat, h: seq<HealthEvent>) {
    h != [] ==>
      var past, last := h[..|h| - 1], h[|h| - 1];
      && Honest(threshold, window, past)
      && (last.Failed? ==> Burst(window, h) < threshold)
      && (last.Tripped? ==> Burst(window, past + [Failed(last.at)]) >= threshold)
  }

  function Trips(h: seq<HealthEvent>): nat {
    if h == [] then 0 else Trips(h[..|h| - 1]) + if h[|h| - 1].Tripped? then 1 else 0
  }

  /** Failures reported, those that tripped included. */
  function Failures(h: seq<HealthEvent>): nat {
    if h == [] then 0 else Failures(h[..|h| - 1]) + if h[|h| - 1].Succeeded? then 0 else 1
  }

  lemma Appended(h: seq<HealthEvent>, e: HealthEvent)
    ensures (h + [e])[..|h|] == h && (h + [e])[|h|] == e
    ensures Trips(h + [e]) == Trips(h) + if e.Tripped? then 1 else 0
    ensures Failures(h + [e]) == Failures(h) + if e.Succeeded? then 0 else 1
  {
    assert (h + [e])[..|h|] == h;
  }

  /** One more failure extends the burst by one, or starts it over. */
  lemma BurstGrows(window: nat, h: seq<HealthEvent>, now: nat)
    ensures Burst(window, h + [Failed(now)]) ==
              if h != [] && h[|h| - 1].Failed? && Since(now, h[|h| - 1].at) <= window then Burst(window, h) + 1 else 1
  {
    Appended(h, Failed(now));
  }

  /** Between calls the burst is below the threshold, so a failure trips on reaching it. */
  lemma {:induction false} HonestStaysBelow(threshold: nat, window: nat, h: seq<HealthEvent>)
    requires Honest(threshold, window, h)
    ensures Burst(window, h) < Max(threshold, 1)
    ensures h != [] && h[|h| - 1].Tripped? ==>
              Burst(window, h[..|h| - 1] + [Failed(h[|h| - 1].at)]) == Max(threshold, 1)
  {
    if h != [] && h[|h| - 1].Tripped? {
      HonestStaysBelow(threshold, window, h[..|h| - 1]);
      BurstGrows(window, h[..|h| - 1], h[|h| - 1].at);
    }
  }

  lemma OneTripMore(k: nat, trips: nat)
    ensures k * (trips + 1) == k * trips + k
  {
  }

  lemma OneEventMore(threshold: nat, window: nat, past: seq<HealthEvent>, last: HealthEvent)
    requires Honest(threshold, window, past + [last])
    requires Max(threshold, 1) * Trips(past) + Burst(window, past) <= Failures(past)
    ensures Max(threshold, 1) * Trips(past + [last]) + Burst(window, past + [last]) <= Failures(past + [last])
  {
    hide Trips, Failures;
    Appended(past, last);
    match last
    case Failed(at) => BurstGrows(window, past, at);
    case Tripped(at) =>
      HonestStaysBelow(threshold, window, past + [last]);
      BurstGrows(window, past, at);
      HonestStaysBelow(threshold, window, past);
      OneTripMore(Max(threshold, 1), Trips(past));
    case Succeeded =>
  }

  /** Restart causality: every trip is paid for by `max(threshold, 1)` failures of
      its own, and the burst in progress by failures no trip has used. */
  lemma {:induction false} TripsArePaidFor(threshold: nat, window: nat, h: seq<HealthEvent>)
    requires Honest(threshold, window, h)
    ensures Max(threshold, 1) * Trips(h) + Burst(window, h) <= Failures(h)
  {
    hide Max;
    if h == [] {
    } else {
      var past, last := h[..|h| - 1], h[|h| - 1];
      assert h == past + [last];
      TripsArePaidFor(threshold, window, past);
      OneEventMore(threshold, window, past, last);
    }
  }

  /* ----- what "within the window" amounts to ----- */

  /** The clock never runs backwards. */
  ghost predicate Monotone(h: seq<HealthEvent>) {
    forall i, j :: 0 <= i < j < |h| && !h[i].Succeeded? && !h[j].Succeeded? ==> h[i].at <= h[j].at
  }

  lemma {:induction false} BurstSpan(window: nat, h: seq<HealthEvent>, k: nat)
    requires Monotone(h) && EndsInBurst(window, h, k) && k >= 1
    ensures h[|h| - 1].at <= h[|h| - k].at + (k - 1) * window
  {
    if k > 1 {
      var past := h[..|h| - 1];
      forall i, j | |past| - (k - 1) <= i < |past| && j == i + 1 < |past|
        ensures Since(past[j].at, past[i].at) <= window
      {
        assert past[i] == h[i] && past[j] == h[j];
      }
      BurstSpan(window, past, k - 1);
      assert Since(h[|h| - 1].at, h[|h| - 2].at) <= window;
      assert (k - 1) * window == (k - 2) * window + window;
    }
  }

  /** The history ends in a trip whose `k` failures, that one included, follow each other. */
  ghost predicate TripOf(threshold: nat, window: nat, h: seq<HealthEvent>, k: nat) {
    && Honest(threshold, window, h) && Monotone(h)
    && 1 <= k <= |h| && h[|h| - 1].Tripped?
    && forall i :: |h| - k <= i < |h| - 1 ==> h[i].Failed?
  }

  /** Every trip has `max(threshold, 1)` failures behind it, and they lie within
      `max(threshold, 1) - 1` windows. */
  lemma TripSpan(threshold: nat, window: nat, h: seq<HealthEvent>)
    requires Honest(threshold, window, h) && Monotone(h) && h != [] && h[|h| - 1].Tripped?
    ensures
      var k := Max(threshold, 1);
      TripOf(threshold, window, h, k) && h[|h| - 1].at <= h[|h| - k].at + (k - 1) * window
  {
    var k := Max(threshold, 1);
    var past, now := h[..|h| - 1], h[|h| - 1].at;
    var asFailed := past + [Failed(now)];
    HonestStaysBelow(threshold, window, h);
    BurstIsLongestSuffix(window, asFailed, k);
    assert forall i :: 0 <= i < |past| ==> asFailed[i] == h[i];
    assert Monotone(asFailed);
    BurstSpan(window, asFailed, k);
  }

  /** Conversely a threshold of failures all within one window of the last always trips. */
  lemma FailuresWithinWindowTrip(threshold: nat, window: nat, h: seq<HealthEvent>, now: nat)
    requires Monotone(h + [Failed(now)]) && 1 <= threshold <= |h| + 1
    requires forall i :: |h| + 1 - threshold <= i < |h| ==> h[i].Failed? && now <= h[i].at + window
    ensures Burst(window, h + [Failed(now)]) >= threshold
  {
    var all := h + [Failed(now)];
    assert forall i :: 0 <= i < |h| ==> all[i] == h[i];
    BurstIsLongestSuffix(window, all, threshold);
  }

  function Times(n: nat, window: nat): nat {
    if n == 0 then 0 else Times(n - 1, window) + window
  }

  lemma {:induction false} TimesIsProduct(n: nat, window: nat)
    ensures Times(n, window) == n * window
  {
    if n == 0 {
    } else {
      TimesIsProduct(n - 1, window);
    }
  }

  lemma {:induction false} TimesGrows(m: nat, n: nat, window: nat)
    requires m <= n
    ensures Times(m, window) <= Times(n, window)
    decreases n
  {
    if m == n {
    } else {
      TimesGrows(m, n - 1, window);
    }
  }

  /** Failures exactly one window apart. */
  function Spaced(window: nat, n: nat): seq<HealthEvent> {
    seq(n, i requires 0 <= i => HealthEvent.Failed(Times(i, window)))
  }

  lemma {:induction false} SpacedIsOneBurst(window: nat, n: nat)
    ensures Burst(window, Spaced(window, n)) == n
  {
    hide Times;
    if n == 0 {
    } else {
      var past := Spaced(window, n - 1);
      SpacedIsOneBurst(window, n - 1);
      assert Spaced(window, n) == past + [Failed(Times(n - 1, window))];
      BurstGrows(window, past, Times(n - 1, window));
      TimesStep(n, window);
    }
  }

  lemma TimesStep(n: nat, window: nat)
    ensures n > 1 ==> Times(n - 1, window) == Times(n - 2, window) + window
  {
  }

  lemma {:induction false} SpacedIsHonest(threshold: nat, window: nat, n: nat)
    requires n < threshold
    ensures Honest(threshold, window, Spaced(window, n))
  {
    hide Times, Burst;
    if n == 0 {
    } else {
      SpacedIsHonest(threshold, window, n - 1);
      assert Spaced(window, n)[..n - 1] == Spaced(window, n - 1);
      SpacedIsOneBurst(window, n);
    }
  }

  /** The bound of `TripSpan` is met: for every threshold and window there is a history
      whose trip takes that long. */
  lemma SlowestTrip(threshold: nat, window: nat) returns (h: seq<HealthEvent>)
    requires threshold >= 1
    ensures TripOf(threshold, window, h, threshold)
    ensures h[|h| - threshold].at == 0 && h[|h| - 1].at == (threshold - 1) * window
  {
    hide Times, Burst;
    var past, now := Spaced(window, threshold - 1), Times(threshold - 1, window);
    SpacedIsHonest(threshold, window, threshold - 1);
    SpacedIsOneBurst(window, threshold);
    h := past + [Tripped(now)];
    assert h[..threshold - 1] == past;
    assert past + [Failed(now)] == Spaced(window, threshold);
    forall i, j | 0 <= i < j < |h| ensures h[i].at <= h[j].at {
      TimesGrows(i, j, window);
    }
    TimesIsProduct(0, window);
    TimesIsProduct(threshold - 1, window);
  }

  /** The failures of the trip `h` ends in all lie within one window. */
  ghost predicate FitsTheWindow(window: nat, h: seq<HealthEvent>, k: nat)
    requires 1 <= k <= |h| && !h[|h| - k].Succeeded? && !h[|h| - 1].Succeeded?
  {
    h[|h| - 1].at <= h[|h| - k].at + window
  }

  lemma WindowsInATrip(k: nat, window: nat)
    requires k >= 1
    ensures (k - 1) * window <= window <==> k <= 2 || window == 0
  {
    if k > 2 {
      assert (k - 1) * window == window + (k - 2) * window;
      assert (k - 2) * window >= window;
    }
  }

  /** A trip is said to need a threshold of failures within the window. As the window is
      measured from the previous failure, that holds of every trip exactly if the threshold
      is at most two (or the window empty); beyond that a slow drip of failures trips too. */
  lemma TripsFitTheWindowUpToTwo(threshold: nat, window: nat)
    ensures (forall h :: TripOf(threshold, window, h, Max(threshold, 1)) ==>
            FitsTheWindow(window, h, Max(threshold, 1)))
            <==> threshold <= 2 || window == 0
  {
    hide Honest, Monotone, Burst;
    var k := Max(threshold, 1);
    WindowsInATrip(k, window);
    if threshold <= 2 || window == 0 {
      forall h | TripOf(threshold, window, h, k) ensures FitsTheWindow(window, h, k) {
        TripSpan(threshold, window, h);
      }
    } else {
      var h := SlowestTrip(threshold, window);
      assert !FitsTheWindow(window, h, k);
    }
  }

  class Watchdog {
    const threshold: u32
    const window: nat
    var consecutiveFailures: u32
    var lastFailure: Option<nat>
    ghost var history: seq<HealthEvent>

    /** The two fields are what the scan of the history says. */
    ghost predicate Valid()
      reads this
    {
      && Honest(threshold as nat, window, history)
      && consecutiveFailures as nat == Burst(window, history)
      && lastFailure == (if history != [] && history[|history| - 1].Failed? then Some(history[|history| - 1].at)
             else None)
    }

    constructor (threshold: u32, window: nat)
      ensures Valid() && this.threshold == threshold && this.window == window && history == []
    {
      this.threshold := threshold;
      this.window := window;
      consecutiveFailures := 0;
      lastFailure := None;
      history := [];
    }

    /** Trips exactly when the burst this failure ends reaches the threshold. The
        increment cannot overflow: the count is below `max(threshold, 1)`. */
    method RecordFailure(now: nat) returns (tripped: bool)
      requires Valid()
      modifies this
      ensures Valid()
      ensures tripped <==> Burst(window, old(history) + [Failed(now)]) >= threshold as nat
      ensures history == old(history) + [if tripped then Tripped(now) else Failed(now)]
    {
      HonestStaysBelow(threshold as nat, window, history);
      BurstGrows(window, history, now);
      if lastFailure.Some? && Since(now, lastFailure.value) > window {
        consecutiveFailures := 0;
      }
      lastFailure := Some(now);
      consecutiveFailures := consecutiveFailures + 1;
      if consecutiveFailures >= threshold {
        consecutiveFailures := 0;
        lastFailure := None;
        history := history + [Tripped(now)];
        Appended(old(history), Tripped(now));
        tripped := true;
      } else {
        history := history + [Failed(now)];
        Appended(old(history), Failed(now));
        tripped := false;
      }
    }

    method RecordSuccess()
      requires Valid()
      modifies this
      ensures Valid() && history == old(history) + [Succeeded] && Burst(window, history) == 0
    {
      consecutiveFailures := 0;
      lastFailure := None;
      history := history + [Succeeded];
      Appended(old(history), Succeeded);
    }
  }
}
