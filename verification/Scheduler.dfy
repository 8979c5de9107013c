/** When a key runs next: the adaptive interval, the circuit breaker and rate-limit waits. All functions
    are pure; jitter and backoff delays are arguments. */
module Scheduler {
  import opened Store

  datatype ConfigFields = ConfigFields(minMs: int, maxMs: int, adaptive: bool, failures: int, probeEveryMs: nat)
  type Config = c: ConfigFields | 1 <= c.minMs <= c.maxMs && c.failures >= 1 witness ConfigFields(1, 1, true, 1, 0)

  datatype Circuit = Closed | Open | HalfOpen
  datatype RateLimit = RateLimit(remaining: int, resetAt: int)

  datatype State = State(
    nextDueAt: Option<int>, intervalMs: Option<int>, failures: nat, circuit: Circuit, openedAt: Option<int>,
    throttledUntil: Option<int>, rateLimit: Option<RateLimit>)

  datatype Success = Success(hadEvents: bool, notModified: bool, truncated: bool, rateLimit: Option<RateLimit>)
  datatype Failure = Failure(isThrottle: bool, retryAfterMs: Option<int>, rateLimit: Option<Option<RateLimit>>)

  function Max(a: int, b: int): int { if a < b then b else a }
  function Min(a: int, b: int): int { if a < b then a else b }
  function Clamp(v: int, lo: int, hi: int): int { Min(hi, Max(lo, v)) }

  function Initial(now: int, cfg: Config): (s: State)
    ensures IsDue(s, now) && s.circuit.Closed? && CircuitOk(cfg, s) && IntervalOk(cfg, s)
  {
    State(Some(now), Some(cfg.minMs), 0, Closed, None, None, None)
  }

  /** One and a half times and half, rounded to whole milliseconds, halves up. */
  function Grown(p: int): int { (3 * p + 1) / 2 }
  function Halved(p: int): int { (p + 1) / 2 }

  function Previous(s: State, cfg: Config): int { Clamp(GetOr(s.intervalMs, cfg.minMs), cfg.minMs, cfg.maxMs) }

  function NextInterval(s: State, cfg: Config, o: Success): int {
    if o.truncated then Previous(s, cfg)
    else if !cfg.adaptive then cfg.minMs
    else if o.notModified || !o.hadEvents then Min(cfg.maxMs, Grown(Previous(s, cfg)))
    else Max(cfg.minMs, Halved(Previous(s, cfg)))
  }

  function CeilDiv(a: int, b: int): int
    requires b > 0
  {
    (a + b - 1) / b
  }

  function ApplyPacing(interval: int, limit: Option<RateLimit>, now: int): int {
    var base := Max(0, interval);
    if limit.None? || limit.value.resetAt - now <= 0 then base
    else Max(base,
             if limit.value.remaining <= 0 then limit.value.resetAt - now
               else CeilDiv(limit.value.resetAt - now, limit.value.remaining))
  }

  /** `jittered` is the interval with its jitter. */
  function AfterSuccess(s: State, cfg: Config, now: int, o: Success, jittered: nat): State {
    var wait := ApplyPacing(if o.truncated then 0 else jittered, o.rateLimit, now);
    State(Some(now + wait), Some(NextInterval(s, cfg, o)), 0, Closed, None, None, o.rateLimit)
  }

  function AfterFailure(s: State, cfg: Config, now: int, o: Failure, delay: nat): State {
    var limit := if o.rateLimit.Some? then o.rateLimit.value else s.rateLimit;
    if o.isThrottle then
      var until := now + Max(0, GetOr(o.retryAfterMs, Previous(s, cfg)));
      s.(nextDueAt := Some(until), throttledUntil := Some(until), rateLimit := limit)
    else
      var held := if s.throttledUntil.Some? && s.throttledUntil.value > now then s.throttledUntil else None;
      var common := s.(failures := s.failures + 1, throttledUntil := held, rateLimit := limit);
      if !s.circuit.Closed? then common.(circuit := Open, nextDueAt := Some(now + cfg.probeEveryMs))
      else if s.failures + 1 >= cfg.failures then common.(circuit := Open, openedAt := Some(now),
                                                          nextDueAt := Some(now + cfg.probeEveryMs))
      else common.(nextDueAt := Some(now + delay))
  }

  predicate CircuitClosed(s: State) { !s.circuit.Closed? }

  predicate CircuitOpened(s: State, cfg: Config, o: Failure) {
    !o.isThrottle && s.circuit.Closed? && s.failures + 1 >= cfg.failures
  }

  predicate IsDue(s: State, now: int) {
    (s.nextDueAt.None? || s.nextDueAt.value <= now) && (s.throttledUntil.None? || s.throttledUntil.value <= now)
  }

  function TimeUntilDue(s: State, now: int): int {
    if s.nextDueAt.None? then 0
    else Max(0,
             (if s.throttledUntil.Some? then Max(s.nextDueAt.value,
                                                 s.throttledUntil.value) else s.nextDueAt.value) - now)
  }

  function BeginProbe(s: State): State { if s.circuit.Open? then s.(circuit := HalfOpen) else s }

  function MakeDue(s: State, now: int): State { s.(nextDueAt := Some(now), throttledUntil := None) }

  function HaltCircuit(s: State, cfg: Config, now: int): State {
    s.(circuit := Open, openedAt := Some(now), nextDueAt := Some(now + cfg.probeEveryMs),
       failures := Max(s.failures, cfg.failures))
  }

  // ---- runs -----------------------------------------------------------------------------------

  datatype Step =
    | Succeeds(now: int, success: Success, jittered: nat)
    | Fails(now: int, failure: Failure, delay: nat)
    | Probes
    | Forced(now: int)
    | Halts(now: int)

  function Apply(cfg: Config, s: State, step: Step): State {
    match step
    case Succeeds(now, o, jittered) => AfterSuccess(s, cfg, now, o, jittered)
    case Fails(now, o, delay) => AfterFailure(s, cfg, now, o, delay)
    case Probes => BeginProbe(s)
    case Forced(now) => MakeDue(s, now)
    case Halts(now) => HaltCircuit(s, cfg, now)
  }

  function Run(cfg: Config, s: State, steps: seq<Step>): State {
    if steps == [] then s else Apply(cfg, Run(cfg, s, steps[..|steps| - 1]), steps[|steps| - 1])
  }

  datatype Report = Opened | ClosedAgain

  /** What the hooks are told. */
  function ReportOf(cfg: Config, s: State, step: Step): seq<Report> {
    match step
    case Succeeds(_, _, _) => if CircuitClosed(s) then [ClosedAgain] else []
    case Fails(_, o, _) => if CircuitOpened(s, cfg, o) then [Opened] else []
    case Halts(_) => [Opened]
    case _ => []
  }

  function Reports(cfg: Config, s: State, steps: seq<Step>): seq<Report> {
    if steps == [] then []
    else Reports(cfg, s, steps[..|steps| - 1]) + ReportOf(cfg, Run(cfg, s, steps[..|steps| - 1]), steps[|steps| - 1])
  }

  /** The circuit is closed exactly while the failures in a row are below the threshold. */
  ghost predicate CircuitOk(cfg: Config, s: State) { s.circuit.Closed? <==> s.failures < cfg.failures }

  lemma {:induction false} ClosedIffFewFailures(cfg: Config, s: State, steps: seq<Step>)
    requires CircuitOk(cfg, s)
    ensures CircuitOk(cfg, Run(cfg, s, steps))
  {
    if steps == [] {
    } else {
      ClosedIffFewFailures(cfg, s, steps[..|steps| - 1]);
    }
  }

  ghost predicate Alternates(rs: seq<Report>) {
    forall i :: 0 <= i < |rs| ==> rs[i] == if i % 2 == 0 then Opened else ClosedAgain
  }

  /** Without a halt the reports alternate, starting with an opening, and tell the state of the circuit. */
  lemma {:induction false} ReportsAlternate(cfg: Config, s: State, steps: seq<Step>)
    requires s.circuit.Closed? && CircuitOk(cfg, s) && forall i :: 0 <= i < |steps| ==> !steps[i].Halts?
    ensures Alternates(Reports(cfg, s, steps))
    ensures Run(cfg, s, steps).circuit.Closed? <==> |Reports(cfg, s, steps)| % 2 == 0
  {
    if steps == [] {
    } else {
      ReportsAlternate(cfg, s, steps[..|steps| - 1]);
    }
  }

  // ---- the interval ---------------------------------------------------------------------------

  ghost predicate IntervalOk(cfg: Config, s: State) {
    s.intervalMs.Some? ==> cfg.minMs <= s.intervalMs.value <= cfg.maxMs
  }

  /** Every success sets an interval within the bounds, whatever was stored; nothing else touches it. */
  lemma {:induction false} IntervalStaysInBounds(cfg: Config, s: State, steps: seq<Step>)
    requires IntervalOk(cfg, s) || exists i :: 0 <= i < |steps| && steps[i].Succeeds?
    ensures IntervalOk(cfg, Run(cfg, s, steps))
  {
    if steps == [] {
    } else {
      var init, last := steps[..|steps| - 1], steps[|steps| - 1];
      if !last.Succeeds? {
        if !IntervalOk(cfg, s) {
          var i :| 0 <= i < |steps| && steps[i].Succeeds?;
          assert init[i].Succeeds?;
        }
        IntervalStaysInBounds(cfg, s, init);
      }
    }
  }

  function Pow(b: nat, n: nat): nat { if n == 0 then 1 else b * Pow(b, n - 1) }

  /** The interval after `n` idle cycles, and after `n` cycles with events. */
  function Idle(cfg: Config, p: int, n: nat): int { if n == 0 then p else Min(cfg.maxMs, Grown(Idle(cfg, p, n - 1))) }
  function Busy(cfg: Config, p: int, n: nat): int { if n == 0 then p else Max(cfg.minMs, Halved(Busy(cfg, p, n - 1))) }

  lemma {:induction false} IdleGrows(cfg: Config, p: int, n: nat)
    requires cfg.minMs <= p <= cfg.maxMs
    ensures cfg.minMs <= Idle(cfg, p, n) <= cfg.maxMs
    ensures Idle(cfg, p, n) == cfg.maxMs || p * Pow(3, n) <= Idle(cfg, p, n) * Pow(2, n)
  {
    if n == 0 {
    } else {
      IdleGrows(cfg, p, n - 1);
      var i, a, b := Idle(cfg, p, n - 1), Pow(3, n - 1), Pow(2, n - 1);
      assert 3 * i <= 2 * Grown(i);
      if p * a <= i * b { Scale(p, a, i, b, Grown(i)); }
    }
  }

  lemma Scale(p: int, a: int, i: int, b: int, g: int)
    requires p * a <= i * b && 3 * i <= 2 * g && b >= 0
    ensures p * (3 * a) <= g * (2 * b)
  {
    assert p * (3 * a) == 3 * (p * a) && (3 * i) * b == 3 * (i * b) && g * (2 * b) == (2 * g) * b;
    assert (3 * i) * b <= (2 * g) * b;
  }

  lemma {:induction false} BusyShrinks(cfg: Config, p: int, n: nat)
    requires cfg.minMs <= p <= cfg.maxMs
    ensures cfg.minMs <= Busy(cfg, p, n) <= cfg.maxMs
    ensures Busy(cfg, p, n) == cfg.minMs || (Busy(cfg, p, n) - 1) * Pow(2, n) <= p - 1
  {
    if n == 0 {
    } else {
      BusyShrinks(cfg, p, n - 1);
      var i, b := Busy(cfg, p, n - 1), Pow(2, n - 1);
      assert 2 * (Halved(i) - 1) <= i - 1;
      if (i - 1) * b <= p - 1 { Shrink(i - 1, b, Halved(i) - 1); }
    }
  }

  lemma Shrink(i: int, b: int, h: int)
    requires 2 * h <= i && b >= 0
    ensures h * (2 * b) <= i * b
  {
    assert h * (2 * b) == (2 * h) * b && (2 * h) * b <= i * b;
  }

  lemma Strict(x: int, y: int, k: int)
    requires k > 0
    ensures (x < y ==> x * k < y * k) && (x <= y ==> x * k <= y * k)
  {
    if x < y {
      assert (y - x) * k > 0;
      assert (y - x) * k == y * k - x * k;
    }
  }

  lemma {:induction false} PowPositive(b: nat, n: nat)
    requires b > 0
    ensures Pow(b, n) > 0
  {
    if n == 0 {
    } else {
      PowPositive(b, n - 1);
    }
  }

  /** The upper end is reached after boundedly many idle cycles. */
  lemma IdleReachesMax(cfg: Config, p: int, n: nat)
    requires cfg.minMs <= p <= cfg.maxMs && cfg.maxMs * Pow(2, n) <= p * Pow(3, n)
    ensures Idle(cfg, p, n) == cfg.maxMs
  {
    IdleGrows(cfg, p, n);
    PowPositive(2, n);
    Strict(Idle(cfg, p, n), cfg.maxMs, Pow(2, n));
  }

  /** The lower end is reached after boundedly many cycles with events. */
  lemma BusyReachesMin(cfg: Config, p: int, n: nat)
    requires cfg.minMs <= p <= cfg.maxMs && p <= cfg.minMs * Pow(2, n)
    ensures Busy(cfg, p, n) == cfg.minMs
  {
    BusyShrinks(cfg, p, n);
    PowPositive(2, n);
    Strict(cfg.minMs, Busy(cfg, p, n) - 1, Pow(2, n));
  }

  lemma {:induction false} IdleIsRun(cfg: Config, s: State, steps: seq<Step>)
    requires cfg.adaptive && s.intervalMs.Some? && IntervalOk(cfg, s)
    requires forall i :: 0 <= i < |steps| ==> steps[i].Succeeds? && !steps[i].success.truncated
    ensures (forall i :: 0 <= i < |steps| ==> steps[i].success.notModified || !steps[i].success.hadEvents) ==>
              Run(cfg, s, steps).intervalMs == Some(Idle(cfg, s.intervalMs.value, |steps|))
    ensures (forall i :: 0 <= i < |steps| ==> !steps[i].success.notModified && steps[i].success.hadEvents) ==>
              Run(cfg, s, steps).intervalMs == Some(Busy(cfg, s.intervalMs.value, |steps|))
  {
    if steps == [] {
    } else {
      var init := steps[..|steps| - 1];
      IdleIsRun(cfg, s, init);
      assert forall i :: 0 <= i < |init| ==> init[i] == steps[i];
      IdleGrows(cfg, s.intervalMs.value, |init|);
      BusyShrinks(cfg, s.intervalMs.value, |init|);
    }
  }

  // ---- pacing and throttling ------------------------------------------------------------------

  lemma CeilCovers(a: int, b: int)
    requires a > 0 && b > 0
    ensures CeilDiv(a, b) * b >= a && (CeilDiv(a, b) - 1) * b < a
  {
    var n := CeilDiv(a, b);
    assert n * b <= a + b - 1 < n * b + b;
    assert (n - 1) * b == n * b - b;
  }

  /** Spaced by the paced wait, the remaining requests last until the window resets; and the wait is
      the interval itself or the shortest that does so. */
  lemma PacingLasts(interval: int, limit: RateLimit, now: int)
    requires limit.resetAt > now
    ensures
      var wait, k := ApplyPacing(interval, Some(limit), now), Max(limit.remaining, 1);
      wait >= Max(0,
                  interval) && wait * k >= limit.resetAt - now && (wait == Max(0,
                      interval) || (wait - 1) * k < limit.resetAt - now)
  {
    var wait, k, window := ApplyPacing(interval, Some(limit), now), Max(limit.remaining, 1), limit.resetAt - now;
    CeilCovers(window, k);
    var c := CeilDiv(window, k);
    if wait > c { Strict(c, wait, k); }
  }

  /** After a success the key is due exactly when the interval and the rate limit allow: not before the
      jittered interval has passed (a truncated cycle goes on at once), never so early that the remaining
      requests run out before the reset, and no later than one of the two asks for. */
  lemma SuccessSpaces(s: State, cfg: Config, now: int, o: Success, jittered: nat, t: int)
    ensures
      var base, limited := if o.truncated then 0 else jittered, o.rateLimit.Some? && o.rateLimit.value.resetAt > now;
      IsDue(AfterSuccess(s, cfg, now, o, jittered), t) <==>
        t >= now + base && (limited ==>
            (t - now) * Max(o.rateLimit.value.remaining, 1) >= o.rateLimit.value.resetAt - now)
  {
    var base := if o.truncated then 0 else jittered;
    var wait := ApplyPacing(base, o.rateLimit, now);
    if o.rateLimit.Some? && o.rateLimit.value.resetAt > now {
      PacingLasts(base, o.rateLimit.value, now);
      Strict(wait, t - now, Max(o.rateLimit.value.remaining, 1));
      Strict(t - now, wait - 1, Max(o.rateLimit.value.remaining, 1));
    }
  }

  /** After a failure that is no throttle, the key is due exactly when the probe interval of an open
      circuit or the backoff of a closed one has passed, and with it a throttle that was still running.
      The circuit is open exactly from the threshold on. */
  lemma FailureWaits(s: State, cfg: Config, now: int, o: Failure, delay: nat, t: int)
    requires CircuitOk(cfg, s) && !o.isThrottle
    ensures
      var s' := AfterFailure(s, cfg, now, o, delay);
      && (s'.circuit.Open? <==> s.failures + 1 >= cfg.failures)
      && (IsDue(s', t) <==>
            t >= now + (if s'.circuit.Open? then cfg.probeEveryMs else delay) && (s.throttledUntil.Some? ==>
                t >= s.throttledUntil.value || s.throttledUntil.value <= now))
  {
  }

  /** A step that is not a success and not forced. */
  predicate Unforced(step: Step) { !step.Succeeds? && !step.Forced? }

  /** Steps before `until` other than a success, a forced run or a newer throttle leave the key not due
      until the time the API asked for. */
  lemma {:induction false} ThrottleHolds(cfg: Config, s: State, steps: seq<Step>, until: int, now: int)
    requires s.throttledUntil == Some(until)
    requires forall i :: 0 <= i < |steps| ==>
               Unforced(steps[i]) && (steps[i].Fails? ==> steps[i].now < until && !steps[i].failure.isThrottle)
    ensures Run(cfg, s, steps).throttledUntil == Some(until) && (now < until ==> !IsDue(Run(cfg, s, steps), now))
  {
    if steps == [] {
    } else {
      assert forall i :: 0 <= i < |steps[..|steps| - 1]| ==> steps[..|steps| - 1][i] == steps[i];
      ThrottleHolds(cfg, s, steps[..|steps| - 1], until, now);
    }
  }

  /** The reported wait is exact: the key is due at a time iff that wait has passed. */
  lemma DueAfterWait(s: State, now: int, later: int)
    requires s.nextDueAt.Some? && later >= now
    ensures IsDue(s, later) <==> later >= now + TimeUntilDue(s, now)
  {
  }

  /** No wait is reported exactly when the key is due, unless it was never scheduled while a throttle runs: such a
      key is not due, although its wait is zero. */
  lemma NoWaitIfDue(s: State, now: int)
    ensures (TimeUntilDue(s, now) == 0 <==> IsDue(s, now)) <==>
            !(s.nextDueAt.None? && s.throttledUntil.Some? && s.throttledUntil.value > now)
    ensures TimeUntilDue(s, now) >= 0
  {
  }

  /** A key that was never scheduled: its wait is zero, and it is not due. */
  lemma UnscheduledThrottled()
    ensures
      var s := State(None, Some(1), 0, Closed, None, Some(10), None);
      TimeUntilDue(s, 0) == 0 && !IsDue(s, 0)
  {
  }

  // ---- what each step sets, field by field ------------------------------------------------------

  /** The stored interval, moved into the bounds; the lower bound if none is stored. */
  ghost predicate IsStored(s: State, cfg: Config, p: int) {
    && cfg.minMs <= p <= cfg.maxMs
    && (s.intervalMs.None? ==> p == cfg.minMs)
    && (s.intervalMs.Some? ==>
          (p < s.intervalMs.value ==> p == cfg.maxMs) && (p > s.intervalMs.value ==> p == cfg.minMs))
  }

  /** A throttle waits as long as the API asks for, or one interval if it does not say, and never a negative time.
      It is no failure: circuit, count and interval stay. */
  lemma ThrottleWaits(s: State, cfg: Config, now: int, o: Failure, delay: nat, p: int, t: int)
    requires o.isThrottle && IsStored(s, cfg, p)
    ensures
      var s' := AfterFailure(s, cfg, now, o, delay);
      && (IsDue(s', t) <==>
            t >= now && t >= now + match o.retryAfterMs { case Some(ms) => ms case None => p })
      && s'.throttledUntil == s'.nextDueAt && s'.throttledUntil.Some?
      && s'.circuit == s.circuit && s'.failures == s.failures && s'.openedAt == s.openedAt
      && s'.intervalMs == s.intervalMs
  {
  }

  /** A success halves the interval, or grows it by half when nothing happened, to the nearest millisecond and
      upwards from the middle, within the bounds; without adaption it is the lower bound, and a truncated cycle
      leaves it. The circuit closes and the history is forgotten. */
  lemma SuccessSets(s: State, cfg: Config, now: int, o: Success, jittered: nat, p: int, g: int, h: int)
    requires IsStored(s, cfg, p) && 3 * p <= 2 * g <= 3 * p + 1 && p <= 2 * h <= p + 1
    ensures
      var s' := AfterSuccess(s, cfg, now, o, jittered);
      var i := s'.intervalMs;
      && (o.truncated ==> i == Some(p)) && (!o.truncated && !cfg.adaptive ==> i == Some(cfg.minMs))
      && (!o.truncated && cfg.adaptive && (o.notModified || !o.hadEvents) ==>
            i == Some(if g > cfg.maxMs then cfg.maxMs else g))
      && (!o.truncated && cfg.adaptive && !o.notModified && o.hadEvents ==>
            i == Some(if h < cfg.minMs then cfg.minMs else h))
      && s'.circuit.Closed? && s'.failures == 0 && s'.openedAt.None? && s'.throttledUntil.None?
      && s'.rateLimit == o.rateLimit
  {
  }

  /** A failure that is no throttle is counted, and the moment the circuit opens is kept until it closes. */
  lemma FailureSets(s: State, cfg: Config, now: int, o: Failure, delay: nat)
    requires CircuitOk(cfg, s)
    ensures
      var s' := AfterFailure(s, cfg, now, o, delay);
      && s'.failures == (if o.isThrottle then s.failures else s.failures + 1) && s'.intervalMs == s.intervalMs
      && s'.openedAt == (if s.circuit.Closed? && !s'.circuit.Closed? then Some(now) else s.openedAt)
      && (o.rateLimit.None? ==> s'.rateLimit == s.rateLimit)
      && (o.rateLimit.Some? ==> s'.rateLimit == o.rateLimit.value)
  {
  }

  /** A forced run is due at once, whatever the API asked for; a probe and a forced run change nothing else. */
  lemma ForcedIsDue(s: State, now: int, t: int)
    ensures IsDue(MakeDue(s, now), t) <==> t >= now
    ensures MakeDue(s, now).(nextDueAt := s.nextDueAt, throttledUntil := s.throttledUntil) == s
    ensures BeginProbe(s).circuit == match s.circuit { case Open => HalfOpen case c => c }
    ensures BeginProbe(s).(circuit := s.circuit) == s
  {
  }

  /** A halt opens the circuit until the next probe, or until a throttle that lasts longer. */
  lemma HaltWaits(s: State, cfg: Config, now: int, t: int)
    ensures
      var s' := HaltCircuit(s, cfg, now);
      && s'.circuit.Open? && CircuitOk(cfg, s') && s'.openedAt == Some(now) && s'.failures >= s.failures
      && (IsDue(s', t) <==>
            t >= now + cfg.probeEveryMs && (s.throttledUntil.Some? ==> t >= s.throttledUntil.value))
  {
  }

  /** Over any run the opening moment is known exactly while the circuit is not closed. */
  lemma {:induction false} OpenedAtIsKnown(cfg: Config, s: State, steps: seq<Step>)
    requires s.circuit.Closed? <==> s.openedAt.None?
    ensures Run(cfg, s, steps).circuit.Closed? <==> Run(cfg, s, steps).openedAt.None?
  {
    if steps == [] {
    } else {
      OpenedAtIsKnown(cfg, s, steps[..|steps| - 1]);
    }
  }
}
