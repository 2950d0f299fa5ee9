/** internal/server/auth.go:342-367 and 469-496: the fixed-window failure counter with lockout. */
module Throttle {
  import opened Prelude

  /** Clock readings are integers on one time axis; None is Go's zero time. */
  datatype Failures = Failures(count: nat, windowStart: Option<int>, lockedUntil: Option<int>, lastSeen: Option<int>)

  const CLEAR := Failures(0, None, None, None)

  datatype Limits = Limits(maxFailures: nat, window: int, lockout: int)

  /** What the configuration loader guarantees. */
  predicate ValidLimits(l: Limits) { l.maxFailures > 0 && l.window > 0 && l.lockout > 0 }

  /** resetExpiredFailureState */
  function Reset(st: Failures, now: int, window: int): Failures {
    if st.lockedUntil.Some? && now >= st.lockedUntil.value then CLEAR
    else if st.lockedUntil.None? && st.windowStart.Some? && now - st.windowStart.value >= window then CLEAR
    else st
  }

  predicate Locked(st: Failures, now: int) {
    st.lockedUntil.Some? && now < st.lockedUntil.value
  }

  /** recordFailure's new state. */
  function Recorded(st: Failures, now: int, l: Limits): Failures {
    var r := Reset(st, now, l.window).(lastSeen := Some(now));
    if Locked(r, now) then r
    else
      var counted := r.(windowStart := if r.windowStart.None? then Some(now) else r.windowStart, count := r.count + 1);
      if counted.count >= l.maxFailures then counted.(lockedUntil := Some(now + l.lockout)) else counted
  }

  /** A failure that increments the counter rather than being absorbed by a lockout. */
  predicate Counts(st: Failures, now: int, l: Limits) {
    !Locked(Reset(st, now, l.window), now)
  }

  /** recordFailure's result, `later` being the clock reading of time.Until. */
  function Retry(st: Failures, now: int, later: int, l: Limits): int {
    var r := Recorded(st, now, l);
    if r.lockedUntil.None? then 0
    else if Counts(st, now, l) then l.lockout
    else r.lockedUntil.value - later
  }

  class FailureCounter {
    var failures: nat
    var windowStart: Option<int>
    var lockedUntil: Option<int>
    var lastSeen: Option<int>

    ghost function Value(): Failures
      reads this
    {
      Failures(failures, windowStart, lockedUntil, lastSeen)
    }

    constructor ()
      ensures Value() == CLEAR
    {
      failures, windowStart, lockedUntil, lastSeen := 0, None, None, None;
    }

    method Clear()
      modifies this
      ensures Value() == CLEAR
    {
      failures, windowStart, lockedUntil, lastSeen := 0, None, None, None;
    }

    method ResetExpired(now: int, window: int)
      modifies this
      ensures Value() == Reset(old(Value()), now, window)
    {
      if lockedUntil.Some? && now >= lockedUntil.value {
        Clear();
        return;
      }
      if lockedUntil.None? && windowStart.Some? && now - windowStart.value >= window {
        Clear();
      }
    }

    method RecordFailure(now: int, later: int, l: Limits) returns (retry: int)
      requires now <= later
      modifies this
      ensures Value() == Recorded(old(Value()), now, l)
      ensures retry == Retry(old(Value()), now, later, l)
    {
      ResetExpired(now, l.window);
      lastSeen := Some(now);
      if lockedUntil.Some? && now < lockedUntil.value {
        return lockedUntil.value - later;
      }
      if windowStart.None? {
        windowStart := Some(now);
      }
      failures := failures + 1;
      if failures >= l.maxFailures {
        lockedUntil := Some(now + l.lockout);
        return l.lockout;
      }
      return 0;
    }

    /** totpAuthLocked and its two siblings. */
    method IsLocked(now: int, later: int, l: Limits) returns (retry: int, locked: bool)
      requires now <= later
      modifies this
      ensures Value() == Reset(old(Value()), now, l.window)
      ensures locked <==> Locked(Reset(old(Value()), now, l.window), now)
      ensures retry == if locked then lockedUntil.value - later else 0
    {
      ResetExpired(now, l.window);
      if lockedUntil.Some? && now < lockedUntil.value {
        return lockedUntil.value - later, true;
      }
      return 0, false;
    }
  }

  // -------------------------------------------------------------------- runs

  /** A call at a clock reading: a recorded failure, or a check that only expires the state. */
  datatype Call = Call(at: int, failure: bool)

  predicate Chronological(calls: seq<Call>) {
    forall i, j | 0 <= i < j < |calls| :: calls[i].at <= calls[j].at
  }

  /** The state after calls between two clears, starting just after one. */
  function After(calls: seq<Call>, l: Limits): Failures {
    if calls == [] then CLEAR
    else
      var c := calls[|calls| - 1];
      var before := After(calls[..|calls| - 1], l);
      if c.failure then Recorded(before, c.at, l) else Reset(before, c.at, l.window)
  }

  predicate Counted(calls: seq<Call>, k: nat, l: Limits)
    requires k < |calls|
  {
    calls[k].failure && Counts(After(calls[..k], l), calls[k].at, l)
  }

  /** Failures counted at clock readings in [lo, hi]. */
  function CountedIn(calls: seq<Call>, l: Limits, lo: int, hi: int): nat {
    if calls == [] then 0
    else
      CountedIn(calls[..|calls| - 1], l, lo, hi)
      + if Counted(calls, |calls| - 1, l) && lo <= calls[|calls| - 1].at <= hi then 1 else 0
  }

  /** The counter stays within the maximum, and locks exactly when it gets there. */
  predicate Inv(st: Failures, l: Limits) {
    && st.count <= l.maxFailures
    && (st.lockedUntil.Some? <==> st.count == l.maxFailures)
    && (st.windowStart.Some? <==> st.count > 0)
    && (st.lockedUntil.Some? && st.windowStart.Some? ==> st.lockedUntil.value >= st.windowStart.value + l.lockout)
  }

  lemma {:induction false} CounterIsBounded(calls: seq<Call>, l: Limits)
    requires ValidLimits(l) && Chronological(calls)
    ensures Inv(After(calls, l), l)
    ensures After(calls, l).windowStart.Some? && calls != [] ==> After(calls, l).windowStart.value <= calls[|calls| - 1].at
  {
    if calls != [] {
      CounterIsBounded(calls[..|calls| - 1], l);
    }
  }

  function Spacing(l: Limits): int { Min(l.window, l.lockout) }

  /**
   `windows` of the windows so far hold counted failures with readings in [lo, hi], `n` failures in
   all, the last of them in the window that began at `start`. Each after the first began within the
   interval, and at least one Spacing after its predecessor.
   */
  ghost predicate Tally(st: Failures, clock: int, l: Limits, lo: int, hi: int, n: nat, windows: nat, start: int) {
    && n <= l.maxFailures * windows
    && (windows > 0 ==> start <= hi && lo <= clock)
    && (windows > 1 ==> start >= lo + (windows - 2) * Spacing(l))
    && (windows > 0 && st.windowStart.None? ==> clock >= start + Spacing(l))
    && (windows > 0 && st.windowStart.Some? ==>
          (st.windowStart.value == start && n <= l.maxFailures * (windows - 1) + st.count) || st.windowStart.value > hi)
  }

  /** A window that has expired began at least one Spacing ago. */
  lemma ExpiredWindow(st: Failures, now: int, l: Limits)
    requires ValidLimits(l) && Inv(st, l) && st.windowStart.Some? && Reset(st, now, l.window) != st
    ensures Reset(st, now, l.window) == CLEAR && now >= st.windowStart.value + Spacing(l)
  {}

  lemma NextWindow(l: Limits, lo: int, windows: nat, start: int, now: int)
    requires ValidLimits(l) && windows > 0 && now >= start + Spacing(l) && now >= lo
    requires windows > 1 ==> start >= lo + (windows - 2) * Spacing(l)
    ensures now >= lo + (windows - 1) * Spacing(l)
    ensures l.maxFailures * (windows + 1) == l.maxFailures * windows + l.maxFailures
  {
    assert (windows - 1) * Spacing(l) == (windows - 2) * Spacing(l) + Spacing(l);
  }

  lemma TallyReset(st: Failures, clock: int, now: int, l: Limits, lo: int, hi: int, n: nat, windows: nat, start: int)
    requires ValidLimits(l) && Inv(st, l) && clock <= now && Tally(st, clock, l, lo, hi, n, windows, start)
    ensures Tally(Reset(st, now, l.window), now, l, lo, hi, n, windows, start)
  {
    if Reset(st, now, l.window) != st && st.windowStart.Some? {
      ExpiredWindow(st, now, l);
    }
  }

  /** One more failure, recorded in a state from which nothing has expired. */
  lemma TallyRecord(st: Failures, now: int, l: Limits, lo: int, hi: int, n: nat, windows: nat, start: int)
    returns (more: nat, begun: int)
    requires ValidLimits(l) && Inv(st, l) && Reset(st, now, l.window) == st
    requires Tally(st, now, l, lo, hi, n, windows, start)
    requires st.windowStart.Some? ==> st.windowStart.value <= now
    ensures var counted := !Locked(st, now) && lo <= now <= hi;
      Tally(Recorded(st, now, l), now, l, lo, hi, n + (if counted then 1 else 0), more, begun)
  {
    more, begun := windows, start;
    if !Locked(st, now) && lo <= now <= hi {
      if windows == 0 {
        more, begun := 1, if st.windowStart.Some? then st.windowStart.value else now;
      } else if st.windowStart.None? {
        NextWindow(l, lo, windows, start, now);
        more, begun := windows + 1, now;
      } else {
        assert l.maxFailures * windows == l.maxFailures * (windows - 1) + l.maxFailures;
      }
    }
  }

  /** One more call of either kind. */
  lemma TallyCall(st: Failures, clock: int, c: Call, l: Limits, lo: int, hi: int, n: nat, windows: nat, start: int)
    returns (more: nat, begun: int)
    requires ValidLimits(l) && Inv(st, l) && clock <= c.at && Tally(st, clock, l, lo, hi, n, windows, start)
    requires st.windowStart.Some? ==> st.windowStart.value <= c.at
    ensures var counted := c.failure && Counts(st, c.at, l) && lo <= c.at <= hi;
      Tally(if c.failure then Recorded(st, c.at, l) else Reset(st, c.at, l.window), c.at, l, lo, hi,
            n + (if counted then 1 else 0), more, begun)
  {
    TallyReset(st, clock, c.at, l, lo, hi, n, windows, start);
    more, begun := windows, start;
    if c.failure {
      more, begun := TallyRecord(Reset(st, c.at, l.window), c.at, l, lo, hi, n, windows, start);
    }
  }

  lemma {:induction false} TallyRun(calls: seq<Call>, l: Limits, lo: int, hi: int) returns (windows: nat, start: int, clock: int)
    requires ValidLimits(l) && Chronological(calls)
    ensures Tally(After(calls, l), clock, l, lo, hi, CountedIn(calls, l, lo, hi), windows, start)
    ensures calls != [] ==> clock == calls[|calls| - 1].at
  {
    if calls == [] {
      windows, start, clock := 0, 0, 0;
    } else {
      var before := calls[..|calls| - 1];
      var c := calls[|calls| - 1];
      windows, start, clock := TallyRun(before, l, lo, hi);
      CounterIsBounded(before, l);
      if before == [] {
        windows, start, clock := 0, 0, c.at;
      }
      windows, start := TallyCall(After(before, l), clock, c, l, lo, hi, CountedIn(before, l, lo, hi), windows, start);
      clock := c.at;
    }
  }

  lemma QuotientBound(a: int, divisor: int, n: int)
    requires divisor > 0 && n >= 0 && a * divisor <= n
    ensures a <= n / divisor
  {
    var slack := n / divisor - a + 1;
    assert slack * divisor == (n / divisor) * divisor - a * divisor + divisor;
    assert (n / divisor) * divisor + n % divisor == n;
    assert slack * divisor > 0;
  }

  /**
   Between two clears, at most maxFailures * (length / m + 2) failures are counted in any interval
   of clock readings, m being the smaller of the window and the lockout.
   */
  lemma {:induction false} FailuresAreThrottled(calls: seq<Call>, l: Limits, lo: int, hi: int)
    requires ValidLimits(l) && Chronological(calls) && lo <= hi
    ensures CountedIn(calls, l, lo, hi) <= l.maxFailures * ((hi - lo) / Spacing(l) + 2)
  {
    var windows, start, clock := TallyRun(calls, l, lo, hi);
    if windows > 1 {
      QuotientBound(windows - 2, Spacing(l), hi - lo);
    }
    assert windows <= (hi - lo) / Spacing(l) + 2;
    MulMonotone(l.maxFailures, windows, (hi - lo) / Spacing(l) + 2);
  }

  lemma MulMonotone(a: nat, b: int, c: int)
    requires b <= c
    ensures a * b <= a * c
  {}
}
