/**
 How the TOTP failure counter of internal/server/auth.go:342-367 and 469-496 throttles the login machine:
 it is checked by both login stages, counted by the second, and cleared by a successful login and by the
 account handlers of internal/server/auth.go:695-937.
 */
module LoginThrottle {
  import opened Prelude
  import opened Throttle
  import TwoStageLogin

  type Config = TwoStageLogin.Config
  type State = TwoStageLogin.State
  type Event = TwoStageLogin.Event

  function After(c: Config, run: seq<Event>): State { TwoStageLogin.After(c, run) }

  /** The call of the counter that an enabled event makes, if any. */
  function CallOf(e: Event): Option<Call> {
    match e
    case Begin(_, _, at) => Some(Call(at, false))
    case Gate(_, at) => Some(Call(at, false))
    case Record(_, at, _) => Some(Call(at, true))
    case _ => None
  }

  /** A login succeeds, or an account handler clears the counter. */
  predicate Clears(e: Event) { e.Clear? || e.ClearFailures? }

  /** Every call of the run, in order. */
  function Readings(c: Config, run: seq<Event>): seq<Call> {
    if run == [] then []
    else
      var before := run[..|run| - 1];
      var e := run[|run| - 1];
      Readings(c, before) + if TwoStageLogin.Enabled(After(c, before), e) && CallOf(e).Some? then [CallOf(e).value] else []
  }

  /** The calls since the counter was last cleared. */
  function CallsOf(c: Config, run: seq<Event>): seq<Call> {
    if run == [] then []
    else
      var before := run[..|run| - 1];
      var e := run[|run| - 1];
      if !TwoStageLogin.Enabled(After(c, before), e) then CallsOf(c, before)
      else if Clears(e) then []
      else CallsOf(c, before) + if CallOf(e).Some? then [CallOf(e).value] else []
  }

  lemma FailuresStep(c: Config, s: State, e: Event)
    ensures TwoStageLogin.Step(c, s, e).failures ==
      if !TwoStageLogin.Enabled(s, e) then s.failures
      else if Clears(e) then CLEAR
      else if CallOf(e).None? then s.failures
      else if CallOf(e).value.failure then Recorded(s.failures, CallOf(e).value.at, c.limits)
      else Reset(s.failures, CallOf(e).value.at, c.limits.window)
  {}

  lemma {:induction false} FailuresComeFromCalls(c: Config, run: seq<Event>)
    ensures After(c, run).failures == Throttle.After(CallsOf(c, run), c.limits)
  {
    if run != [] {
      var before, e := run[..|run| - 1], run[|run| - 1];
      FailuresComeFromCalls(c, before);
      FailuresStep(c, After(c, before), e);
      var calls := CallsOf(c, run);
      if calls != [] && calls != CallsOf(c, before) {
        assert calls[..|calls| - 1] == CallsOf(c, before);
      }
    }
  }

  /** maxFailures * (length / m + 2), m being the smaller of window and lockout. */
  function Bound(l: Limits, lo: int, hi: int): int
    requires ValidLimits(l)
  {
    l.maxFailures * ((hi - lo) / Spacing(l) + 2)
  }

  /**
   Since the counter was last cleared, the failures counted at readings in an interval obey the throttle
   bound, as long as the readings taken under authMu do not go back; and a lockout is set exactly when
   the counter has reached the maximum.
   */
  lemma {:induction false} CodesAreThrottled(c: Config, run: seq<Event>, lo: int, hi: int)
    requires ValidLimits(c.limits) && lo <= hi && Chronological(CallsOf(c, run))
    ensures CountedIn(CallsOf(c, run), c.limits, lo, hi) <= Bound(c.limits, lo, hi)
    ensures var st := After(c, run).failures;
      st.count <= c.limits.maxFailures && (st.lockedUntil.Some? <==> st.count == c.limits.maxFailures)
  {
    var calls, st := CallsOf(c, run), After(c, run).failures;
    FailuresComeFromCalls(c, run);
    assert Throttle.Inv(st, c.limits) by { CounterIsBounded(calls, c.limits); }
    FailuresAreThrottled(calls, c.limits, lo, hi);
  }

  // ------------------------------------------------------------- across clears

  /** The run's last event is a failure that is counted at a reading in [lo, hi]. */
  predicate CountsLast(c: Config, run: seq<Event>, lo: int, hi: int)
    requires run != []
  {
    var s := After(c, run[..|run| - 1]);
    var e := run[|run| - 1];
    TwoStageLogin.Enabled(s, e) && e.Record? && Counts(s.failures, e.at, c.limits) && lo <= e.at <= hi
  }

  /** The run's last event clears the counter. */
  predicate ClearsLast(c: Config, run: seq<Event>)
    requires run != []
  {
    TwoStageLogin.Enabled(After(c, run[..|run| - 1]), run[|run| - 1]) && Clears(run[|run| - 1])
  }

  /** The failures the whole run has counted at readings in [lo, hi]. */
  function CountedInRun(c: Config, run: seq<Event>, lo: int, hi: int): nat {
    if run == [] then 0
    else CountedInRun(c, run[..|run| - 1], lo, hi) + if CountsLast(c, run, lo, hi) then 1 else 0
  }

  /** Clears between two failures counted in [lo, hi], and clears since the last of these. */
  function ClearsSoFar(c: Config, run: seq<Event>, lo: int, hi: int): (nat, nat) {
    if run == [] then (0, 0)
    else
      var (between, since) := ClearsSoFar(c, run[..|run| - 1], lo, hi);
      if CountsLast(c, run, lo, hi) then (between + since, 0)
      else if ClearsLast(c, run) && CountedInRun(c, run[..|run| - 1], lo, hi) > 0 then (between, since + 1)
      else (between, since)
  }

  /** How often the counter was cleared between two failures counted in [lo, hi]. */
  function ClearsBetween(c: Config, run: seq<Event>, lo: int, hi: int): nat { ClearsSoFar(c, run, lo, hi).0 }

  lemma {:induction false} CallsAreASuffix(c: Config, run: seq<Event>) returns (n: nat)
    ensures n <= |Readings(c, run)| && CallsOf(c, run) == Readings(c, run)[n..]
  {
    if run == [] {
      n := 0;
    } else {
      n := CallsAreASuffix(c, run[..|run| - 1]);
      if CallsOf(c, run) == [] {
        n := |Readings(c, run)|;
      }
    }
  }

  lemma CallsAreChronological(c: Config, run: seq<Event>)
    requires Chronological(Readings(c, run))
    ensures Chronological(CallsOf(c, run))
  {
    var n := CallsAreASuffix(c, run);
    var all, calls := Readings(c, run), CallsOf(c, run);
    forall i, j | 0 <= i < j < |calls|
      ensures calls[i].at <= calls[j].at
    {
      assert calls[i] == all[n + i] && calls[j] == all[n + j];
    }
  }

  lemma CountedSnoc(calls: seq<Call>, call: Call, l: Limits, lo: int, hi: int)
    ensures CountedIn(calls + [call], l, lo, hi) - CountedIn(calls, l, lo, hi)
      == if call.failure && Counts(Throttle.After(calls, l), call.at, l) && lo <= call.at <= hi then 1 else 0
  {
    assert (calls + [call])[..|calls|] == calls;
  }

  /** One event adds to the count of its segment what it adds to the count of the run. */
  lemma CountsAgree(c: Config, run: seq<Event>, lo: int, hi: int)
    requires run != []
    ensures var before := run[..|run| - 1];
      if ClearsLast(c, run)
      then !CountsLast(c, run, lo, hi) && CountedIn(CallsOf(c, run), c.limits, lo, hi) == 0
      else CountedIn(CallsOf(c, run), c.limits, lo, hi) - CountedIn(CallsOf(c, before), c.limits, lo, hi)
           == if CountsLast(c, run, lo, hi) then 1 else 0
  {
    var before, e := run[..|run| - 1], run[|run| - 1];
    FailuresComeFromCalls(c, before);
    if TwoStageLogin.Enabled(After(c, before), e) && CallOf(e).Some? {
      CountedSnoc(CallsOf(c, before), CallOf(e).value, c.limits, lo, hi);
    } else if !ClearsLast(c, run) {
      assert CallsOf(c, run) == CallsOf(c, before);
    }
  }

  lemma SegmentIsBounded(c: Config, run: seq<Event>, lo: int, hi: int)
    requires ValidLimits(c.limits) && lo <= hi && Chronological(Readings(c, run))
    ensures CountedIn(CallsOf(c, run), c.limits, lo, hi) <= Bound(c.limits, lo, hi)
  {
    CallsAreChronological(c, run);
    CodesAreThrottled(c, run, lo, hi);
  }

  /** `counted` failures in all, `segment` of them since the last clear. */
  predicate AddsUp(bound: int, counted: int, segment: int, between: int, since: int) {
    && 0 <= segment <= bound && between >= 0 && since >= 0
    && (counted == 0 ==> between == since == segment == 0)
    && (since == 0 ==> counted <= between * bound + segment)
    && (since > 0 ==> counted <= (between + 1) * bound && segment == 0)
  }

  lemma AddsUpCounting(bound: int, counted: int, segment: int, between: int, since: int)
    requires AddsUp(bound, counted, segment, between, since) && segment + 1 <= bound && counted >= 0
    ensures AddsUp(bound, counted + 1, segment + 1, between + since, 0)
  {
    assert (between + since) * bound == (between + 1) * bound + (since - 1) * bound;
    if since > 0 {
      assert (since - 1) * bound >= 0;
    }
  }

  lemma AddsUpClearing(bound: int, counted: int, segment: int, between: int, since: int)
    requires AddsUp(bound, counted, segment, between, since) && counted > 0
    ensures AddsUp(bound, counted, 0, between, since + 1)
  {
    assert (between + 1) * bound == between * bound + bound;
  }

  /** One event: it counts a failure, or clears the counter, or leaves the segment as it was. */
  lemma AddsUpStep(bound: int, counted: nat, segment: int, between: int, since: int, next: int, counts: bool, clears: bool)
    requires AddsUp(bound, counted, segment, between, since) && next <= bound && !(counts && clears)
    requires next == if clears then 0 else if counts then segment + 1 else segment
    ensures AddsUp(bound, if counts then counted + 1 else counted, next, if counts then between + since else between,
                   if counts then 0 else if clears && counted > 0 then since + 1 else since)
  {
    if counts {
      AddsUpCounting(bound, counted, segment, between, since);
    } else if clears && counted > 0 {
      AddsUpClearing(bound, counted, segment, between, since);
    }
  }

  lemma PrefixIsChronological(c: Config, run: seq<Event>)
    requires run != [] && Chronological(Readings(c, run))
    ensures Chronological(Readings(c, run[..|run| - 1]))
  {
    assert Readings(c, run[..|run| - 1]) <= Readings(c, run);
  }

  /** What the last event of a run does to the three counts. */
  lemma LastEvent(c: Config, run: seq<Event>, lo: int, hi: int) returns (counts: bool, clears: bool)
    requires run != []
    ensures var before := run[..|run| - 1];
      var (between, since) := ClearsSoFar(c, before, lo, hi);
      var counted, segment := CountedInRun(c, before, lo, hi), CountedIn(CallsOf(c, before), c.limits, lo, hi);
      && !(counts && clears)
      && CountedInRun(c, run, lo, hi) == (if counts then counted + 1 else counted)
      && CountedIn(CallsOf(c, run), c.limits, lo, hi) == (if clears then 0 else if counts then segment + 1 else segment)
      && ClearsSoFar(c, run, lo, hi) == (if counts then between + since else between,
                                         if counts then 0 else if clears && counted > 0 then since + 1 else since)
  {
    counts, clears := CountsLast(c, run, lo, hi), ClearsLast(c, run);
    CountsAgree(c, run, lo, hi);
  }

  lemma {:induction false} SegmentsAddUp(c: Config, run: seq<Event>, lo: int, hi: int)
    requires ValidLimits(c.limits) && lo <= hi && Chronological(Readings(c, run))
    ensures var (between, since) := ClearsSoFar(c, run, lo, hi);
      AddsUp(Bound(c.limits, lo, hi), CountedInRun(c, run, lo, hi), CountedIn(CallsOf(c, run), c.limits, lo, hi), between, since)
  {
    SegmentIsBounded(c, run, lo, hi);
    if run != [] {
      PrefixIsChronological(c, run);
      var before := run[..|run| - 1];
      SegmentsAddUp(c, before, lo, hi);
      var counts, clears := LastEvent(c, run, lo, hi);
      var (between, since) := ClearsSoFar(c, before, lo, hi);
      AddsUpStep(Bound(c.limits, lo, hi), CountedInRun(c, before, lo, hi), CountedIn(CallsOf(c, before), c.limits, lo, hi),
                 between, since, CountedIn(CallsOf(c, run), c.limits, lo, hi), counts, clears);
    }
  }

  lemma AddsUpBounds(bound: int, counted: int, segment: int, between: int, since: int)
    requires AddsUp(bound, counted, segment, between, since)
    ensures counted <= (between + 1) * bound
  {
    assert (between + 1) * bound == between * bound + bound;
  }

  /**
   Over a whole run, each clear of the counter between two failures counted in an interval allows one more
   bound's worth of them, and no more.
   */
  lemma {:induction false} RunsAreThrottled(c: Config, run: seq<Event>, lo: int, hi: int)
    requires ValidLimits(c.limits) && lo <= hi && Chronological(Readings(c, run))
    ensures CountedInRun(c, run, lo, hi) <= (ClearsBetween(c, run, lo, hi) + 1) * Bound(c.limits, lo, hi)
  {
    SegmentsAddUp(c, run, lo, hi);
    var (between, since) := ClearsSoFar(c, run, lo, hi);
    AddsUpBounds(Bound(c.limits, lo, hi), CountedInRun(c, run, lo, hi), CountedIn(CallsOf(c, run), c.limits, lo, hi), between, since);
  }
}
