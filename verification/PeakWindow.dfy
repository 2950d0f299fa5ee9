/**
 cmd/agent/telemetry.go:15-20, 123-130 and 145-189: the agent's network rates and their peaks over a
 sliding window. Old samples are dropped as calls go by; the window is defined over all of them.
 */
module PeakWindow {
  import opened Prelude

  /** Clock readings are in nanoseconds. */
  const SECOND := 1_000_000_000
  const NETWORK_PEAK_WINDOW := 300 * SECOND
  const MAX_NETWORK_PEAK_SAMPLES: nat := 600

  /** Byte counters of the interface that was found. */
  datatype Counters = Counters(iface: string, rx: nat, tx: nat)

  datatype Reading = Reading(at: int, counters: Counters)

  datatype Sample = Sample(at: int, rx: real, tx: real)

  datatype Metrics = Metrics(iface: string, rx: real, tx: real, rxPeak: real, txPeak: real)

  /** `prev` is None while networkPrimed is false. */
  datatype State = State(prev: Option<Reading>, peaks: seq<Sample>)

  datatype Call =
    | Report(now: int, found: Option<Counters>)
    | Policy(had: bool, has: bool)  // whether the old and the new policy show the network card

  /** Bytes per second since the previous reading, unless a counter or the clock went back. */
  function Rate(prev: Reading, now: int, c: Counters): Option<Sample> {
    var elapsed := now - prev.at;
    if elapsed > 0 && c.rx >= prev.counters.rx && c.tx >= prev.counters.tx then
      var seconds := elapsed as real / SECOND as real;
      Some(Sample(now, (c.rx - prev.counters.rx) as real / seconds, (c.tx - prev.counters.tx) as real / seconds))
    else None
  }

  predicate SameInterface(prev: Option<Reading>, c: Counters) {
    prev.Some? && prev.value.counters.iface == c.iface
  }

  function Measured(prev: Option<Reading>, now: int, c: Counters): Option<Sample> {
    if SameInterface(prev, c) then Rate(prev.value, now, c) else None
  }

  /** The samples before any is dropped. */
  function Sampled(prev: Option<Reading>, samples: seq<Sample>, now: int, c: Counters): seq<Sample> {
    if !SameInterface(prev, c) then []
    else
      var rate := Measured(prev, now, c);
      if rate.Some? then samples + [rate.value] else samples
  }

  /** Drops leading samples from before `cutoff`, up to the first that is not. */
  function DropOld(samples: seq<Sample>, cutoff: int): seq<Sample> {
    if samples != [] && samples[0].at < cutoff then DropOld(samples[1..], cutoff) else samples
  }

  function Last(samples: seq<Sample>, n: nat): seq<Sample> {
    if |samples| > n then samples[|samples| - n..] else samples
  }

  function Step(s: State, call: Call): State {
    match call
    case Policy(had, has) => if had != has then State(None, []) else s
    case Report(now, found) =>
      if found.None? then s else
      var sampled := Sampled(s.prev, s.peaks, now, found.value);
      State(Some(Reading(now, found.value)),
            Last(DropOld(sampled, now - NETWORK_PEAK_WINDOW), MAX_NETWORK_PEAK_SAMPLES))
  }

  function After(calls: seq<Call>): State {
    if calls == [] then State(None, []) else Step(After(calls[..|calls| - 1]), calls[|calls| - 1])
  }

  // ------------------------------------------------------------- the reference

  /** Every rate sample since the interface last changed or the policy reset the card. */
  function History(calls: seq<Call>): seq<Sample> {
    if calls == [] then [] else
    var before := calls[..|calls| - 1];
    match calls[|calls| - 1]
    case Policy(had, has) => if had != has then [] else History(before)
    case Report(now, found) =>
      if found.None? then History(before) else Sampled(After(before).prev, History(before), now, found.value)
  }

  function InWindow(samples: seq<Sample>, cutoff: int): seq<Sample> {
    if samples == [] then []
    else (if samples[0].at >= cutoff then [samples[0]] else []) + InWindow(samples[1..], cutoff)
  }

  /** The last samples of the window that ends at `now`. */
  function Window(calls: seq<Call>, now: int): seq<Sample> {
    Last(InWindow(History(calls), now - NETWORK_PEAK_WINDOW), MAX_NETWORK_PEAK_SAMPLES)
  }

  predicate Chronological(calls: seq<Call>) {
    forall i, j | 0 <= i < j < |calls| && calls[i].Report? && calls[j].Report? :: calls[i].now <= calls[j].now
  }

  predicate Ordered(samples: seq<Sample>) {
    forall i, j | 0 <= i < j < |samples| :: samples[i].at < samples[j].at
  }

  predicate NonNegative(samples: seq<Sample>) {
    forall i | 0 <= i < |samples| :: samples[i].rx >= 0.0 && samples[i].tx >= 0.0
  }

  // ----------------------------------------------------------------- the proof

  /** On ordered samples, both ways of dropping keep the same suffix. */
  lemma {:induction false} DropIsFilter(samples: seq<Sample>, cutoff: int)
    requires Ordered(samples)
    ensures DropOld(samples, cutoff) == InWindow(samples, cutoff)
  {
    if samples != [] {
      DropIsFilter(samples[1..], cutoff);
      if samples[0].at >= cutoff {
        assert DropOld(samples[1..], cutoff) == samples[1..] by {
          assert |samples| > 1 ==> samples[1].at >= cutoff;
        }
        assert [samples[0]] + samples[1..] == samples;
      }
    }
  }

  /** Samples that were too old earlier are too old now. */
  lemma {:induction false} DropTwice(samples: seq<Sample>, rest: seq<Sample>, earlier: int, cutoff: int)
    requires earlier <= cutoff
    ensures DropOld(DropOld(samples, earlier) + rest, cutoff) == DropOld(samples + rest, cutoff)
  {
    if samples != [] && samples[0].at < earlier {
      DropTwice(samples[1..], rest, earlier, cutoff);
      assert (samples + rest)[1..] == samples[1..] + rest;
    }
  }

  /** Leading samples do not matter when enough others follow them. */
  lemma {:induction false} TrimBeforeDrop(samples: seq<Sample>, n: nat, cutoff: int, max: nat)
    requires Ordered(samples) && n <= |samples| && (n > 0 ==> |samples| - n >= max)
    ensures Last(DropOld(samples[n..], cutoff), max) == Last(DropOld(samples, cutoff), max)
  {
    if n == 0 {
      assert samples[0..] == samples;
    } else if samples[0].at < cutoff {
      TrimBeforeDrop(samples[1..], n - 1, cutoff, max);
      assert samples[1..][n - 1..] == samples[n..];
    } else {
      assert DropOld(samples[n..], cutoff) == samples[n..];
    }
  }

  /** One call's trimming changes nothing of what the next call keeps. */
  lemma DroppedStaysDropped(samples: seq<Sample>, rest: seq<Sample>, earlier: int, cutoff: int, max: nat)
    requires Ordered(DropOld(samples, earlier) + rest) && earlier <= cutoff
    ensures Last(DropOld(Last(DropOld(samples, earlier), max) + rest, cutoff), max) == Last(DropOld(samples + rest, cutoff), max)
  {
    var recent := DropOld(samples, earlier);
    DropTwice(samples, rest, earlier, cutoff);
    var n := if |recent| > max then |recent| - max else 0;
    assert (recent + rest)[n..] == Last(recent, max) + rest;
    TrimBeforeDrop(recent + rest, n, cutoff, max);
  }

  /** The filter keeps samples in order. */
  lemma {:induction false} DropKeepsOrder(samples: seq<Sample>, cutoff: int)
    requires Ordered(samples) && NonNegative(samples)
    ensures Ordered(DropOld(samples, cutoff)) && NonNegative(DropOld(samples, cutoff))
  {
    if samples != [] && samples[0].at < cutoff {
      DropKeepsOrder(samples[1..], cutoff);
    }
  }

  ghost predicate Inv(s: State, history: seq<Sample>) {
    && Ordered(history) && NonNegative(history)
    && (s.prev.None? ==> history == [] && s.peaks == [])
    && (s.prev.Some? ==>
          && (history != [] ==> history[|history| - 1].at <= s.prev.value.at)
          && s.peaks == Last(InWindow(history, s.prev.value.at - NETWORK_PEAK_WINDOW), MAX_NETWORK_PEAK_SAMPLES))
  }

  /** The history is ordered, and every sample in it is at or before the previous reading. */
  lemma HistoryGrows(prev: Option<Reading>, history: seq<Sample>, now: int, c: Counters)
    requires Ordered(history) && NonNegative(history) && (prev.Some? ==> prev.value.at <= now)
    requires prev.Some? && history != [] ==> history[|history| - 1].at <= prev.value.at
    ensures var h := Sampled(prev, history, now, c);
      Ordered(h) && NonNegative(h) && (h != [] ==> h[|h| - 1].at <= now)
  {
    var h := Sampled(prev, history, now, c);
    forall i, j | 0 <= i < j < |h|
      ensures h[i].at < h[j].at
    {
      if j == |history| && SameInterface(prev, c) {
        assert history[i].at <= history[|history| - 1].at;
      }
    }
  }

  /** The kept samples after one more call, from those before it. */
  lemma KeptGrows(history: seq<Sample>, rest: seq<Sample>, earlier: int, cutoff: int, max: nat)
    requires Ordered(history) && Ordered(history + rest) && earlier <= cutoff
    ensures Last(DropOld(Last(InWindow(history, earlier), max) + rest, cutoff), max) == Last(InWindow(history + rest, cutoff), max)
  {
    DropIsFilter(history, earlier);
    DropIsFilter(history + rest, cutoff);
    RecentStaysOrdered(history, rest, earlier);
    DroppedStaysDropped(history, rest, earlier, cutoff, max);
  }

  /** A sample is taken, or none is, without a change of interface. */
  lemma SampledSplits(prev: Option<Reading>, samples: seq<Sample>, now: int, c: Counters)
    requires SameInterface(prev, c)
    ensures var rate := Measured(prev, now, c);
      Sampled(prev, samples, now, c) == samples + if rate.Some? then [rate.value] else []
  {}

  lemma SampledInv(s: State, history: seq<Sample>, now: int, c: Counters)
    requires Inv(s, history) && (s.prev.Some? ==> s.prev.value.at <= now)
    ensures Inv(Step(s, Report(now, Some(c))), Sampled(s.prev, history, now, c))
  {
    HistoryGrows(s.prev, history, now, c);
    if SameInterface(s.prev, c) {
      var rate := Measured(s.prev, now, c);
      SampledSplits(s.prev, history, now, c);
      SampledSplits(s.prev, s.peaks, now, c);
      KeptGrows(history, if rate.Some? then [rate.value] else [], s.prev.value.at - NETWORK_PEAK_WINDOW,
                now - NETWORK_PEAK_WINDOW, MAX_NETWORK_PEAK_SAMPLES);
    }
  }

  lemma {:induction false} RecentStaysOrdered(samples: seq<Sample>, rest: seq<Sample>, cutoff: int)
    requires Ordered(samples + rest)
    ensures Ordered(DropOld(samples, cutoff) + rest)
  {
    if samples != [] && samples[0].at < cutoff {
      assert (samples + rest)[1..] == samples[1..] + rest;
      RecentStaysOrdered(samples[1..], rest, cutoff);
    }
  }

  lemma {:induction false} InvRun(calls: seq<Call>)
    requires Chronological(calls)
    ensures Inv(After(calls), History(calls))
    ensures After(calls).prev.Some? ==>
      exists i :: 0 <= i < |calls| && calls[i].Report? && calls[i].now == After(calls).prev.value.at
  {
    if calls != [] {
      var before := calls[..|calls| - 1];
      InvRun(before);
      if After(before).prev.Some? {
        var i :| 0 <= i < |before| && before[i].Report? && before[i].now == After(before).prev.value.at;
        assert calls[i] == before[i];
      }
      var call := calls[|calls| - 1];
      if call.Report? && call.found.Some? {
        SampledInv(After(before), History(before), call.now, call.found.value);
      }
    }
  }

  /**
   After every call that found an interface, the samples that are kept are the last 600 of all rate
   samples since the interface last changed whose time lies in the last five minutes, in strict order.
   */
  lemma {:induction false} PeaksAreTheWindow(calls: seq<Call>)
    requires Chronological(calls) && calls != [] && calls[|calls| - 1].Report? && calls[|calls| - 1].found.Some?
    ensures After(calls).peaks == Window(calls, calls[|calls| - 1].now)
    ensures Ordered(After(calls).peaks) && NonNegative(After(calls).peaks)
  {
    InvRun(calls);
    WindowOf(After(calls), History(calls), calls[|calls| - 1].now);
  }

  lemma WindowOf(s: State, history: seq<Sample>, now: int)
    requires Inv(s, history) && s.prev.Some? && s.prev.value.at == now
    ensures s.peaks == Last(InWindow(history, now - NETWORK_PEAK_WINDOW), MAX_NETWORK_PEAK_SAMPLES)
    ensures Ordered(s.peaks) && NonNegative(s.peaks)
  {
    WindowIsOrdered(history, now - NETWORK_PEAK_WINDOW, MAX_NETWORK_PEAK_SAMPLES);
  }

  lemma WindowIsOrdered(samples: seq<Sample>, cutoff: int, max: nat)
    requires Ordered(samples) && NonNegative(samples)
    ensures Ordered(Last(InWindow(samples, cutoff), max)) && NonNegative(Last(InWindow(samples, cutoff), max))
  {
    DropIsFilter(samples, cutoff);
    DropKeepsOrder(samples, cutoff);
  }

  // ------------------------------------------------------ the state as mutated

  function RX(samples: seq<Sample>): seq<real> { seq(|samples|, i requires 0 <= i < |samples| => samples[i].rx) }

  function TX(samples: seq<Sample>): seq<real> { seq(|samples|, i requires 0 <= i < |samples| => samples[i].tx) }

  /** `peak` is the largest of the rates, or 0 when there are none. */
  predicate IsPeak(peak: real, rates: seq<real>) {
    if rates == [] then peak == 0.0 else peak in rates && forall i | 0 <= i < |rates| :: rates[i] <= peak
  }

  class TelemetryState {
    var networkPrimed: bool
    var networkPrev: Reading
    var networkPeaks: seq<Sample>
    ghost var calls: seq<Call>

    ghost function Value(): State
      reads this
    {
      State(if networkPrimed then Some(networkPrev) else None, networkPeaks)
    }

    ghost predicate Valid()
      reads this
    {
      Chronological(calls) && Value() == After(calls)
    }

    constructor ()
      ensures Valid() && calls == []
    {
      networkPrimed, networkPrev, networkPeaks := false, Reading(0, Counters("", 0, 0)), [];
      calls := [];
    }

    /** The network part of resetChangedCollectors. */
    method ResetChangedCollectors(had: bool, has: bool)
      requires Valid()
      modifies this
      ensures Valid() && calls == old(calls) + [Policy(had, has)]
    {
      if had != has {
        networkPrimed, networkPrev, networkPeaks := false, Reading(0, Counters("", 0, 0)), [];
      }
      calls := calls + [Policy(had, has)];
      assert calls[..|calls| - 1] == old(calls);
    }

    method DropOldSamples(cutoff: int)
      modifies this`networkPeaks
      ensures networkPeaks == Last(DropOld(old(networkPeaks), cutoff), MAX_NETWORK_PEAK_SAMPLES)
    {
      var first := 0;
      while first < |networkPeaks| && networkPeaks[first].at < cutoff
        invariant first <= |networkPeaks|
        invariant DropOld(networkPeaks, cutoff) == DropOld(networkPeaks[first..], cutoff)
      {
        assert networkPeaks[first..][1..] == networkPeaks[first + 1..];
        first := first + 1;
      }
      if first > 0 {
        networkPeaks := networkPeaks[first..];
      }
      if |networkPeaks| > MAX_NETWORK_PEAK_SAMPLES {
        networkPeaks := networkPeaks[|networkPeaks| - MAX_NETWORK_PEAK_SAMPLES..];
      }
    }

    method Peaks() returns (rxPeak: real, txPeak: real)
      requires NonNegative(networkPeaks)
      ensures IsPeak(rxPeak, RX(networkPeaks)) && IsPeak(txPeak, TX(networkPeaks))
    {
      rxPeak, txPeak := 0.0, 0.0;
      ghost var rx, tx := RX(networkPeaks), TX(networkPeaks);
      for i := 0 to |networkPeaks|
        invariant rxPeak >= 0.0 && txPeak >= 0.0
        invariant if i == 0 then rxPeak == txPeak == 0.0 else rxPeak in rx && txPeak in tx
        invariant forall j | 0 <= j < i :: rx[j] <= rxPeak && tx[j] <= txPeak
      {
        var sample := networkPeaks[i];
        assert rx[i] == sample.rx && tx[i] == sample.tx;
        if sample.rx > rxPeak {
          rxPeak := sample.rx;
        }
        if sample.tx > txPeak {
          txPeak := sample.tx;
        }
      }
    }

    /** Takes the rates since the previous reading and trims the samples. */
    method Record(now: int, c: Counters) returns (rx: real, tx: real)
      modifies this`networkPrimed, this`networkPrev, this`networkPeaks
      ensures Value() == Step(old(Value()), Report(now, Some(c)))
      ensures var rate := Measured(old(Value()).prev, now, c);
        if rate.Some? then rate.value == Sample(now, rx, tx) else rx == tx == 0.0
    {
      rx, tx := 0.0, 0.0;
      if networkPrimed && networkPrev.counters.iface == c.iface {
        var elapsed := now - networkPrev.at;
        if elapsed > 0 && c.rx >= networkPrev.counters.rx && c.tx >= networkPrev.counters.tx {
          var seconds := elapsed as real / SECOND as real;
          rx := (c.rx - networkPrev.counters.rx) as real / seconds;
          tx := (c.tx - networkPrev.counters.tx) as real / seconds;
          networkPeaks := networkPeaks + [Sample(now, rx, tx)];
        }
      } else {
        networkPeaks := [];
      }
      networkPrev := Reading(now, c);
      networkPrimed := true;
      DropOldSamples(now - NETWORK_PEAK_WINDOW);
    }

    /** `found` is what networkCounters read, None when there is no interface to report. */
    method Network(now: int, found: Option<Counters>) returns (m: Metrics)
      requires Valid() && Chronological(calls + [Report(now, found)])
      modifies this
      ensures Valid() && calls == old(calls) + [Report(now, found)]
      ensures found.None? ==> m == Metrics("", 0.0, 0.0, 0.0, 0.0)
      ensures found.Some? ==>
        && m.iface == found.value.iface
        && IsPeak(m.rxPeak, RX(Window(calls, now))) && IsPeak(m.txPeak, TX(Window(calls, now)))
        && var rate := Measured(After(old(calls)).prev, now, found.value);
           if rate.Some? then rate.value == Sample(now, m.rx, m.tx) else m.rx == m.tx == 0.0
    {
      calls := calls + [Report(now, found)];
      assert calls[..|calls| - 1] == old(calls);
      if found.None? {
        return Metrics("", 0.0, 0.0, 0.0, 0.0);
      }
      var rx, tx := Record(now, found.value);
      PeaksAreTheWindow(calls);
      var rxPeak, txPeak := Peaks();
      return Metrics(found.value.iface, rx, tx, rxPeak, txPeak);
    }
  }
}
