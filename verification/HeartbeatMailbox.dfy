/**
 The heartbeat mailbox of one agent connection (internal/server/server.go:92-94, 228-235, 453 and
 516-551): a channel of capacity one between the connection's reader loop, the only producer, and the
 goroutine that writes heartbeats to the database. A step is one select; done may close at any time.
 */
module HeartbeatMailbox {
  import opened Prelude

  type Heartbeat = string

  /** Where queueHeartbeat stands with its heartbeat. */
  datatype Producer =
    | Idle
    | Open(h: Heartbeat)     // done was open
    | Blocked(h: Heartbeat)  // the first send found the mailbox full
    | Drained(h: Heartbeat)  // about to send again

  /** `box` is the channel. The last five fields record history; `defaulted` counts uses of the last default. */
  datatype State = State(
    box: seq<Heartbeat>, done: bool, producer: Producer, writing: bool,
    queued: seq<Heartbeat>, taken: seq<Heartbeat>, replaced: nat, refused: nat, defaulted: nat)

  const EMPTY := State([], false, Idle, true, [], [], 0, 0, 0)

  datatype Event =
    | Queue(h: Heartbeat) | Send | Drain | Resend(seesDone: bool)  // queueHeartbeat
    | Take | Quit                                                  // runHeartbeatWriter
    | Close

  predicate Enabled(s: State, e: Event) {
    match e
    case Queue(_) => s.producer.Idle?
    case Send => s.producer.Open?
    case Drain => s.producer.Blocked?
    case Resend(_) => s.producer.Drained?
    case Take => s.writing && s.box != []
    case Quit => s.writing && s.done
    case Close => true
  }

  function Step(s: State, e: Event): State {
    if !Enabled(s, e) then s else
    match e
    case Queue(h) =>
      var offered := s.(queued := s.queued + [h]);
      if s.done then offered.(refused := s.refused + 1) else offered.(producer := Open(h))
    case Send =>
      if s.box == [] then s.(box := [s.producer.h], producer := Idle) else s.(producer := Blocked(s.producer.h))
    case Drain =>
      s.(box := [], replaced := s.replaced + |s.box|, producer := Drained(s.producer.h))
    case Resend(seesDone) =>
      // with several cases ready, select takes any of them
      var idle := s.(producer := Idle);
      if s.done && (seesDone || s.box != []) then idle.(refused := s.refused + 1)
      else if s.box == [] then idle.(box := [s.producer.h])
      else idle.(defaulted := s.defaulted + 1)
    case Take => s.(box := s.box[1..], taken := s.taken + [s.box[0]])
    case Quit => s.(writing := false)
    case Close => s.(done := true)
  }

  function After(run: seq<Event>): State {
    if run == [] then EMPTY else Step(After(run[..|run| - 1]), run[|run| - 1])
  }

  // -------------------------------------------------------------- subsequences

  /** `a` is `b` with some elements left out. */
  predicate Subsequence<T(==)>(a: seq<T>, b: seq<T>) {
    if a == [] then true
    else if b == [] then false
    else if a[|a| - 1] == b[|b| - 1] then Subsequence(a[..|a| - 1], b[..|b| - 1])
    else Subsequence(a, b[..|b| - 1])
  }

  /** At these strictly increasing places, `b` holds the elements of `a`. */
  predicate Places<T(==)>(at: seq<nat>, a: seq<T>, b: seq<T>) {
    && |at| == |a|
    && (forall i | 0 <= i < |at| :: at[i] < |b| && b[at[i]] == a[i])
    && (forall i, j | 0 <= i < j < |at| :: at[i] < at[j])
  }

  lemma {:induction false} SubsequenceHasPlaces<T>(a: seq<T>, b: seq<T>) returns (at: seq<nat>)
    requires Subsequence(a, b)
    ensures Places(at, a, b)
  {
    if a == [] {
      at := [];
    } else if a[|a| - 1] == b[|b| - 1] {
      at := SubsequenceHasPlaces(a[..|a| - 1], b[..|b| - 1]);
      at := at + [|b| - 1];
    } else {
      at := SubsequenceHasPlaces(a, b[..|b| - 1]);
    }
  }

  lemma {:induction false} DropLast<T>(a: seq<T>, b: seq<T>)
    requires Subsequence(a, b) && a != []
    ensures Subsequence(a[..|a| - 1], b)
  {
    var rest := b[..|b| - 1];
    if a[|a| - 1] == b[|b| - 1] {
      if |a| > 1 && a[|a| - 2] == b[|b| - 1] {
        DropLast(a[..|a| - 1], rest);
      }
    } else {
      DropLast(a, rest);
      if |a| > 1 && a[|a| - 2] == b[|b| - 1] {
        DropLast(a[..|a| - 1], rest);
      }
    }
  }

  lemma SkipLast<T>(a: seq<T>, b: seq<T>, x: T)
    requires Subsequence(a, b)
    ensures Subsequence(a, b + [x])
  {
    assert (b + [x])[..|b|] == b;
    if a != [] && a[|a| - 1] == x {
      DropLast(a, b);
    }
  }

  lemma MatchLast<T>(a: seq<T>, b: seq<T>, x: T)
    requires Subsequence(a, b)
    ensures Subsequence(a + [x], b + [x])
  {
    assert (a + [x])[..|a|] == a && (b + [x])[..|b|] == b;
  }

  // ---------------------------------------------------------------- invariant

  /** The heartbeats queued by calls that have returned. */
  function Settled(s: State): seq<Heartbeat> {
    if s.producer.Idle? || s.queued == [] then s.queued else s.queued[..|s.queued| - 1]
  }

  predicate Inv(s: State) {
    && |s.box| <= 1
    && (!s.producer.Idle? ==> s.queued != [] && s.queued[|s.queued| - 1] == s.producer.h)
    && (s.producer.Drained? ==> s.box == [])
    && s.defaulted == 0
    && Subsequence(s.taken + s.box, Settled(s))
    && (s.producer.Idle? && !s.done && s.queued != [] ==>
          s.taken + s.box != [] && (s.taken + s.box)[|s.taken + s.box| - 1] == s.queued[|s.queued| - 1])
    && |s.queued| == |s.taken| + |s.box| + s.replaced + s.refused + (if s.producer.Idle? then 0 else 1)
  }

  lemma InvQueue(s: State, h: Heartbeat)
    requires Inv(s) && s.producer.Idle?
    ensures Inv(Step(s, Queue(h)))
  {
    var t := Step(s, Queue(h));
    if s.done {
      SkipLast(s.taken + s.box, s.queued, h);
    } else {
      assert Settled(t) == s.queued;
    }
  }

  lemma InvDrain(s: State)
    requires Inv(s) && s.producer.Blocked?
    ensures Inv(Step(s, Drain))
  {
    var t := Step(s, Drain);
    assert t.taken + t.box == s.taken && Settled(t) == Settled(s);
    TakenIsSubsequence(s);
  }

  lemma TakenIsSubsequence(s: State)
    requires Inv(s)
    ensures Subsequence(s.taken, Settled(s))
  {
    if s.box == [] {
      assert s.taken + s.box == s.taken;
    } else {
      DropLast(s.taken + s.box, Settled(s));
      assert (s.taken + s.box)[..|s.taken|] == s.taken;
    }
  }

  /** A call that ends by putting its heartbeat into the box. */
  lemma InvPut(s: State)
    requires Inv(s) && !s.producer.Idle? && s.box == []
    ensures Inv(s.(box := [s.producer.h], producer := Idle))
  {
    assert s.queued == Settled(s) + [s.producer.h];
    assert s.taken + s.box == s.taken;
    MatchLast(s.taken, Settled(s), s.producer.h);
  }

  /** A call that gives up because done has closed. */
  lemma InvRefuse(s: State)
    requires Inv(s) && !s.producer.Idle? && s.done
    ensures Inv(s.(producer := Idle, refused := s.refused + 1))
  {
    assert s.queued == Settled(s) + [s.producer.h];
    SkipLast(s.taken + s.box, Settled(s), s.producer.h);
  }

  lemma InvTake(s: State)
    requires Inv(s) && Enabled(s, Take)
    ensures Inv(Step(s, Take))
  {
    assert (s.taken + [s.box[0]]) + s.box[1..] == s.taken + s.box;
  }

  lemma InvSend(s: State)
    requires Inv(s) && Enabled(s, Send)
    ensures Inv(Step(s, Send))
  {
    if s.box == [] {
      InvPut(s);
    } else {
      var t := Step(s, Send);
      assert t.taken + t.box == s.taken + s.box && Settled(t) == Settled(s);
    }
  }

  lemma InvResend(s: State, seesDone: bool)
    requires Inv(s) && Enabled(s, Resend(seesDone))
    ensures Inv(Step(s, Resend(seesDone)))
  {
    if s.done && seesDone {
      InvRefuse(s);
    } else {
      InvPut(s);
    }
  }

  lemma InvEnd(s: State, e: Event)
    requires Inv(s) && Enabled(s, e) && (e.Quit? || e.Close?)
    ensures Inv(Step(s, e))
  {
    var t := Step(s, e);
    assert t.taken + t.box == s.taken + s.box && Settled(t) == Settled(s);
  }

  lemma InvStep(s: State, e: Event)
    requires Inv(s)
    ensures Inv(Step(s, e))
  {
    if Enabled(s, e) {
      match e
      case Queue(h) => InvQueue(s, h);
      case Send => InvSend(s);
      case Drain => InvDrain(s);
      case Resend(seesDone) => InvResend(s, seesDone);
      case Take => InvTake(s);
      case _ => InvEnd(s, e);
    }
  }

  lemma {:induction false} InvRun(run: seq<Event>)
    ensures Inv(After(run))
  {
    if run != [] {
      InvRun(run[..|run| - 1]);
      InvStep(After(run[..|run| - 1]), run[|run| - 1]);
    }
  }

  // -------------------------------------------------------------- main results

  /** The writer takes heartbeats in the order they were queued, each at most once. */
  lemma {:induction false} TakenInOrder(run: seq<Event>) returns (at: seq<nat>)
    ensures Places(at, After(run).taken, After(run).queued)
  {
    var s := After(run);
    InvRun(run);
    TakenIsSubsequence(s);
    at := SubsequenceHasPlaces(s.taken, Settled(s));
  }

  /**
   With one producer the mailbox never refuses a heartbeat of an open connection: whenever the second
   send is reached the box is empty, so the last default is never taken.
   */
  lemma {:induction false} DefaultIsUnreachable(run: seq<Event>)
    ensures After(run).defaulted == 0 && |After(run).box| <= 1
    ensures After(run).producer.Drained? ==> After(run).box == []
  {
    InvRun(run);
  }

  /** Between calls, while the connection is open, the newest heartbeat waits in the box or was taken last. */
  lemma {:induction false} NewestIsKept(run: seq<Event>)
    requires var s := After(run); s.producer.Idle? && !s.done && s.queued != []
    ensures var s := After(run); var newest := s.queued[|s.queued| - 1];
      s.box == [newest] || (s.box == [] && s.taken != [] && s.taken[|s.taken| - 1] == newest)
  {
    var s := After(run);
    InvRun(run);
    assert s.box == [] ==> s.taken + s.box == s.taken;
  }

  /** Every queued heartbeat is taken, waiting, replaced by a newer one, or refused because done had closed. */
  lemma {:induction false} HeartbeatsAreConserved(run: seq<Event>)
    ensures var s := After(run);
      && |s.queued| == |s.taken| + |s.box| + s.replaced + s.refused + (if s.producer.Idle? then 0 else 1)
      && (s.refused > 0 ==> s.done)
  {
    InvRun(run);
    RefusedOnlyWhenDone(run);
  }

  lemma {:induction false} RefusedOnlyWhenDone(run: seq<Event>)
    ensures After(run).refused > 0 ==> After(run).done
  {
    if run != [] {
      RefusedOnlyWhenDone(run[..|run| - 1]);
    }
  }

  // --------------------------------------------------- the connection as mutated

  function Extend(s: State, run: seq<Event>): State {
    if run == [] then s else Step(Extend(s, run[..|run| - 1]), run[|run| - 1])
  }

  /** What other goroutines do between two of the producer's selects. */
  datatype Meanwhile = Nothing | WriterTakes | WriterQuits | ConnectionCloses

  /** `model` is the machine's state, and `trace` the steps that led to it from EMPTY. */
  class AgentConn {
    var heartbeats: seq<Heartbeat>
    var done: bool
    var writing: bool
    ghost var model: State
    ghost var trace: seq<Event>

    ghost predicate Valid()
      reads this
    {
      model == After(trace) && heartbeats == model.box && done == model.done && writing == model.writing
    }

    constructor ()
      ensures Valid() && model == EMPTY
    {
      heartbeats, done, writing := [], false, true;
      model, trace := EMPTY, [];
    }

    ghost method Follow(e: Event)
      requires model == After(trace)
      modifies this`model, this`trace
      ensures model == Step(old(model), e) && trace == old(trace) + [e] && model == After(trace)
    {
      model, trace := Step(model, e), trace + [e];
    }

    method Interfere(m: Meanwhile)
      requires Valid()
      modifies this
      ensures Valid() && old(trace) <= trace && model.producer == old(model.producer) && model.queued == old(model.queued)
    {
      match m
      case Nothing =>
      case WriterTakes =>
        if writing && heartbeats != [] {
          heartbeats := heartbeats[1..];
          Follow(Take);
        }
      case WriterQuits =>
        if writing && done {
          writing := false;
          Follow(Quit);
        }
      case ConnectionCloses =>
        done := true;
        Follow(Close);
    }

    /** The last two selects; `picks` settles one whose send and done cases are both ready. */
    method Replace(heartbeat: Heartbeat, third: Meanwhile, picks: bool)
      requires Valid() && model.producer == Blocked(heartbeat)
      modifies this
      ensures Valid() && model.producer.Idle? && old(trace) <= trace && model.queued == old(model.queued)
      ensures !done ==> heartbeats == [heartbeat]
    {
      heartbeats := [];
      Follow(Drain);
      Interfere(third);
      DefaultIsUnreachable(trace);
      if !(done && picks) {
        heartbeats := [heartbeat];
      }
      Follow(Resend(picks));
    }

    method QueueHeartbeat(heartbeat: Heartbeat, first: Meanwhile, second: Meanwhile, third: Meanwhile, picks: bool)
      requires Valid() && model.producer.Idle?
      modifies this
      ensures Valid() && model.producer.Idle? && old(trace) <= trace
      ensures model.queued == old(model.queued) + [heartbeat]
      ensures !done ==> heartbeats == [heartbeat]
    {
      Follow(Queue(heartbeat));
      if done {
        return;
      }
      Interfere(first);
      if heartbeats == [] {
        heartbeats := [heartbeat];
        Follow(Send);
        return;
      }
      Follow(Send);
      Interfere(second);
      Replace(heartbeat, third, picks);
    }
  }
}
