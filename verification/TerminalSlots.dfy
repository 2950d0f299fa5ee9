/**
 Terminal sessions of the agent (cmd/agent/main.go:46-113, 383-397, 423-429 and 533-668). Steps are
 critical sections of termMu, operations on the slot and input channels, and what the shells do, in
 any interleaving of the connection's reader loop, the open attempts and the input writers.
 */
module TerminalSlots {
  import opened Prelude

  const MAX_CONCURRENT_TERMINALS := 4
  const TERM_INPUT_QUEUE_DEPTH := 16
  const MAX_TERM_INPUT_BYTES := 64 * 1024

  type Data = seq<byte>

  /** openTerm's program points; Closed is a failed attempt whose deferred release has run. */
  datatype Point = Opening | Failed | Closed | Started | Reading | Finishing | Done

  /** writeInput; Broken lost its data to a write error. */
  datatype Writer = Idle | Writing(data: Data) | Broken(data: Data) | Gone

  /**
   One attempt to open a terminal. `released` is the once-flag of its release function, `receives`
   counts its receives from the slot channel, and `stops` the calls of stop() still to come.
   */
  datatype Term = Term(
    id: string, point: Point, released: bool, receives: nat, stopped: bool, stops: nat,
    queue: seq<Data>, accepted: seq<Data>, written: seq<Data>, writer: Writer)

  /** The reader loop, between looking a terminal up and acting on it. */
  datatype Reader = Ready | Typing(k: nat, data: Data) | Overflowing(k: nat)

  /** `tokens` is the length of the slot channel. */
  datatype State = State(tokens: nat, list: seq<Term>, terms: map<string, nat>, reader: Reader)

  const EMPTY := State(0, [], map[], Ready)

  datatype Event =
    // reader loop and teardown
    | Start(id: string) | Look(id: string, data: Data) | Type(seesStop: bool) | Overflow | Close(id: string) | CloseAll
    // attempt k
    | Open(k: nat, ok: bool) | GiveBack(k: nat) | Register(k: nat) | ReadFails(k: nat) | Finish(k: nat)
    // input writer of k
    | Take(k: nat) | Write(k: nat, ok: bool) | Quit(k: nat)
    // a pending call of stop()
    | Stop(k: nat)

  predicate Registered(p: Point) { p.Reading? || p.Finishing? || p.Done? }

  predicate IsOpen(p: Point) { p.Reading? || p.Finishing? }

  /** A receive from an empty slot channel would block. */
  predicate CanRelease(s: State, t: Term) { t.released || s.tokens > 0 }

  predicate Enabled(s: State, e: Event) {
    match e
    case Start(_) => s.reader.Ready?
    case Look(_, _) => s.reader.Ready?
    case Type(_) => s.reader.Typing? && s.reader.k < |s.list|
    case Overflow => s.reader.Overflowing? && s.reader.k < |s.list|
    case Close(_) => s.reader.Ready?
    case CloseAll => true
    case Open(k, _) => k < |s.list| && s.list[k].point.Opening?
    case GiveBack(k) => k < |s.list| && s.list[k].point.Failed? && CanRelease(s, s.list[k])
    case Register(k) => k < |s.list| && s.list[k].point.Started?
    case ReadFails(k) => k < |s.list| && s.list[k].point.Reading?
    case Finish(k) => k < |s.list| && s.list[k].point.Finishing?
    case Take(k) => k < |s.list| && Registered(s.list[k].point) && s.list[k].writer.Idle? && s.list[k].queue != []
    case Write(k, _) => k < |s.list| && s.list[k].writer.Writing?
    case Quit(k) => k < |s.list| && Registered(s.list[k].point) && s.list[k].writer.Idle? && s.list[k].stopped
    case Stop(k) => k < |s.list| && s.list[k].stops > 0 && (s.list[k].stopped || CanRelease(s, s.list[k]))
  }

  function Set(s: State, k: nat, t: Term): State
    requires k < |s.list|
  {
    s.(list := s.list[k := t])
  }

  /** releaseSlot's function: the first call gives the token back. */
  function Released(s: State, k: nat): State
    requires k < |s.list| && CanRelease(s, s.list[k])
  {
    var t := s.list[k];
    if t.released then s else Set(s, k, t.(released := true, receives := t.receives + 1)).(tokens := s.tokens - 1)
  }

  /** Someone is about to call stop() on terminal k. */
  function Doomed(s: State, k: nat): State
    requires k < |s.list|
  {
    Set(s, k, s.list[k].(stops := s.list[k].stops + 1))
  }

  predicate Mapped(s: State, k: nat)
    requires k < |s.list|
  {
    s.list[k].id in s.terms && s.terms[s.list[k].id] == k
  }

  /** Takes the terminal out of the table if it is still the one mapped. */
  function Unmapped(s: State, k: nat): State
    requires k < |s.list|
  {
    if Mapped(s, k) then s.(terms := s.terms - {s.list[k].id}) else s
  }

  function NewTerm(id: string): Term { Term(id, Opening, false, 0, false, 0, [], [], [], Idle) }

  function Registering(s: State, k: nat): State
    requires k < |s.list|
  {
    var id := s.list[k].id;
    var replaced := if id in s.terms && s.terms[id] < |s.list| then Doomed(s, s.terms[id]) else s;
    Set(replaced, k, replaced.list[k].(point := Reading)).(terms := s.terms[id := k])
  }

  function Closing(s: State, id: string): State {
    if id in s.terms && s.terms[id] < |s.list| then Doomed(s, s.terms[id]).(terms := s.terms - {id}) else s
  }

  function ClosingAll(s: State): State {
    s.(terms := map[],
       list := seq(|s.list|, k requires 0 <= k < |s.list| =>
         if Mapped(s, k) then s.list[k].(stops := s.list[k].stops + 1) else s.list[k]))
  }

  function Finished(s: State, k: nat): State
    requires k < |s.list|
  {
    var next := Doomed(Unmapped(s, k), k);
    Set(next, k, next.list[k].(point := Done))
  }

  /** enqueueInput, after the size check. */
  predicate Accepts(t: Term, data: Data, seesStop: bool) {
    |data| <= MAX_TERM_INPUT_BYTES && !(t.stopped && seesStop) && |t.queue| < TERM_INPUT_QUEUE_DEPTH
  }

  function Stopped(s: State, k: nat): State
    requires k < |s.list| && s.list[k].stops > 0 && (s.list[k].stopped || CanRelease(s, s.list[k]))
  {
    var called := Set(s, k, s.list[k].(stops := s.list[k].stops - 1, stopped := true));
    if s.list[k].stopped then called else Released(called, k)
  }

  function Step(s: State, e: Event): State {
    if !Enabled(s, e) then s else
    match e
    case Start(id) =>
      if s.tokens < MAX_CONCURRENT_TERMINALS then s.(tokens := s.tokens + 1, list := s.list + [NewTerm(id)]) else s
    case Look(id, data) =>
      if id in s.terms && data != [] then s.(reader := Typing(s.terms[id], data)) else s
    case Type(seesStop) =>
      var k, data := s.reader.k, s.reader.data;
      var t := s.list[k];
      if Accepts(t, data, seesStop)
      then Set(s, k, t.(queue := t.queue + [data], accepted := t.accepted + [data])).(reader := Ready)
      else s.(reader := Overflowing(k))
    case Overflow =>
      var k := s.reader.k;
      (if Mapped(s, k) then Doomed(Unmapped(s, k), k) else s).(reader := Ready)
    case Close(id) => Closing(s, id)
    case CloseAll => ClosingAll(s)
    case Open(k, ok) => Set(s, k, s.list[k].(point := if ok then Started else Failed))
    case GiveBack(k) => var next := Released(s, k); Set(next, k, next.list[k].(point := Closed))
    case Register(k) => Registering(s, k)
    case ReadFails(k) => Set(s, k, s.list[k].(point := Finishing))
    case Finish(k) => Finished(s, k)
    case Take(k) =>
      var t := s.list[k];
      Set(s, k, t.(writer := Writing(t.queue[0]), queue := t.queue[1..]))
    case Write(k, ok) =>
      var t := s.list[k];
      if ok then Set(s, k, t.(writer := Idle, written := t.written + [t.writer.data]))
      else Set(s, k, t.(writer := Broken(t.writer.data), stops := t.stops + 1))
    case Quit(k) => Set(s, k, s.list[k].(writer := Gone))
    case Stop(k) => Stopped(s, k)
  }

  function After(run: seq<Event>): State {
    if run == [] then EMPTY else Step(After(run[..|run| - 1]), run[|run| - 1])
  }

  // ---------------------------------------------------------------- invariant

  function InFlight(w: Writer): seq<Data> {
    if w.Writing? || w.Broken? then [w.data] else []
  }

  /** stop() has run, or is about to. */
  predicate Stopping(t: Term) { t.stopped || t.stops > 0 }

  predicate GoodTerm(t: Term) {
    && (t.released <==> t.stopped || t.point.Closed?)
    && t.receives == (if t.released then 1 else 0)
    && (!Registered(t.point) ==> !Stopping(t) && t.writer.Idle? && t.queue == [] && t.accepted == [])
    && (t.point.Done? || t.writer.Broken? ==> Stopping(t))
    && |t.queue| <= TERM_INPUT_QUEUE_DEPTH
    && t.accepted == t.written + InFlight(t.writer) + t.queue
  }

  function Holds(): Term -> bool { (t: Term) => !t.released }

  /** The slot channel holds one token for each attempt that has not released its slot. */
  predicate Conserved(s: State) {
    s.tokens == Count(Holds(), s.list) && s.tokens <= MAX_CONCURRENT_TERMINALS
  }

  /** Only open terminals are mapped, each under its own id; an open one that is not is being stopped. */
  predicate Indexed(list: seq<Term>, terms: map<string, nat>) {
    && (forall id | id in terms ::
          && terms[id] < |list| && list[terms[id]].id == id
          && IsOpen(list[terms[id]].point))
    && (forall k | 0 <= k < |list| && IsOpen(list[k].point) && !Stopping(list[k]) ::
          list[k].id in terms && terms[list[k].id] == k)
  }

  predicate Inv(s: State) {
    && Conserved(s)
    && (forall k | 0 <= k < |s.list| :: GoodTerm(s.list[k]))
    && Indexed(s.list, s.terms)
    && (!s.reader.Ready? ==> s.reader.k < |s.list| && Registered(s.list[s.reader.k].point))
  }

  lemma CountUpdate(list: seq<Term>, k: nat, t: Term)
    requires k < |list|
    ensures Count(Holds(), list[k := t]) ==
      Count(Holds(), list) - (if list[k].released then 0 else 1) + (if t.released then 0 else 1)
  {
    var before, rest := list[..k], list[k + 1..];
    assert list == before + ([list[k]] + rest) && list[k := t] == before + ([t] + rest);
    CountAppend(Holds(), before, [list[k]] + rest);
    CountAppend(Holds(), before, [t] + rest);
    assert ([list[k]] + rest)[1..] == rest && ([t] + rest)[1..] == rest;
  }

  lemma {:induction false} CountSame(a: seq<Term>, b: seq<Term>)
    requires |a| == |b| && forall k | 0 <= k < |a| :: a[k].released == b[k].released
    ensures Count(Holds(), a) == Count(Holds(), b)
  {
    if a != [] {
      CountSame(a[1..], b[1..]);
    }
  }

  /** A terminal that is not put on or taken off the table, and is not spared a stop it was promised. */
  predicate Steady(t: Term, u: Term) {
    && u.id == t.id && (Registered(u.point) <==> Registered(t.point)) && (IsOpen(u.point) <==> IsOpen(t.point))
    && (Stopping(t) ==> Stopping(u))
  }

  lemma IndexedSet(list: seq<Term>, terms: map<string, nat>, k: nat, t: Term)
    requires Indexed(list, terms) && k < |list| && Steady(list[k], t)
    ensures Indexed(list[k := t], terms)
  {}

  /** The slot channel after one terminal has changed: its own release takes one token. */
  function TokensAfter(s: State, k: nat, t: Term): int
    requires k < |s.list|
  {
    s.tokens - if t.released && !s.list[k].released then 1 else 0
  }

  lemma ConservedSet(s: State, k: nat, t: Term)
    requires Conserved(s) && k < |s.list| && (s.list[k].released ==> t.released)
    ensures TokensAfter(s, k, t) >= 0 && Conserved(Set(s, k, t).(tokens := TokensAfter(s, k, t)))
    ensures !s.list[k].released ==> s.tokens > 0
  {
    CountUpdate(s.list, k, t);
    CountUpdate(s.list, k, s.list[k].(released := true));
  }

  lemma InvSet(s: State, k: nat, t: Term)
    requires Inv(s) && k < |s.list| && GoodTerm(t) && Steady(s.list[k], t) && (s.list[k].released ==> t.released)
    ensures TokensAfter(s, k, t) >= 0 && Inv(Set(s, k, t).(tokens := TokensAfter(s, k, t)))
  {
    ConservedSet(s, k, t);
    IndexedSet(s.list, s.terms, k, t);
  }

  /** Taking a mapped terminal off the table means stopping it. */
  lemma InvTakeOff(s: State, k: nat, t: Term)
    requires Inv(s) && k < |s.list| && Mapped(s, k) && GoodTerm(t) && t.id == s.list[k].id
    requires t.released == s.list[k].released && Stopping(t) && Registered(t.point)
    ensures Inv(Set(s, k, t).(terms := s.terms - {t.id}))
  {
    ConservedSet(s, k, t);
    IndexedTakeOff(s, k, t);
  }

  lemma IndexedTakeOff(s: State, k: nat, t: Term)
    requires Indexed(s.list, s.terms) && k < |s.list| && Mapped(s, k) && t.id == s.list[k].id && Stopping(t)
    ensures Indexed(s.list[k := t], s.terms - {t.id})
  {}

  /** Putting a started terminal on the table, under an id that is free. */
  lemma InvPutOn(s: State, k: nat)
    requires Inv(s) && k < |s.list| && s.list[k].point.Started? && s.list[k].id !in s.terms
    ensures Inv(Set(s, k, s.list[k].(point := Reading)).(terms := s.terms[s.list[k].id := k]))
  {
    ConservedSet(s, k, s.list[k].(point := Reading));
  }

  lemma InvStart(s: State, id: string)
    requires Inv(s) && s.reader.Ready?
    ensures Inv(Step(s, Start(id)))
  {
    CountSnoc(Holds(), s.list, NewTerm(id));
  }

  lemma InvRegister(s: State, k: nat)
    requires Inv(s) && k < |s.list| && s.list[k].point.Started?
    ensures Inv(Registering(s, k))
  {
    var id := s.list[k].id;
    if id in s.terms {
      var prior := s.terms[id];
      assert prior != k;
      var cleared := Doomed(s, prior).(terms := s.terms - {id});
      InvTakeOff(s, prior, s.list[prior].(stops := s.list[prior].stops + 1));
      InvPutOn(cleared, k);
      assert cleared.terms[id := k] == s.terms[id := k];
    } else {
      InvPutOn(s, k);
    }
  }

  lemma InvClose(s: State, id: string)
    requires Inv(s)
    ensures Inv(Closing(s, id))
  {
    if id in s.terms {
      var k := s.terms[id];
      InvTakeOff(s, k, s.list[k].(stops := s.list[k].stops + 1));
    }
  }

  lemma InvCloseAll(s: State)
    requires Inv(s)
    ensures Inv(ClosingAll(s))
  {
    var t := ClosingAll(s);
    CountSame(s.list, t.list);
    forall k | 0 <= k < |t.list|
      ensures GoodTerm(t.list[k]) && (IsOpen(t.list[k].point) ==> Stopping(t.list[k]))
    {
      assert GoodTerm(s.list[k]);
    }
  }

  lemma InvFinish(s: State, k: nat)
    requires Inv(s) && k < |s.list| && s.list[k].point.Finishing?
    ensures Inv(Finished(s, k))
  {
    var t := s.list[k].(stops := s.list[k].stops + 1, point := Done);
    assert Finished(s, k) == Set(Unmapped(s, k), k, t);
    if Mapped(s, k) {
      InvTakeOff(s, k, t);
    } else {
      ConservedSet(s, k, t);
    }
  }

  lemma InvOverflow(s: State)
    requires Inv(s) && s.reader.Overflowing?
    ensures Inv(Step(s, Overflow))
  {
    var k := s.reader.k;
    if Mapped(s, k) {
      InvTakeOff(s, k, s.list[k].(stops := s.list[k].stops + 1));
    }
  }

  /** The first call releases the slot, the others change the count of calls alone. */
  lemma StoppedIsSet(s: State, k: nat)
    requires k < |s.list| && s.list[k].stops > 0 && GoodTerm(s.list[k]) && (s.list[k].stopped || CanRelease(s, s.list[k]))
    ensures var u := s.list[k].(stops := s.list[k].stops - 1, stopped := true, released := true, receives := 1);
      Stopped(s, k) == Set(s, k, u).(tokens := TokensAfter(s, k, u))
  {}

  lemma InvStop(s: State, k: nat)
    requires Inv(s) && k < |s.list| && s.list[k].stops > 0
    ensures (s.list[k].stopped || CanRelease(s, s.list[k])) && Inv(Stopped(s, k))
  {
    var t := s.list[k];
    ConservedSet(s, k, t);
    var u := t.(stops := t.stops - 1, stopped := true, released := true, receives := 1);
    InvSet(s, k, u);
    StoppedIsSet(s, k);
  }

  lemma InvGiveBack(s: State, k: nat)
    requires Inv(s) && k < |s.list| && s.list[k].point.Failed?
    ensures CanRelease(s, s.list[k]) && Inv(Step(s, GiveBack(k)))
  {
    var t := s.list[k];
    ConservedSet(s, k, t);
    var u := t.(point := Closed, released := true, receives := 1);
    InvSet(s, k, u);
    assert Step(s, GiveBack(k)) == Set(s, k, u).(tokens := TokensAfter(s, k, u));
  }

  lemma InvType(s: State, seesStop: bool)
    requires Inv(s) && s.reader.Typing?
    ensures Inv(Step(s, Type(seesStop)))
  {
    var t := s.list[s.reader.k];
    if Accepts(t, s.reader.data, seesStop) {
      InvSet(s, s.reader.k, t.(queue := t.queue + [s.reader.data], accepted := t.accepted + [s.reader.data]));
    }
  }

  lemma InvShell(s: State, e: Event)
    requires Inv(s) && Enabled(s, e) && (e.Open? || e.ReadFails?)
    ensures Inv(Step(s, e))
  {
    InvSet(s, e.k, Step(s, e).list[e.k]);
  }

  lemma InvTake(s: State, k: nat)
    requires Inv(s) && Enabled(s, Take(k))
    ensures Inv(Step(s, Take(k)))
  {
    var t := s.list[k];
    assert [t.queue[0]] + t.queue[1..] == t.queue;
    InvSet(s, k, t.(writer := Writing(t.queue[0]), queue := t.queue[1..]));
  }

  lemma InvWrite(s: State, k: nat, ok: bool)
    requires Inv(s) && Enabled(s, Write(k, ok))
    ensures Inv(Step(s, Write(k, ok)))
  {
    InvSet(s, k, Step(s, Write(k, ok)).list[k]);
  }

  lemma InvQuit(s: State, k: nat)
    requires Inv(s) && Enabled(s, Quit(k))
    ensures Inv(Step(s, Quit(k)))
  {
    InvSet(s, k, s.list[k].(writer := Gone));
  }

  lemma InvStep(s: State, e: Event)
    requires Inv(s)
    ensures Inv(Step(s, e))
  {
    if Enabled(s, e) {
      match e
      case Start(id) => InvStart(s, id);
      case Look(_, _) =>
      case Type(seesStop) => InvType(s, seesStop);
      case Overflow => InvOverflow(s);
      case Close(id) => InvClose(s, id);
      case CloseAll => InvCloseAll(s);
      case GiveBack(k) => InvGiveBack(s, k);
      case Register(k) => InvRegister(s, k);
      case Finish(k) => InvFinish(s, k);
      case Stop(k) => InvStop(s, k);
      case Open(_, _) => InvShell(s, e);
      case ReadFails(_) => InvShell(s, e);
      case Take(k) => InvTake(s, k);
      case Write(k, ok) => InvWrite(s, k, ok);
      case Quit(k) => InvQuit(s, k);
    }
  }

  lemma {:induction false} InvRun(run: seq<Event>)
    ensures Inv(After(run))
  {
    if run != [] {
      InvRun(run[..|run| - 1]);
      InvStep(After(run[..|run| - 1]), run[|run| - 1]);
    }
  }

  // -------------------------------------------------------------- main results

  /** Every attempt that still holds its slot has its token in the channel, and no other token is there. */
  lemma {:induction false} SlotsAreConserved(run: seq<Event>)
    ensures After(run).tokens == Count(Holds(), After(run).list) <= MAX_CONCURRENT_TERMINALS
  {
    InvRun(run);
  }

  /** No attempt gives its slot back twice, and once it is due the receive never blocks. */
  lemma {:induction false} ReleasedExactlyOnce(run: seq<Event>, k: nat)
    requires k < |After(run).list|
    ensures var s := After(run); var t := s.list[k];
      && t.receives == (if t.stopped || t.point.Closed? then 1 else 0)
      && (t.stops > 0 ==> Enabled(s, Stop(k)))
      && (t.point.Failed? ==> Enabled(s, GiveBack(k)))
  {
    var s := After(run);
    InvRun(run);
    ConservedSet(s, k, s.list[k]);
  }

  /**
   A slot that is still held is never out of reach: its attempt has not registered yet, or is about to
   be stopped, or is on the table under its own id, where closing, replacing or exiting finds it.
   */
  lemma {:induction false} HeldSlotsAreReachable(run: seq<Event>, k: nat)
    requires k < |After(run).list| && !After(run).list[k].released
    ensures var s := After(run); var t := s.list[k];
      t.point.Opening? || t.point.Failed? || t.point.Started? || t.stops > 0 || Mapped(s, k)
  {
    InvRun(run);
    assert GoodTerm(After(run).list[k]);
  }

  /** The steps that may take terminal k off the table. */
  predicate Removes(s: State, e: Event, k: nat)
    requires k < |s.list|
  {
    match e
    case Close(id) => id == s.list[k].id
    case CloseAll => true
    case Register(j) => j != k && j < |s.list| && s.list[j].id == s.list[k].id
    case Overflow => s.reader == Overflowing(k)
    case Finish(j) => j == k
    case _ => false
  }

  predicate MayRemove(e: Event) { e.Close? || e.CloseAll? || e.Register? || e.Overflow? || e.Finish? }

  lemma RestLeaveTable(s: State, e: Event, k: nat)
    requires k < |s.list| && Enabled(s, e) && !MayRemove(e)
    ensures var t := Step(s, e); t.terms == s.terms && k < |t.list| && t.list[k].id == s.list[k].id
  {}

  lemma RegisterReplaces(s: State, j: nat, k: nat)
    requires Inv(s) && k < |s.list| && Mapped(s, k) && j < |s.list| && s.list[j].point.Started?
    ensures var t := Registering(s, j);
      && |t.list| == |s.list| && t.list[k].id == s.list[k].id
      && (!Mapped(t, k) ==> j != k && s.list[j].id == s.list[k].id && Stopping(t.list[k]))
  {}

  lemma FinishLeavesOthers(s: State, j: nat, k: nat)
    requires k < |s.list| && Mapped(s, k) && j < |s.list|
    ensures var t := Finished(s, j);
      && |t.list| == |s.list| && t.list[k].id == s.list[k].id
      && (!Mapped(t, k) ==> j == k && Stopping(t.list[k]))
  {}

  lemma CloseRemoves(s: State, id: string, k: nat)
    requires Inv(s) && k < |s.list| && Mapped(s, k)
    ensures var t := Closing(s, id);
      && |t.list| == |s.list| && t.list[k].id == s.list[k].id
      && (!Mapped(t, k) ==> id == s.list[k].id && Stopping(t.list[k]))
  {}

  lemma OverflowRemoves(s: State, k: nat)
    requires Inv(s) && k < |s.list| && Mapped(s, k) && Enabled(s, Overflow)
    ensures var t := Step(s, Overflow);
      && |t.list| == |s.list| && t.list[k].id == s.list[k].id
      && (!Mapped(t, k) ==> s.reader == Overflowing(k) && Stopping(t.list[k]))
  {}

  lemma RemovalStep(s: State, e: Event, k: nat)
    requires Inv(s) && k < |s.list| && Mapped(s, k)
    ensures var t := Step(s, e);
      && k < |t.list| && t.list[k].id == s.list[k].id
      && (!Mapped(t, k) ==> Enabled(s, e) && Removes(s, e, k) && Stopping(t.list[k]))
  {
    if Enabled(s, e) {
      match e
      case Close(id) => CloseRemoves(s, id, k);
      case CloseAll => assert Step(s, e) == ClosingAll(s);
      case Register(j) => RegisterReplaces(s, j, k);
      case Overflow => OverflowRemoves(s, k);
      case Finish(j) => FinishLeavesOthers(s, j, k);
      case _ => RestLeaveTable(s, e, k);
    }
  }

  /**
   A mapped terminal leaves the table only by its own exit or input overflow, by closing its id, by a
   newer terminal with its id or at teardown, never through a terminal it replaced; and it is then stopped.
   */
  lemma {:induction false} OnlyOwnersRemove(run: seq<Event>, e: Event, k: nat)
    requires k < |After(run).list| && Mapped(After(run), k)
    ensures var s := After(run); var t := Step(s, e);
      k < |t.list| && (!Mapped(t, k) ==> Removes(s, e, k) && Stopping(t.list[k]))
  {
    InvRun(run);
    RemovalStep(After(run), e, k);
  }

  /** What the shell has read is an in-order prefix of the input that was accepted, at most 17 messages short. */
  lemma {:induction false} InputIsOrdered(run: seq<Event>, k: nat)
    requires k < |After(run).list|
    ensures var t := After(run).list[k];
      && t.written <= t.accepted && |t.queue| <= TERM_INPUT_QUEUE_DEPTH
      && |t.accepted| <= |t.written| + TERM_INPUT_QUEUE_DEPTH + 1
  {
    InvRun(run);
    assert GoodTerm(After(run).list[k]);
  }

  // ----------------------------------------------- the agent's fields as mutated

  /** closeTerms, as far as the ids other than `rest`. */
  function ClosingBut(s: State, rest: set<string>): State {
    s.(terms := map id | id in s.terms && id in rest :: s.terms[id],
       list := seq(|s.list|, k requires 0 <= k < |s.list| =>
         if Mapped(s, k) && s.list[k].id !in rest then s.list[k].(stops := s.list[k].stops + 1) else s.list[k]))
  }

  lemma ClosingStarts(s: State)
    ensures ClosingBut(s, s.terms.Keys) == s
  {
    assert ClosingBut(s, s.terms.Keys).list == s.list;
    assert ClosingBut(s, s.terms.Keys).terms == s.terms;
  }

  lemma ClosingGoesOn(s: State, rest: set<string>, id: string)
    requires Indexed(s.list, s.terms) && rest <= s.terms.Keys && id in rest
    ensures var t := ClosingBut(s, rest); var k := s.terms[id];
      && k < |t.list| && id in t.terms && t.terms[id] == k
      && t.terms.Keys == rest && (t.terms - {id}).Keys == rest - {id}
      && ClosingBut(s, rest - {id}) == Doomed(t, k).(terms := t.terms - {id})
  {
    var t, u, k := ClosingBut(s, rest), ClosingBut(s, rest - {id}), s.terms[id];
    assert u.terms == t.terms - {id};
    assert u.list == t.list[k := t.list[k].(stops := t.list[k].stops + 1)];
  }

  lemma ClosingEnds(s: State)
    ensures ClosingBut(s, {}) == ClosingAll(s)
  {
    assert ClosingBut(s, {}).list == ClosingAll(s).list;
    assert ClosingBut(s, {}).terms == map[];
  }

  /** The agent's slot channel and `terms` map; each method is one critical section or channel operation. */
  class Terminals {
    var slots: nat
    var list: seq<Term>
    var terms: map<string, nat>

    ghost function Value(): State
      reads this
    {
      State(slots, list, terms, Ready)
    }

    constructor ()
      ensures Value() == EMPTY
    {
      slots, list, terms := 0, [], map[];
    }

    method StartTerm(id: string) returns (ok: bool)
      modifies this
      ensures Value() == Step(old(Value()), Start(id))
      ensures ok <==> old(slots) < MAX_CONCURRENT_TERMINALS
    {
      if slots >= MAX_CONCURRENT_TERMINALS {
        return false;
      }
      slots := slots + 1;
      list := list + [NewTerm(id)];
      return true;
    }

    /** The critical section of openTerm; `prior` is the terminal it then stops. */
    method RegisterTerm(k: nat) returns (prior: Option<nat>)
      requires k < |list| && list[k].point.Started? && Indexed(list, terms)
      modifies this
      ensures Value() == Registering(old(Value()), k)
      ensures prior == if list[k].id in old(terms) then Some(old(terms)[list[k].id]) else None
    {
      var id := list[k].id;
      prior := if id in terms then Some(terms[id]) else None;
      terms := terms[id := k];
      if prior.Some? {
        list := list[prior.value := list[prior.value].(stops := list[prior.value].stops + 1)];
      }
      list := list[k := list[k].(point := Reading)];
    }

    method TermClose(id: string)
      requires Indexed(list, terms)
      modifies this
      ensures Value() == Closing(old(Value()), id)
    {
      if id in terms {
        var k := terms[id];
        terms := terms - {id};
        list := list[k := list[k].(stops := list[k].stops + 1)];
      }
    }

    method FinishTerm(k: nat) returns (owned: bool)
      requires k < |list|
      modifies this
      ensures Value() == Finished(old(Value()), k)
      ensures owned <==> Mapped(old(Value()), k)
    {
      var t := list[k];
      owned := t.id in terms && terms[t.id] == k;
      if owned {
        terms := terms - {t.id};
      }
      list := list[k := t.(stops := t.stops + 1, point := Done)];
    }

    method CloseTerms()
      requires Indexed(list, terms)
      modifies this
      ensures Value() == ClosingAll(old(Value()))
    {
      ghost var before := Value();
      ClosingStarts(before);
      while terms.Keys != {}
        invariant terms.Keys <= before.terms.Keys && Value() == ClosingBut(before, terms.Keys)
        decreases terms.Keys
      {
        var id :| id in terms.Keys;
        ClosingGoesOn(before, terms.Keys, id);
        var k := terms[id];
        list := list[k := list[k].(stops := list[k].stops + 1)];
        terms := terms - {id};
      }
      ClosingEnds(before);
    }

    /** termSession.stop, with the release function it calls. */
    method StopTerm(k: nat)
      requires k < |list| && list[k].stops > 0 && (list[k].stopped || CanRelease(Value(), list[k]))
      modifies this
      ensures Value() == Stopped(old(Value()), k)
    {
      var t := list[k];
      list := list[k := t.(stops := t.stops - 1, stopped := true)];
      if !t.stopped && !t.released {
        slots := slots - 1;
        list := list[k := list[k].(released := true, receives := t.receives + 1)];
      }
    }
  }
}
