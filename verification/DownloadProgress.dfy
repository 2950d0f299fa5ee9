/**
 Progress of a download in which nothing fails and nobody cancels: it ends within a measure of its start,
 never waits for something that does not exist, and the client then has the whole file, or the device's
 error and no byte if the file is over the limit.
 */
module DownloadProgress {
  import opened Prelude
  import opened PendingRequests
  import opened Machine = Download

  /** Events of a transfer in which nothing fails and nobody cancels. */
  predicate Clean(e: Event) {
    match e
    case Take(io) => io.Written?
    case AgentRead(slotFree) => slotFree
    case Open(ok) => ok
    case Read(n, outcome) => n > 0 && outcome.Fine?
    case SeeDone => false
    case Timeout => false
    case ClientGone => false
    case Shutdown => false
    case SeeCancel => false
    case Grow(_) => false
    case Disconnect => false
    case Teardown => false
    case _ => true
  }

  predicate CleanRun(c: Config, file: seq<byte>, run: seq<Event>) {
    run == [] ||
    (var before := run[..|run| - 1];
     var e := run[|run| - 1];
     CleanRun(c, file, before) && Clean(e) && Enabled(c, After(c, file, before), e))
  }

  function WorkerRank(w: Worker): nat {
    match w
    case Unstarted => 145
    case Starting(_, _) => 140
    case Announce => 100
    case Waiting => 90
    case Holding => 91
    case Ending(_) => 80
    case Finished => 20
    case Gone => 0
  }

  function PhaseRank(p: Phase): nat {
    match p
    case Unsent => 300
    case Owing => 8
    case Serving => 3
    case Returned => 1
    case Removed => 0
  }

  /** Bytes still to be read, weighted above the stages a chunk and its credit pass through. */
  function Measure(s: State): int {
    10 * (if BeforeOpen(s.agt.worker) then |s.agt.file| else s.agt.size - s.agt.pos)
    + WorkerRank(s.agt.worker) + 2 * s.agt.credits + PhaseRank(s.srv.handler.phase)
    + 7 * |s.net.up| + 6 * |s.srv.pending.ch| + 3 * |s.net.down|
  }

  lemma MeasureDropsAgent(c: Config, s: State, e: Event)
    requires Spoken(s.agt, s.net.conn) && Ordered(c, s.srv, s.net, s.agt) && Clean(e) && Enabled(c, s, e) && s.net.conn
    requires e.Open? || e.SendMeta? || e.TakeCredit? || e.LoopDone? || e.SendEnd? || e.Deregister? || e.Read?
    ensures Measure(Step(c, s, e)) < Measure(s)
  {}

  lemma MeasureDropsWire(c: Config, s: State, e: Event)
    requires Inv(c, s) && Clean(e) && Enabled(c, s, e)
    requires e.AgentRead? || e.ServerRead?
    ensures Measure(Step(c, s, e)) < Measure(s)
  {}

  lemma MeasureDropsServer(c: Config, s: State, e: Event)
    requires Inv(c, s) && s.net.conn && Clean(e) && Enabled(c, s, e)
    requires e.SendStart? || e.Take? || e.SendCredit? || e.RemovePending?
    ensures Measure(Step(c, s, e)) < Measure(s)
  {
    if e.Take? {
      assert !Violation(Step(c, s, e).srv.handler.verdict) by { ServedTake(c, s, e.io); }
    }
  }

  lemma {:induction false} MeasureDrops(c: Config, s: State, e: Event)
    requires Inv(c, s) && s.net.conn && Clean(e) && Enabled(c, s, e)
    ensures Measure(Step(c, s, e)) < Measure(s)
  {
    if e.AgentRead? || e.ServerRead? {
      MeasureDropsWire(c, s, e);
    } else if e.SendStart? || e.Take? || e.SendCredit? || e.RemovePending? {
      MeasureDropsServer(c, s, e);
    } else {
      MeasureDropsAgent(c, s, e);
    }
  }

  predicate Fits(c: Config, file: seq<byte>) {
    var limit := Limit(c.agentMax, c.max);
    limit <= 0 || |file| <= limit
  }

  /** What further holds while a run stays clean. */
  predicate CleanInv(c: Config, file: seq<byte>, s: State) {
    var w := s.agt.worker;
    && s.net.conn && s.agt.file == file
    && (s.srv.pending.done.Some? ==> s.srv.handler.phase.Removed?)
    && (w.Finished? || w.Gone? ==> Ended(s.agt.sent))
    && (Live(w) || w == Ending(false) ==> Fits(c, file) && s.agt.size == |file|)
    && (w == Ending(true) ==> !Fits(c, file) && s.agt.sent == [])
    && (Ended(s.agt.sent) ==>
          if Fits(c, file) then !s.agt.sent[|s.agt.sent| - 1].failed && s.agt.size == |file|
          else s.agt.sent == [End(true)])
    && (s.srv.handler.phase.Returned? || s.srv.handler.phase.Removed? ==>
          Ended(s.agt.sent) && s.srv.handler.verdict == if Fits(c, file) then Complete else DeviceError)
  }

  lemma CleanInvTake(c: Config, file: seq<byte>, s: State)
    requires Inv(c, s) && CleanInv(c, file, s) && Enabled(c, s, Take(Written))
    ensures CleanInv(c, file, TakeStep(c, s, Written))
  {
    ServedTake(c, s, Written);
    var m := s.srv.pending.ch[0];
    assert m == s.agt.sent[s.srv.popped];
    assert Placed(s.agt.size, |s.agt.sent|, s.srv.popped, m);
  }

  lemma CleanInvOpen(c: Config, file: seq<byte>, s: State)
    requires CleanInv(c, file, s) && s.agt.worker.Starting? && s.agt.worker.limit == c.max && s.agt.sent == []
    ensures CleanInv(c, file, s.(agt := Opened(c, s.agt, true)))
  {}

  /** The worker moves on without a message, from one live point to another or to the end of its loop. */
  lemma CleanInvWorker(c: Config, file: seq<byte>, s: State, e: Event)
    requires CleanInv(c, file, s) && Enabled(c, s, e) && (e.TakeCredit? || e.LoopDone? || e.Deregister?)
    ensures CleanInv(c, file, Step(c, s, e))
  {}

  lemma CleanInvSay(c: Config, file: seq<byte>, s: State, e: Event)
    requires Spoken(s.agt, true) && CleanInv(c, file, s) && Enabled(c, s, e) && (e.SendMeta? || e.SendEnd?)
    ensures CleanInv(c, file, Step(c, s, e))
  {}

  lemma CleanInvRead(c: Config, file: seq<byte>, s: State, n: nat)
    requires Spoken(s.agt, true) && CleanInv(c, file, s) && n > 0 && Enabled(c, s, Read(n, Fine))
    ensures CleanInv(c, file, ReadStep(s, n, Fine))
  {}

  lemma CleanInvServer(c: Config, file: seq<byte>, s: State, e: Event)
    requires Inv(c, s) && CleanInv(c, file, s) && Enabled(c, s, e)
    requires e.SendStart? || e.SendCredit? || e.RemovePending? || e.ServerRead?
    ensures CleanInv(c, file, Step(c, s, e))
  {}

  lemma CleanInvAgentRead(c: Config, file: seq<byte>, s: State)
    requires CleanInv(c, file, s) && Enabled(c, s, AgentRead(true))
    ensures CleanInv(c, file, AgentReadStep(s, true))
  {
    var t := AgentReadStep(s, true);
    assert t.srv == s.srv && t.net.conn && t.agt.sent == s.agt.sent && t.agt.size == s.agt.size && t.agt.file == s.agt.file;
    assert t.agt.worker == s.agt.worker || t.agt.worker.Starting?;
  }

  lemma CleanInvStep(c: Config, file: seq<byte>, s: State, e: Event)
    requires Inv(c, s) && CleanInv(c, file, s) && Clean(e) && Enabled(c, s, e)
    ensures CleanInv(c, file, Step(c, s, e))
  {
    if e.Take? {
      CleanInvTake(c, file, s);
    } else if e.Read? {
      CleanInvRead(c, file, s, e.n);
    } else if e.SendMeta? || e.SendEnd? {
      CleanInvSay(c, file, s, e);
    } else if e.AgentRead? {
      CleanInvAgentRead(c, file, s);
    } else if e.SendStart? || e.SendCredit? || e.RemovePending? || e.ServerRead? {
      CleanInvServer(c, file, s, e);
    } else if e.Open? {
      CleanInvOpen(c, file, s);
    } else {
      CleanInvWorker(c, file, s, e);
    }
  }

  /** An event that some party can take next. */
  function Agenda(s: State): Event {
    var a := s.agt;
    if s.srv.handler.phase.Unsent? then SendStart
    else if s.srv.handler.phase.Owing? then SendCredit
    else if s.srv.handler.phase.Returned? then RemovePending
    else if s.srv.handler.phase.Serving? && s.srv.pending.ch != [] then Take(Written)
    else if s.net.up != [] then ServerRead
    else if s.net.down != [] then AgentRead(true)
    else match a.worker
      case Starting(_, _) => Open(true)
      case Announce => SendMeta
      case Waiting => if a.pos == a.size then LoopDone else TakeCredit
      case Holding => Read(1, Fine)
      case Ending(_) => SendEnd
      case _ => Deregister
  }

  /** Both sides have finished and nothing is in flight. */
  predicate Quiet(s: State) {
    s.srv.handler.phase.Removed? && s.agt.worker.Gone? && s.net.up == [] && s.net.down == []
  }

  lemma {:induction false} NeverStuck(c: Config, file: seq<byte>, s: State)
    requires Inv(c, s) && CleanInv(c, file, s) && !Quiet(s) && c.chunkBytes > 0
    ensures Clean(Agenda(s)) && Enabled(c, s, Agenda(s))
  {}

  lemma {:induction false} CleanRunInv(c: Config, file: seq<byte>, run: seq<Event>)
    requires CleanRun(c, file, run)
    ensures Inv(c, After(c, file, run)) && CleanInv(c, file, After(c, file, run))
    ensures |run| + Measure(After(c, file, run)) <= Measure(Init(file))
  {
    InvRun(c, file, run);
    if run != [] {
      var before := run[..|run| - 1];
      CleanRunInv(c, file, before);
      InvRun(c, file, before);
      CleanInvStep(c, file, After(c, file, before), run[|run| - 1]);
      MeasureDrops(c, After(c, file, before), run[|run| - 1]);
    }
  }

  /**
   A transfer in which nothing fails always ends, and ends well: a clean run is never longer than
   the initial measure; while it has not come to rest some clean event is enabled; and at rest the
   client holds the whole file, or the agent's refusal if the file is over the limit.
   */
  lemma {:induction false} CleanDownloadCompletes(c: Config, file: seq<byte>, run: seq<Event>)
    requires CleanRun(c, file, run) && c.chunkBytes > 0
    ensures var s := After(c, file, run);
      && |run| <= Measure(Init(file))
      && (!Quiet(s) ==> Clean(Agenda(s)) && Enabled(c, s, Agenda(s)))
      && (Quiet(s) ==> if Fits(c, file) then s.srv.handler.verdict.Complete? && s.srv.handler.body == file
                       else s.srv.handler.verdict.DeviceError? && s.srv.handler.body == [])
  {
    CleanRunInv(c, file, run);
    var s := After(c, file, run);
    if Quiet(s) {
      BodyIsExact(c, file, run);
      if !Fits(c, file) {
        DataSnoc([], End(true));
        assert [] + [End(true)] == s.agt.sent;
      }
    } else {
      NeverStuck(c, file, s);
    }
  }
}
