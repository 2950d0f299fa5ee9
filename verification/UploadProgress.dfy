/**
 Progress of an upload in which nothing fails and nobody cancels, whatever the size of the body: it ends
 within a measure of its start, never waits for something that does not exist, and is answered ok exactly
 when the body respects every limit and its own announced length.
 */
module UploadProgress {
  import opened Prelude
  import opened PendingRequests
  import opened UploadSessions
  import opened Machine = Upload

  /** Events of a transfer in which nothing fails and nobody cancels. */
  predicate Clean(e: Event) {
    match e
    case ReadBody(n, outcome) => outcome.EndOfBody? || (outcome.More? && n > 0)
    case AgentRead(ok) => ok
    case Work(io) => io.Wrote?
    case FinishUpload(result, targetExists) => result == ALL_FINE && !targetExists
    case SeeDone => false
    case Timeout => false
    case ClientGone => false
    case Shutdown => false
    case Disconnect => false
    case Teardown => false
    case _ => true
  }

  predicate CleanRun(c: Config, content: seq<byte>, run: seq<Event>) {
    run == [] ||
    (var before := run[..|run| - 1];
     var e := run[|run| - 1];
     CleanRun(c, content, before) && Clean(e) && Enabled(c, After(c, content, before), e))
  }

  /** What the configuration loader and HTTP guarantee; a body longer than an int64 cannot arrive. */
  predicate Feasible(c: Config, content: seq<byte>) {
    0 < c.chunkBytes <= MAX_UPLOAD_CHUNK_BYTES && c.contentLength >= -1 && |content| <= MAX_INT64
  }

  /** The body respects every configured limit and its own announced length. */
  predicate Acceptable(c: Config, content: seq<byte>) {
    && (c.contentLength == -1 || c.contentLength == |content|)
    && (c.max > 0 ==> |content| <= c.max) && (c.agentMax > 0 ==> |content| <= c.agentMax)
  }

  // ------------------------------------------------------------------ measure

  function WorkerRank(w: Worker): nat {
    match w
    case Unborn => 50
    case Idle => 20
    case Took(_) => 27
    case Owing => 26
    case Committing => 10
    case Exited => 0
  }

  function PhaseRank(p: Phase): nat {
    match p
    case Unsent => 400
    case AwaitReady => 200
    case Reading => 100
    case Draining => 80
    case AwaitResult => 40
    case Returned => 10
    case Removed => 0
  }

  /** Bytes still to be read, weighted above the stages a chunk and its credit pass through. */
  function Measure(s: State): int {
    12 * (|s.srv.content| - s.srv.pos) + PhaseRank(s.srv.handler.phase) + WorkerRank(s.agt.worker)
    + 2 * s.srv.handler.credits + 4 * |s.srv.pending.ch| + 5 * |s.net.up| + 9 * |s.net.down| + 8 * |s.agt.events|
  }

  lemma TakeLowers(c: Config, s: State)
    requires Handled(c, s.srv) && Enabled(c, s, Take)
    requires forall i | 0 <= i < |s.srv.pending.ch| :: GoodReply(s.srv.pending.ch[i])
    ensures Measure(TakeStep(s)) < Measure(s)
  {}

  lemma ServerLowers(c: Config, s: State, e: Event)
    requires Handled(c, s.srv) && s.net.conn && Enabled(c, s, e) && Clean(e)
    requires e.SendStart? || e.ReadBody? || e.SendEnd? || e.RemovePending? || e.ServerRead?
    ensures Measure(Step(c, s, e)) < Measure(s)
  {}

  lemma AgentReadLowers(c: Config, s: State)
    requires s.net.conn && s.net.down != [] && |s.agt.events| <= MAX_FILE_UPLOAD_CREDITS
    ensures Measure(AgentReadStep(c, s, true)) < Measure(s)
  {}

  lemma WorkerLowers(c: Config, s: State, e: Event)
    requires s.net.conn && Enabled(c, s, e) && (e.TakeEvent? || e.SeeStop? || e.Work? || e.SendCredit? || e.FinishUpload?)
    ensures Measure(Step(c, s, e)) < Measure(s)
  {}

  lemma MeasureDrops(c: Config, s: State, e: Event)
    requires Inv(c, s) && s.net.conn && Clean(e) && Enabled(c, s, e)
    ensures Measure(Step(c, s, e)) < Measure(s)
  {
    if e.Take? {
      TakeLowers(c, s);
    } else if AtServer(e) {
      ServerLowers(c, s, e);
    } else if e.AgentRead? {
      AgentReadLowers(c, s);
    } else {
      WorkerLowers(c, s, e);
    }
  }

  // ------------------------------------------------- what a clean run keeps, I

  function Results(v: Server, n: Net): int { Count(IsResult, n.up) + Count(IsResult, v.pending.ch) }

  function Starting(v: Server, n: Net): int {
    Count(IsStart, n.down) + Count(IsReady, n.up) + Count(IsReady, v.pending.ch)
  }

  function Ending(n: Net, a: Agent): int { EndsIn(n, a) + if a.worker.Committing? then 1 else 0 }

  predicate Over(p: Phase) { p.Returned? || p.Removed? }

  /** The session runs until it is stopped, which only a server that has given up asks for. */
  predicate Kept(s: State) {
    var p := s.srv.handler.phase;
    && s.net.conn
    && (s.srv.pending.done.Some? ==> p.Removed?)
    && (s.agt.stopped ==> Over(p))
    && (Running(s.agt.worker) ==> s.agt.owned || s.agt.stopped)
    && (p.AwaitReady? && !s.agt.worker.Unborn? ==> s.agt.owned && Running(s.agt.worker))
    && (p.Removed? && s.agt.owned ==> s.net.down != [] && s.net.down[|s.net.down| - 1].Abort?)
  }

  /** Whoever waits is waiting for something that exists. */
  predicate Answered(s: State) {
    var p := s.srv.handler.phase;
    && (p.AwaitReady? ==> Starting(s.srv, s.net) == 1)
    && (!p.Unsent? && !p.AwaitReady? ==> Count(IsStart, s.net.down) == 0)
    && (p.Reading? || p.Draining? ==> (s.agt.owned && Running(s.agt.worker)) || Results(s.srv, s.net) >= 1)
    && (p.AwaitResult? ==> Ending(s.net, s.agt) + Results(s.srv, s.net) == 1)
    && (p.AwaitResult? && EndsIn(s.net, s.agt) > 0 ==> s.agt.owned && Running(s.agt.worker))
    && (Over(p) && s.srv.handler.finished ==> Ending(s.net, s.agt) == 0)
  }

  /** No message says that a session failed whose file has become the target. */
  predicate Truthful(c: Config, s: State) {
    var h := s.srv.handler;
    && (Over(h.phase) ==> h.verdict.Ok? || h.verdict.TooLarge? || h.verdict.DeviceError?)
    && (h.verdict.TooLarge? ==> c.max > 0 && (c.contentLength > c.max || |s.srv.content| > c.max))
    && (s.agt.target.Some? ==>
          && (h.verdict.Undecided? || h.verdict.Ok?)
          && (forall i | 0 <= i < |s.net.up| && s.net.up[i].Result? :: !s.net.up[i].failed)
          && (forall i | 0 <= i < |s.srv.pending.ch| && s.srv.pending.ch[i].Result? :: !s.srv.pending.ch[i].failed))
  }

  predicate Steady(c: Config, s: State) { Kept(s) && Answered(s) && Truthful(c, s) }

  /** An order for the session finds it in the table with room in its queue, or finds it gone. */
  lemma QueueHasRoom(c: Config, s: State)
    requires Inv(c, s) && s.net.down != []
    ensures s.net.down[0].Chunk? && s.agt.owned ==> |s.agt.events| < MAX_FILE_UPLOAD_CREDITS
    ensures s.net.down[0].End? ==> s.agt.owned && s.agt.events == []
  {
    EventKinds(s.agt.events);
    if s.net.down[0].End? {
      FinishedIsEmpty(s);
    }
  }

  /** Before the end has been sent, a result can only report a failure. */
  lemma EarlyResultsFail(c: Config, s: State)
    requires Inv(c, s) && s.srv.pending.ch != [] && s.srv.pending.ch[0].Result? && !s.srv.handler.finished
    ensures s.srv.pending.ch[0].failed
  {}

  lemma SteadyTake(c: Config, s: State)
    requires Inv(c, s) && Steady(c, s) && Enabled(c, s, Take)
    ensures Steady(c, TakeStep(s))
  {
    if s.srv.pending.ch[0].Result? && !s.srv.handler.finished {
      EarlyResultsFail(c, s);
      CountPositive(IsResult, s.srv.pending.ch);
    }
  }

  lemma SteadySendStart(c: Config, s: State)
    requires Inv(c, s) && Steady(c, s) && Enabled(c, s, SendStart)
    ensures Steady(c, Step(c, s, SendStart))
  {
    CountsDown(s.net.down, Start(c.contentLength, INITIAL_FILE_UPLOAD_CREDITS));
  }

  lemma SteadySendEnd(c: Config, s: State)
    requires Inv(c, s) && Steady(c, s) && Enabled(c, s, SendEnd)
    ensures Steady(c, Step(c, s, SendEnd))
  {
    CountsDown(s.net.down, End);
  }

  lemma SteadyForwarded(c: Config, s: State, n: nat)
    requires Inv(c, s) && Steady(c, s) && s.srv.handler.phase.Reading? && s.srv.pos + n <= |s.srv.content|
    ensures Steady(c, Forwarded(c, s, n))
  {
    CountsDown(s.net.down, Chunk(s.srv.content[s.srv.pos..s.srv.pos + n]));
    CountsDown(s.net.down, Abort);
  }

  lemma SteadyReadBody(c: Config, s: State, n: nat, outcome: BodyOutcome)
    requires Inv(c, s) && Steady(c, s) && Enabled(c, s, ReadBody(n, outcome)) && Clean(ReadBody(n, outcome))
    ensures Steady(c, Step(c, s, ReadBody(n, outcome)))
  {
    SteadyForwarded(c, s, n);
  }

  lemma SteadyRemovePending(c: Config, s: State)
    requires Inv(c, s) && Steady(c, s) && Enabled(c, s, RemovePending)
    ensures Steady(c, Step(c, s, RemovePending))
  {
    CountsDown(s.net.down, Abort);
  }

  lemma ServerReadAnswers(c: Config, s: State)
    requires Inv(c, s) && Kept(s) && Answered(s) && Enabled(c, s, ServerRead)
    ensures Answered(ServerReadStep(s))
  {
    CountsUp(s.srv.pending.ch, s.net.up[0]);
  }

  lemma SteadyServerRead(c: Config, s: State)
    requires Inv(c, s) && Steady(c, s) && Enabled(c, s, ServerRead)
    ensures Steady(c, ServerReadStep(s))
  {
    ServerReadAnswers(c, s);
  }

  lemma SteadyStart(c: Config, s: State)
    requires Inv(c, s) && Steady(c, s) && s.net.down != [] && s.net.down[0].Start?
    ensures Steady(c, AgentReadStep(c, s, true))
  {
    CountsUp(s.net.up, Ready(INITIAL_FILE_UPLOAD_CREDITS, false));
    CountsUp(s.net.up, Ready(0, true));
  }

  lemma SteadyAgentRead(c: Config, s: State)
    requires Inv(c, s) && Steady(c, s) && Enabled(c, s, AgentRead(true)) && !s.net.down[0].Start?
    ensures Steady(c, AgentReadStep(c, s, true))
  {
    QueueHasRoom(c, s);
    CountsDown(s.agt.events, s.net.down[0]);
  }

  lemma SteadyWorkChunk(c: Config, s: State)
    requires Inv(c, s) && Steady(c, s) && s.agt.worker.Took? && s.agt.worker.m.Chunk?
    ensures Steady(c, WorkStep(c, s, Wrote))
  {
    if s.srv.handler.finished {
      FinishedIsEmpty(s);
    }
    CountsUp(s.net.up, Result(true, 0));
  }

  lemma SteadyWork(c: Config, s: State)
    requires Inv(c, s) && Steady(c, s) && s.agt.worker.Took?
    ensures Steady(c, WorkStep(c, s, Wrote))
  {
    if s.agt.worker.m.Chunk? {
      SteadyWorkChunk(c, s);
    }
  }

  lemma SteadySendCredit(c: Config, s: State)
    requires Inv(c, s) && Steady(c, s) && Enabled(c, s, SendCredit)
    ensures Steady(c, Step(c, s, SendCredit))
  {
    CountsUp(s.net.up, Credit(1));
  }

  lemma SteadyWorker(c: Config, s: State, e: Event)
    requires Inv(c, s) && Steady(c, s) && Enabled(c, s, e) && (e.TakeEvent? || e.SeeStop? || e.SendCredit?)
    ensures Steady(c, Step(c, s, e))
  {
    if e.SendCredit? {
      SteadySendCredit(c, s);
    }
  }

  lemma SteadyFinish(c: Config, s: State)
    requires Inv(c, s) && Steady(c, s) && s.agt.worker.Committing?
    ensures Steady(c, FinishStep(s, ALL_FINE, false))
  {
    CountPositive(IsResult, s.net.up);
    CountPositive(IsResult, s.srv.pending.ch);
    CountsUp(s.net.up, Result(FinishError(s.agt.session, ALL_FINE, false).Some?, s.agt.session.written));
  }

  lemma SteadyServer(c: Config, s: State, e: Event)
    requires Inv(c, s) && Steady(c, s) && Clean(e) && Enabled(c, s, e) && AtServer(e)
    ensures Steady(c, Step(c, s, e))
  {
    if e.Take? {
      SteadyTake(c, s);
    } else if e.SendStart? {
      SteadySendStart(c, s);
    } else if e.SendEnd? {
      SteadySendEnd(c, s);
    } else if e.ReadBody? {
      SteadyReadBody(c, s, e.n, e.outcome);
    } else if e.RemovePending? {
      SteadyRemovePending(c, s);
    } else {
      SteadyServerRead(c, s);
    }
  }

  lemma SteadyStep(c: Config, s: State, e: Event)
    requires Inv(c, s) && Steady(c, s) && Clean(e) && Enabled(c, s, e)
    ensures Steady(c, Step(c, s, e))
  {
    if AtServer(e) {
      SteadyServer(c, s, e);
    } else if e.AgentRead? {
      if s.net.down[0].Start? {
        SteadyStart(c, s);
      } else {
        SteadyAgentRead(c, s);
      }
    } else if e.Work? {
      SteadyWork(c, s);
    } else if e.FinishUpload? {
      SteadyFinish(c, s);
    } else {
      SteadyWorker(c, s, e);
    }
  }

  // ------------------------------------------------------------------ progress

  /** An event that some party can take next. */
  function Agenda(s: State): Event {
    var h := s.srv.handler;
    if h.phase.Unsent? then SendStart
    else if h.phase.Returned? then RemovePending
    else if InWait(h) && s.srv.pending.ch != [] then Take
    else if s.net.up != [] then ServerRead
    else if s.net.down != [] then AgentRead(true)
    else if s.agt.worker.Took? then Work(Wrote)
    else if s.agt.worker.Owing? then SendCredit
    else if s.agt.worker.Committing? then FinishUpload(ALL_FINE, false)
    else if s.agt.worker.Idle? && s.agt.stopped then SeeStop
    else if s.agt.worker.Idle? && s.agt.events != [] then TakeEvent
    else if h.phase.Reading? then
      if s.srv.pos < |s.srv.content| then ReadBody(1, More) else ReadBody(0, EndOfBody)
    else SendEnd
  }

  /** The request has been answered, the agent is done with it, and nothing is in flight. */
  predicate Quiet(s: State) {
    && s.srv.handler.phase.Removed? && (s.agt.worker.Exited? || s.agt.worker.Unborn?)
    && s.net.up == [] && s.net.down == []
  }

  /** Nothing is on its way and the worker is idle, so all four credits are at the server. */
  lemma AllCreditsAtServer(c: Config, s: State)
    requires Inv(c, s) && Kept(s) && s.net.up == [] && s.net.down == [] && s.srv.pending.ch == []
    requires s.agt.worker.Idle? && s.agt.owned && s.agt.events == [] && Attending(s.srv.handler)
    ensures s.srv.handler.credits == INITIAL_FILE_UPLOAD_CREDITS
  {}

  /** With no message anywhere, a handler that waits is waiting for the worker. */
  lemma NobodyElseToWaitFor(c: Config, s: State)
    requires Inv(c, s) && Steady(c, s) && s.net.up == [] && s.net.down == [] && s.srv.pending.ch == []
    ensures !s.srv.handler.phase.AwaitReady?
    ensures s.srv.handler.phase.AwaitResult? ==>
      s.agt.worker.Committing? || (Running(s.agt.worker) && (s.agt.events != [] || s.agt.worker.Took?))
    ensures s.srv.handler.phase.Reading? || s.srv.handler.phase.Draining? ==> s.agt.owned && Running(s.agt.worker)
  {
    assert Count(IsReady, s.net.up) == Count(IsResult, s.net.up) == 0;
    assert Count(IsReady, s.srv.pending.ch) == Count(IsResult, s.srv.pending.ch) == 0;
    assert Count(IsStart, s.net.down) == Count(IsEnd, s.net.down) == 0;
  }

  lemma {:induction false} NeverStuck(c: Config, s: State)
    requires Inv(c, s) && Steady(c, s) && c.chunkBytes > 0 && !Quiet(s)
    ensures Clean(Agenda(s)) && Enabled(c, s, Agenda(s))
  {
    var h := s.srv.handler;
    if s.net.up == [] && s.net.down == [] && s.srv.pending.ch == [] {
      NobodyElseToWaitFor(c, s);
      if Attending(h) && s.agt.worker.Idle? && s.agt.owned && s.agt.events == [] {
        AllCreditsAtServer(c, s);
      }
    }
  }

  // ------------------------------------------------ what a clean run keeps, II

  predicate Small(o: Order) { o.Chunk? ==> |o.data| <= MAX_UPLOAD_CHUNK_BYTES }

  predicate Favourable(m: Reply) { (m.Ready? ==> !m.failed) && (m.Result? ==> !m.failed) }

  /** With an acceptable body nothing is lost, stopped, refused or aborted. */
  predicate Smooth(s: State) {
    && s.lost == 0 && !s.agt.stopped
    && (forall i | 0 <= i < |s.net.down| :: !s.net.down[i].Abort? && Small(s.net.down[i]))
    && (forall i | 0 <= i < |s.agt.events| :: Small(s.agt.events[i]))
    && (s.agt.worker.Took? ==> Small(s.agt.worker.m))
    && (forall i | 0 <= i < |s.net.up| :: Favourable(s.net.up[i]))
    && (forall i | 0 <= i < |s.srv.pending.ch| :: Favourable(s.srv.pending.ch[i]))
    && (s.agt.worker.Exited? ==> s.agt.target.Some?)
    && (Over(s.srv.handler.phase) ==> s.srv.handler.verdict.Ok?)
  }

  predicate Fits(c: Config, s: State) {
    Acceptable(c, s.srv.content) && Feasible(c, s.srv.content)
  }

  lemma SmoothTake(c: Config, s: State)
    requires Inv(c, s) && Steady(c, s) && Smooth(s) && Enabled(c, s, Take)
    ensures Smooth(TakeStep(s))
  {
    if s.srv.pending.ch[0].Credit? {
      CountPositive(IsCredit, s.srv.pending.ch);
    }
  }

  lemma SmoothSendStart(c: Config, s: State)
    requires Inv(c, s) && Steady(c, s) && Smooth(s) && Fits(c, s) && Enabled(c, s, SendStart)
    ensures Smooth(Step(c, s, SendStart))
  {}

  lemma SmoothSendEnd(c: Config, s: State)
    requires Inv(c, s) && Steady(c, s) && Smooth(s) && Enabled(c, s, SendEnd)
    ensures Smooth(Step(c, s, SendEnd))
  {}

  lemma SmoothServer(c: Config, s: State, e: Event)
    requires Inv(c, s) && Steady(c, s) && Smooth(s) && Enabled(c, s, e) && (e.RemovePending? || e.ServerRead?)
    ensures Smooth(Step(c, s, e))
  {}

  /** Bytes of a body that fits go out as one chunk. */
  lemma FittingBytes(c: Config, s: State, n: nat)
    requires Handled(c, s.srv) && s.net.conn && Fits(c, s) && n > 0
    requires Enabled(c, s, ReadBody(n, More))
    ensures var h, pos := s.srv.handler, s.srv.pos;
      Forwarded(c, s, n) == s.(
        srv := s.srv.(pos := pos + n, handler := h.(total := h.total + n, credits := h.credits - 1)),
        net := s.net.(down := s.net.down + [Chunk(s.srv.content[pos..pos + n])]))
  {}

  lemma SmoothForwarded(c: Config, s: State, n: nat)
    requires Inv(c, s) && Steady(c, s) && Smooth(s) && Fits(c, s)
    requires Enabled(c, s, ReadBody(n, More))
    ensures Smooth(Forwarded(c, s, n)) && Forwarded(c, s, n).srv.handler.phase.Reading?
  {
    if n > 0 {
      FittingBytes(c, s, n);
      assert Small(Chunk(s.srv.content[s.srv.pos..s.srv.pos + n]));
    }
  }

  lemma SmoothReadBody(c: Config, s: State, n: nat, outcome: BodyOutcome)
    requires Inv(c, s) && Steady(c, s) && Smooth(s) && Fits(c, s)
    requires Enabled(c, s, ReadBody(n, outcome)) && Clean(ReadBody(n, outcome))
    ensures Smooth(Step(c, s, ReadBody(n, outcome)))
  {
    SmoothForwarded(c, s, n);
    assert Step(c, s, ReadBody(n, outcome)) == AfterRead(Forwarded(c, s, n), outcome);
  }

  lemma SmoothAgentRead(c: Config, s: State)
    requires Inv(c, s) && Steady(c, s) && Smooth(s) && Fits(c, s) && Enabled(c, s, AgentRead(true))
    ensures Smooth(AgentReadStep(c, s, true))
  {
    QueueHasRoom(c, s);
    if s.net.down[0].Chunk? {
      assert s.agt.owned;
    }
  }

  lemma SmoothWork(c: Config, s: State)
    requires Inv(c, s) && Steady(c, s) && Smooth(s) && Fits(c, s) && Enabled(c, s, Work(Wrote))
    ensures Smooth(WorkStep(c, s, Wrote))
  {
    if s.srv.handler.finished {
      FinishedIsEmpty(s);
    } else if s.agt.worker.m.Chunk? {
      WriteAcceptsExactly(c.agentMax, s.agt.session, Some(s.agt.worker.m.data), Wrote);
    }
  }

  lemma SmoothFinish(c: Config, s: State)
    requires Inv(c, s) && Steady(c, s) && Smooth(s) && Fits(c, s) && s.agt.worker.Committing?
    ensures Smooth(FinishStep(s, ALL_FINE, false))
  {
    FinishFits(c, s);
    var t := FinishStep(s, ALL_FINE, false);
    assert t.net.up == s.net.up + [Result(false, s.agt.session.written)] || !s.net.conn;
  }

  /** The whole body is there, and it has the length that was announced. */
  lemma FinishFits(c: Config, s: State)
    requires Inv(c, s) && Smooth(s) && Fits(c, s) && s.agt.worker.Committing?
    ensures FinishError(s.agt.session, ALL_FINE, false).None?
  {
    FinishedIsEmpty(s);
  }

  lemma SmoothTakeEvent(c: Config, s: State)
    requires Smooth(s) && Enabled(c, s, TakeEvent)
    ensures Smooth(Step(c, s, TakeEvent))
  {}

  lemma SmoothSendCredit(c: Config, s: State)
    requires Inv(c, s) && Steady(c, s) && Smooth(s) && Enabled(c, s, SendCredit)
    ensures Smooth(Step(c, s, SendCredit))
  {}

  lemma SmoothWorker(c: Config, s: State, e: Event)
    requires Inv(c, s) && Steady(c, s) && Smooth(s) && Enabled(c, s, e) && (e.TakeEvent? || e.SeeStop? || e.SendCredit?)
    ensures Smooth(Step(c, s, e))
  {
    if e.TakeEvent? {
      SmoothTakeEvent(c, s);
    } else if e.SendCredit? {
      SmoothSendCredit(c, s);
    }
  }

  lemma SmoothStep(c: Config, s: State, e: Event)
    requires Inv(c, s) && Steady(c, s) && Smooth(s) && Fits(c, s) && Clean(e) && Enabled(c, s, e)
    ensures Smooth(Step(c, s, e))
  {
    if e.Take? {
      SmoothTake(c, s);
    } else if e.ReadBody? {
      SmoothReadBody(c, s, e.n, e.outcome);
    } else if e.SendStart? {
      SmoothSendStart(c, s);
    } else if e.SendEnd? {
      SmoothSendEnd(c, s);
    } else if AtServer(e) {
      SmoothServer(c, s, e);
    } else if e.AgentRead? {
      SmoothAgentRead(c, s);
    } else if e.Work? {
      SmoothWork(c, s);
    } else if e.FinishUpload? {
      SmoothFinish(c, s);
    } else {
      SmoothWorker(c, s, e);
    }
  }

  // -------------------------------------------------------------- main result

  lemma {:induction false} CleanRunKeeps(c: Config, content: seq<byte>, run: seq<Event>)
    requires CleanRun(c, content, run)
    ensures Steady(c, After(c, content, run))
    ensures |run| + Measure(After(c, content, run)) <= Measure(Init(content))
    ensures Acceptable(c, content) && Feasible(c, content) ==> Smooth(After(c, content, run))
  {
    if run != [] {
      var before := run[..|run| - 1];
      var s := After(c, content, before);
      CleanRunKeeps(c, content, before);
      InvRun(c, content, before);
      SteadyStep(c, s, run[|run| - 1]);
      MeasureDrops(c, s, run[|run| - 1]);
      if Acceptable(c, content) && Feasible(c, content) {
        SmoothStep(c, s, run[|run| - 1]);
      }
    }
  }

  lemma MeasureIsPositive(c: Config, s: State)
    requires Inv(c, s)
    ensures Measure(s) >= 0
  {}

  /**
   Every upload in which nothing fails ends, whatever the body: a clean run is never longer than the
   initial measure, and some clean event is enabled until it has come to rest. It is then answered ok, with
   the whole body in the target, if and only if the body is acceptable; otherwise the answer is that the
   body is too large, which it is, or the device's refusal, and there is no target.
   */
  lemma {:induction false} CleanUploadCompletes(c: Config, content: seq<byte>, run: seq<Event>)
    requires Feasible(c, content) && CleanRun(c, content, run)
    ensures var s := After(c, content, run); var v := s.srv.handler.verdict;
      && |run| <= Measure(Init(content))
      && (!Quiet(s) ==> Clean(Agenda(s)) && Enabled(c, s, Agenda(s)))
      && (Quiet(s) ==>
            && (v.Ok? <==> Acceptable(c, content))
            && (v.Ok? ==> s.agt.target == Some(content))
            && (!v.Ok? ==> s.agt.target.None? && (v.TooLarge? || v.DeviceError?))
            && (v.TooLarge? ==> c.max > 0 && (c.contentLength > c.max || |content| > c.max)))
  {
    var s := After(c, content, run);
    CleanRunKeeps(c, content, run);
    InvRun(c, content, run);
    MeasureIsPositive(c, s);
    OkMeansWholeBody(c, content, run);
    if !Quiet(s) {
      NeverStuck(c, s);
    }
  }
}
