/**
 Credit-windowed upload of one request body (internal/server/files.go:239-381 on the
 server, cmd/agent/files.go:426-666 on the agent), as a step system built like Download.
 */
module Upload {
  import opened Prelude
  import opened PendingRequests
  import opened UploadSessions

  const INITIAL_FILE_UPLOAD_CREDITS := 4
  const MAX_FILE_UPLOAD_CREDITS := 4

  // ---------------------------------------------------------------- messages

  /** Server to agent. */
  datatype Order = Start(size: int, credits: int) | Chunk(data: seq<byte>) | End | Abort

  /** Agent to server: file_upload_ready, file_upload_credit, file_upload_result. */
  datatype Reply = Ready(credits: int, failed: bool) | Credit(amount: int) | Result(failed: bool, size: int)

  predicate IsChunk(o: Order) { o.Chunk? }
  predicate IsEnd(o: Order) { o.End? }
  predicate IsStart(o: Order) { o.Start? }
  predicate IsCredit(m: Reply) { m.Credit? }
  predicate IsReady(m: Reply) { m.Ready? }
  predicate IsResult(m: Reply) { m.Result? }

  function Piece(o: Order): seq<byte> { if o.Chunk? then o.data else [] }

  /** The body bytes a sequence of orders carries. */
  function Data(s: seq<Order>): seq<byte> {
    if s == [] then [] else Piece(s[0]) + Data(s[1..])
  }

  // ------------------------------------------------------------ HTTP handler

  datatype Phase = Unsent | AwaitReady | Reading | Draining | AwaitResult | Returned | Removed

  datatype Verdict =
    | Undecided | Ok | DeviceError | InvalidCredits | TooLarge
    | AgentUnreachable | BodyFailed | StreamEnded | TimedOut | ClientLeft

  /** handleFileUpload's variables; `finished` records that file_upload_end was sent. */
  datatype Handler = Handler(
    phase: Phase, credits: int, window: int, total: nat, finished: bool, verdict: Verdict)

  const FRESH_HANDLER := Handler(Unsent, INITIAL_FILE_UPLOAD_CREDITS, 0, 0, false, Undecided)

  function Leave(h: Handler, v: Verdict): Handler {
    h.(phase := Returned, verdict := v)
  }

  /** The handler is inside one of its calls of `wait`. */
  predicate InWait(h: Handler) {
    || h.phase.AwaitReady? || h.phase.AwaitResult?
    || (h.phase.Reading? && h.credits == 0) || (h.phase.Draining? && h.credits < h.window)
  }

  predicate Expected(h: Handler, m: Reply) {
    match h.phase
    case AwaitReady => m.Ready?
    case AwaitResult => m.Result?
    case _ => m.Credit?
  }

  /** One reply seen by `wait`, and what the handler does when `wait` returns. */
  function AfterReply(h: Handler, m: Reply): Handler {
    if !Expected(h, m) then
      if m.Result? && m.failed then Leave(h, DeviceError) else h
    else match m
      case Ready(granted, failed) =>
        if failed then Leave(h, DeviceError)
        else if granted < 1 || granted > INITIAL_FILE_UPLOAD_CREDITS then Leave(h, InvalidCredits)
        else h.(phase := Reading, credits := granted, window := granted)
      case Credit(amount) =>
        if amount < 1 || amount > h.window then Leave(h, InvalidCredits)
        else h.(credits := Min(h.window, h.credits + amount))
      case Result(failed, size) => Leave(h, if failed then DeviceError else Ok)
  }

  // ------------------------------------------------------------ whole system

  datatype Worker =
    | Unborn          // no session yet
    | Idle            // selecting on stop and events
    | Took(m: Order)  // received an event, about to look at stop again
    | Owing           // wrote a chunk, about to send its credit
    | Committing      // took the session out with file_upload_end
    | Exited

  /** `contentLength` is -1 when the request does not state one. */
  datatype Config = Config(max: nat, agentMax: nat, chunkBytes: nat, contentLength: int)

  datatype Server = Server(handler: Handler, pending: Pending<Reply>, content: seq<byte>, pos: nat)
  datatype Net = Net(down: seq<Order>, up: seq<Reply>, conn: bool)

  /** `owned`: the agent's upload table still maps this request to the session. */
  datatype Agent = Agent(
    worker: Worker, owned: bool, stopped: bool, events: seq<Order>,
    session: Session, target: Option<seq<byte>>)

  datatype State = State(srv: Server, net: Net, agt: Agent, lost: int)

  datatype BodyOutcome = More | EndOfBody | BodyFault

  datatype Event =
    // HTTP handler
    | SendStart | Take | ReadBody(n: nat, outcome: BodyOutcome) | SendEnd
    | SeeDone | Timeout | ClientGone | RemovePending
    // server reader loop, server shutdown
    | ServerRead | Shutdown
    // agent reader loop
    | AgentRead(ok: bool)
    // agent worker
    | TakeEvent | SeeStop | Work(io: WriteIo) | SendCredit | FinishUpload(result: FinishIo, targetExists: bool)
    // environment
    | Disconnect | Teardown

  function Init(content: seq<byte>): State {
    State(Server(FRESH_HANDLER, Pending([], None), content, 0), Net([], [], true),
          Agent(Unborn, false, false, [], Session(-1, [], 0), None), 0)
  }

  predicate Enabled(c: Config, s: State, e: Event) {
    var v, a := s.srv, s.agt;
    var h := v.handler;
    match e
    case SendStart => h.phase.Unsent?
    case Take => InWait(h) && v.pending.ch != []
    case ReadBody(n, outcome) =>
      && h.phase.Reading? && h.credits > 0 && n <= c.chunkBytes && v.pos + n <= |v.content|
      && (outcome.EndOfBody? ==> v.pos + n == |v.content|)
    case SendEnd => h.phase.Draining? && h.credits >= h.window
    case SeeDone => InWait(h) && v.pending.done.Some?
    case Timeout => InWait(h)
    case ClientGone => InWait(h)
    case RemovePending => h.phase.Returned?
    case ServerRead => s.net.conn && s.net.up != []
    case Shutdown => true
    case AgentRead(_) => s.net.conn && s.net.down != []
    case TakeEvent => a.worker.Idle? && a.events != []
    case SeeStop => a.worker.Idle? && a.stopped
    case Work(_) => a.worker.Took?
    case SendCredit => a.worker.Owing?
    case FinishUpload(_, _) => a.worker.Committing?
    case Disconnect => s.net.conn
    case Teardown => !s.net.conn
  }

  function SendDown(n: Net, o: Order): Net {
    if n.conn then n.(down := n.down + [o]) else n
  }

  function SendUp(n: Net, m: Reply): Net {
    if n.conn then n.(up := n.up + [m]) else n
  }

  function TakeStep(s: State): State
    requires s.srv.pending.ch != []
  {
    var v := s.srv;
    var m := v.pending.ch[0];
    var h := AfterReply(v.handler, m);
    s.(srv := v.(handler := h, pending := v.pending.(ch := v.pending.ch[1..])),
       lost := s.lost + (if m.Credit? then 1 else 0) - (h.credits - v.handler.credits))
  }

  /** The handler after `n` bytes were read, and whether they go out as a chunk or an abort does. */
  function AfterBytes(max: int, h: Handler, n: nat, connected: bool): (Handler, bool, bool) {
    var counted := h.(total := h.total + n);
    if max > 0 && counted.total > max then (Leave(counted, TooLarge), false, true)
    else if !connected then (Leave(counted, AgentUnreachable), false, true)
    else (counted.(credits := counted.credits - 1), true, false)
  }

  /** Reading `n` bytes of the body and passing them on. */
  function Forwarded(c: Config, s: State, n: nat): State
    requires s.srv.pos + n <= |s.srv.content|
  {
    if n == 0 then s else
    var (h, send, abort) := AfterBytes(c.max, s.srv.handler, n, s.net.conn);
    s.(srv := s.srv.(pos := s.srv.pos + n, handler := h),
       net := if send then SendDown(s.net, Chunk(s.srv.content[s.srv.pos..s.srv.pos + n]))
              else if abort then SendDown(s.net, Abort) else s.net)
  }

  /** The rest of the read loop's body, unless the handler has returned. */
  function AfterRead(s: State, outcome: BodyOutcome): State {
    if !s.srv.handler.phase.Reading? || outcome.More? then s
    else if outcome.EndOfBody? then s.(srv := s.srv.(handler := s.srv.handler.(phase := Draining)))
    else s.(srv := s.srv.(handler := Leave(s.srv.handler, BodyFailed)), net := SendDown(s.net, Abort))
  }

  function ServerReadStep(s: State): State
    requires s.net.up != []
  {
    var (p, d) := AfterDeliver(s.srv.pending, s.net.up[0]);
    s.(srv := s.srv.(pending := p), net := s.net.(up := s.net.up[1..]),
       lost := s.lost + if s.net.up[0].Credit? && !d.Queued? then 1 else 0)
  }

  /** queueCreditUploadEvent on a session that is still in the table. */
  function QueueEvent(a: Agent, n: Net, m: Order): (Agent, Net) {
    if |a.events| < MAX_FILE_UPLOAD_CREDITS then (a.(events := a.events + [m]), n)
    else (a.(owned := false, stopped := true), SendUp(n, Result(true, 0)))
  }

  function OnStart(c: Config, s: State, o: Order, ok: bool): State
    requires o.Start?
  {
    if !s.agt.worker.Unborn? then s
    else if !ok || o.size < -1 || (c.agentMax > 0 && o.size > c.agentMax) then s.(net := SendUp(s.net, Ready(0, true)))
    else s.(net := SendUp(s.net, Ready(Min(o.credits, MAX_FILE_UPLOAD_CREDITS), false)),
            agt := s.agt.(worker := Idle, owned := true, session := Session(o.size, [], 0)))
  }

  function OnChunk(s: State, o: Order): State {
    if !s.agt.owned then s.(lost := s.lost + 1)
    else
      var (queued, net) := QueueEvent(s.agt, s.net, o);
      s.(agt := queued, net := net, lost := s.lost + if queued.owned then 0 else 1)
  }

  function OnEnd(s: State): State {
    if !s.agt.owned then s.(net := SendUp(s.net, Result(true, 0)))
    else
      var (queued, net) := QueueEvent(s.agt, s.net, End);
      s.(agt := queued, net := net)
  }

  function OnAbort(s: State): State {
    s.(agt := if s.agt.owned then s.agt.(owned := false, stopped := true) else s.agt)
  }

  function AgentReadStep(c: Config, s: State, ok: bool): State
    requires s.net.down != []
  {
    var o := s.net.down[0];
    var t := s.(net := s.net.(down := s.net.down[1..]));
    match o
    case Start(_, _) => OnStart(c, t, o, ok)
    case Chunk(_) => OnChunk(t, o)
    case End => OnEnd(t)
    case Abort => OnAbort(t)
  }

  function WorkStep(c: Config, s: State, io: WriteIo): State
    requires s.agt.worker.Took?
  {
    var a := s.agt;
    if a.stopped then
      s.(agt := a.(worker := Exited), lost := s.lost + if a.worker.m.Chunk? then 1 else 0)
    else match a.worker.m
      case Chunk(b) =>
        var (u, err) := AfterWrite(c.agentMax, a.session, Some(b), io);
        if err.None? then s.(agt := a.(session := u, worker := Owing))
        else s.(agt := a.(session := u, worker := Exited, owned := false), lost := s.lost + 1,
                net := if a.owned then SendUp(s.net, Result(true, 0)) else s.net)
      case End => s.(agt := a.(worker := if a.owned then Committing else Exited, owned := false))
      case _ => s.(agt := a.(worker := Idle))
  }

  function FinishStep(s: State, result: FinishIo, targetExists: bool): State {
    var a := s.agt;
    var err := FinishError(a.session, result, targetExists);
    s.(agt := a.(worker := Exited, target := if err.None? then Some(a.session.data) else a.target),
       net := SendUp(s.net, Result(err.Some?, a.session.written)))
  }

  function Step(c: Config, s: State, e: Event): State {
    if !Enabled(c, s, e) then s else
    var v, a := s.srv, s.agt;
    var h := v.handler;
    match e
    case SendStart =>
      if c.max > 0 && c.contentLength > c.max then s.(srv := v.(handler := h.(phase := Removed, verdict := TooLarge)))
      else if !s.net.conn then s.(srv := v.(handler := Leave(h, AgentUnreachable)))
      else s.(srv := v.(handler := h.(phase := AwaitReady)),
              net := SendDown(s.net, Start(c.contentLength, INITIAL_FILE_UPLOAD_CREDITS)))
    case Take => TakeStep(s)
    case ReadBody(n, outcome) => AfterRead(Forwarded(c, s, n), outcome)
    case SendEnd =>
      if s.net.conn then s.(srv := v.(handler := h.(phase := AwaitResult, finished := true)), net := SendDown(s.net, End))
      else s.(srv := v.(handler := Leave(h, AgentUnreachable)))
    case SeeDone => s.(srv := v.(handler := Leave(h, StreamEnded)))
    case Timeout => s.(srv := v.(handler := Leave(h, TimedOut)))
    case ClientGone => s.(srv := v.(handler := Leave(h, ClientLeft)))
    case RemovePending =>
      s.(srv := v.(handler := h.(phase := Removed), pending := AfterFinish(v.pending, HandlerReturned)),
         net := if h.verdict.Ok? then s.net else SendDown(s.net, Abort))
    case ServerRead => ServerReadStep(s)
    case Shutdown => s.(srv := v.(pending := AfterFinish(v.pending, ServerClosed)))
    case AgentRead(ok) => AgentReadStep(c, s, ok)
    case TakeEvent => s.(agt := a.(worker := Took(a.events[0]), events := a.events[1..]))
    case SeeStop => s.(agt := a.(worker := Exited))
    case Work(io) => WorkStep(c, s, io)
    case SendCredit =>
      if s.net.conn then s.(agt := a.(worker := Idle), net := SendUp(s.net, Credit(1)))
      else s.(agt := a.(worker := Exited, owned := false), lost := s.lost + 1)
    case FinishUpload(result, targetExists) => FinishStep(s, result, targetExists)
    case Disconnect =>
      s.(net := Net([], [], false), lost := s.lost + Count(IsChunk, s.net.down) + Count(IsCredit, s.net.up))
    case Teardown => s.(agt := if a.owned then a.(owned := false, stopped := true) else a)
  }

  /** The state after a run. */
  function After(c: Config, content: seq<byte>, run: seq<Event>): State {
    if run == [] then Init(content) else Step(c, After(c, content, run[..|run| - 1]), run[|run| - 1])
  }

  // ---------------------------------------------------------------- invariant

  function InWorker(w: Worker): int {
    if w.Owing? || (w.Took? && w.m.Chunk?) then 1 else 0
  }

  /** Every place a credit of this transfer can be. */
  function InCirculation(s: State): int {
    s.srv.handler.credits + Count(IsChunk, s.net.down) + Count(IsChunk, s.agt.events)
    + InWorker(s.agt.worker) + Count(IsCredit, s.net.up) + Count(IsCredit, s.srv.pending.ch)
  }

  predicate Attending(h: Handler) { h.phase.Reading? || h.phase.Draining? || h.phase.AwaitResult? }

  /** Nothing has failed yet: session in the table, worker running, handler attending. */
  predicate Flowing(s: State) {
    && s.net.conn && s.agt.owned && (s.agt.worker.Idle? || s.agt.worker.Took? || s.agt.worker.Owing?)
    && s.srv.pending.done.None? && Attending(s.srv.handler)
  }

  /** What the worker holds, then its queue, then the wire. */
  function Pipeline(s: State): seq<byte> {
    (if s.agt.worker.Took? then Piece(s.agt.worker.m) else []) + (Data(s.agt.events) + Data(s.net.down))
  }

  /** Conservation of credits; nothing lost once file_upload_end has been sent. */
  predicate Windowed(s: State) {
    && InCirculation(s) + s.lost == INITIAL_FILE_UPLOAD_CREDITS
    && s.lost >= 0
    && (Flowing(s) ==> s.lost == 0)
    && s.srv.handler.credits >= 0
    && (s.srv.handler.finished ==> s.srv.handler.credits == INITIAL_FILE_UPLOAD_CREDITS)
  }

  /** The handler's variables. */
  predicate Handled(c: Config, v: Server) {
    var h := v.handler;
    && v.pos <= |v.content| && h.total == v.pos
    && (h.phase.Unsent? ==> h == FRESH_HANDLER)
    && (h.phase.Unsent? || h.phase.AwaitReady? ==>
          v.pos == 0 && h.credits == INITIAL_FILE_UPLOAD_CREDITS)
    && (Attending(h) ==> h.window == INITIAL_FILE_UPLOAD_CREDITS)
    && (h.phase.AwaitResult? ==> h.finished)
    && (h.phase.Draining? || h.finished ==> v.pos == |v.content|)
    && (h.finished ==> h.phase.AwaitResult? || h.phase.Returned? || h.phase.Removed?)
    && (h.phase.AwaitResult? || h.phase.AwaitReady? || h.phase.Reading? || h.phase.Draining? ==> h.verdict.Undecided?)
    && (c.max > 0 && h.verdict != TooLarge ==> v.pos <= c.max)
  }

  /** Bytes are only ever in the temporary file or in the pipeline, in order. */
  predicate Flows(s: State) {
    && ((Attending(s.srv.handler) || s.srv.handler.finished) && s.lost == 0 ==>
          s.srv.pos <= |s.srv.content| && s.srv.content[..s.srv.pos] == s.agt.session.data + Pipeline(s))
    && (s.srv.handler.phase.Unsent? || s.srv.handler.phase.AwaitReady? ==>
          s.agt.session.data == [] && Pipeline(s) == [])
  }

  predicate GoodReply(m: Reply) {
    match m
    case Ready(granted, failed) => failed || granted == INITIAL_FILE_UPLOAD_CREDITS
    case Credit(amount) => amount == 1
    case Result(_, _) => true
  }

  predicate GoodReplies(v: Server, n: Net) {
    && (forall i | 0 <= i < |v.pending.ch| :: GoodReply(v.pending.ch[i]))
    && (forall i | 0 <= i < |n.up| :: GoodReply(n.up[i]))
    && |v.pending.ch| <= 6
    && v.pending.done != Some(Backpressure)
    && (!n.conn ==> n.up == [] && n.down == [])
  }

  /** One start gives at most one ready, one worker at most one result. */
  predicate Replied(v: Server, n: Net, a: Agent) {
    && Count(IsReady, v.pending.ch) + Count(IsReady, n.up) + Count(IsStart, n.down)
         <= (if v.handler.phase.Unsent? then 0 else 1)
    && Count(IsResult, v.pending.ch) + Count(IsResult, n.up) <= (if a.worker.Exited? then 1 else 0)
  }

  predicate Running(w: Worker) { w.Idle? || w.Took? || w.Owing? }

  function EndsIn(n: Net, a: Agent): int {
    Count(IsEnd, n.down) + Count(IsEnd, a.events) + if a.worker == Took(End) then 1 else 0
  }

  /** What may be on its way to the agent. */
  predicate GoodOrders(c: Config, v: Server, n: Net, a: Agent) {
    && (forall i | 0 <= i < |n.down| :: n.down[i].Start? ==>
          a.worker.Unborn? && n.down[i] == Start(c.contentLength, INITIAL_FILE_UPLOAD_CREDITS))
    && (forall i, j | 0 <= i < j < |n.down| && n.down[i].Abort? :: n.down[j].Abort?)
    && (forall i | 0 <= i < |n.down| && n.down[i].Abort? :: v.handler.phase.Returned? || v.handler.phase.Removed?)
    && (forall i | 0 <= i < |a.events| :: a.events[i].Chunk? || a.events[i].End?)
    && |a.events| <= MAX_FILE_UPLOAD_CREDITS
    && (a.worker.Took? ==> a.worker.m.Chunk? || a.worker.m.End?)
    && (a.owned ==> !a.stopped && Running(a.worker))
    && (a.worker.Unborn? ==> a.events == [] && !a.stopped)
    && (v.handler.phase.Unsent? ==> a.worker.Unborn? && n.down == [])
  }

  /** Where file_upload_end can be, and that its session is still there to receive it. */
  predicate Ends(s: State) {
    var h := s.srv.handler;
    && EndsIn(s.net, s.agt) <= (if h.finished then 1 else 0)
    && (s.agt.worker.Committing? || s.agt.target.Some? ==> h.finished && EndsIn(s.net, s.agt) == 0)
    && (Count(IsEnd, s.net.down) > 0 ==> s.agt.owned)
    && (s.net.conn && s.lost == 0 && (h.phase.Reading? || h.phase.Draining? || (h.phase.AwaitReady? && !s.agt.worker.Unborn?)) ==>
          s.agt.owned)
  }

  /** The agent's session has been set up before the handler counts on it. */
  predicate Begun(c: Config, v: Server, n: Net, a: Agent) {
    && (a.worker.Unborn? ==>
          && !Attending(v.handler) && !v.handler.finished
          && a.session.data == [] && a.session.written == 0
          && (forall i | 0 <= i < |v.pending.ch| && v.pending.ch[i].Ready? :: v.pending.ch[i].failed)
          && (forall i | 0 <= i < |n.up| && n.up[i].Ready? :: n.up[i].failed))
    && (!a.worker.Unborn? ==> a.session.expected == c.contentLength)
    && (a.worker.Unborn? || v.handler.phase.AwaitReady? ==> !v.handler.finished && a.target.None?)
    && Sound(c.agentMax, a.session)
  }

  /** The target appears only from a finished session, and a good result only with the target. */
  predicate Committed(v: Server, n: Net, a: Agent) {
    && (a.target.Some? ==>
          && v.handler.finished && a.worker.Exited?
          && a.target.value == a.session.data
          && (a.session.expected >= 0 ==> a.session.expected == a.session.written))
    && ((exists i :: 0 <= i < |v.pending.ch| && v.pending.ch[i].Result? && !v.pending.ch[i].failed) ==> a.target.Some?)
    && ((exists i :: 0 <= i < |n.up| && n.up[i].Result? && !n.up[i].failed) ==> a.target.Some?)
    && (v.handler.verdict.Ok? ==> a.target.Some?)
  }

  /** What is conserved, and where things are. */
  predicate Books(c: Config, s: State) {
    Windowed(s) && Handled(c, s.srv) && Flows(s) && Ends(s)
  }

  /** What the queues may hold, and what the agent has done. */
  predicate Mail(c: Config, s: State) {
    && GoodReplies(s.srv, s.net) && Replied(s.srv, s.net, s.agt)
    && GoodOrders(c, s.srv, s.net, s.agt) && Begun(c, s.srv, s.net, s.agt) && Committed(s.srv, s.net, s.agt)
  }

  predicate Inv(c: Config, s: State) {
    Books(c, s) && Mail(c, s)
  }

  // -------------------------------------------------------------------- facts

  lemma {:induction false} DataAppend(a: seq<Order>, b: seq<Order>)
    ensures Data(a + b) == Data(a) + Data(b)
  {
    if a == [] {
      assert a + b == b;
    } else {
      assert (a + b)[1..] == a[1..] + b;
      DataAppend(a[1..], b);
    }
  }

  lemma DataSnoc(s: seq<Order>, o: Order)
    ensures Data(s + [o]) == Data(s) + Piece(o)
  {
    DataAppend(s, [o]);
    assert [o][1..] == [];
  }

  lemma {:induction false} NoChunksNoData(s: seq<Order>)
    requires Count(IsChunk, s) == 0
    ensures Data(s) == []
  {
    if s != [] {
      NoChunksNoData(s[1..]);
    }
  }

  lemma {:induction false} ReplyKinds(s: seq<Reply>)
    ensures |s| == Count(IsReady, s) + Count(IsCredit, s) + Count(IsResult, s)
  {
    if s != [] {
      ReplyKinds(s[1..]);
    }
  }

  lemma {:induction false} EventKinds(s: seq<Order>)
    requires forall i | 0 <= i < |s| :: s[i].Chunk? || s[i].End?
    ensures |s| == Count(IsChunk, s) + Count(IsEnd, s)
  {
    if s != [] {
      EventKinds(s[1..]);
    }
  }

  /** How every count moves when a message is sent. */
  lemma CountsDown(s: seq<Order>, o: Order)
    ensures Count(IsChunk, s + [o]) == Count(IsChunk, s) + if o.Chunk? then 1 else 0
    ensures Count(IsEnd, s + [o]) == Count(IsEnd, s) + if o.End? then 1 else 0
    ensures Count(IsStart, s + [o]) == Count(IsStart, s) + if o.Start? then 1 else 0
  {
    CountSnoc(IsChunk, s, o);
    CountSnoc(IsEnd, s, o);
    CountSnoc(IsStart, s, o);
  }

  lemma CountsUp(s: seq<Reply>, m: Reply)
    ensures Count(IsReady, s + [m]) == Count(IsReady, s) + if m.Ready? then 1 else 0
    ensures Count(IsCredit, s + [m]) == Count(IsCredit, s) + if m.Credit? then 1 else 0
    ensures Count(IsResult, s + [m]) == Count(IsResult, s) + if m.Result? then 1 else 0
  {
    CountSnoc(IsReady, s, m);
    CountSnoc(IsCredit, s, m);
    CountSnoc(IsResult, s, m);
  }

  lemma InvInit(c: Config, content: seq<byte>)
    ensures Inv(c, Init(content))
  {}

  lemma AppendAssociates(s: State, piece: seq<byte>)
    ensures s.agt.session.data + Pipeline(s) + piece ==
      s.agt.session.data + ((if s.agt.worker.Took? then Piece(s.agt.worker.m) else []) + (Data(s.agt.events) + (Data(s.net.down) + piece)))
  {}

  /** Once file_upload_end is out nothing else of the transfer is anywhere. */
  lemma FinishedIsEmpty(s: State)
    requires Windowed(s) && s.srv.handler.finished
    ensures s.lost == 0 && Count(IsChunk, s.net.down) == 0 && Count(IsChunk, s.agt.events) == 0
    ensures InWorker(s.agt.worker) == 0 && Count(IsCredit, s.net.up) == 0 && Count(IsCredit, s.srv.pending.ch) == 0
    ensures Pipeline(s) == []
  {
    NoChunksNoData(s.net.down);
    NoChunksNoData(s.agt.events);
  }

  // ------------------------------------------------- the invariant is inductive

  lemma InvSendStartBooks(c: Config, s: State)
    requires Inv(c, s)
    requires Enabled(c, s, SendStart)
    ensures Books(c, Step(c, s, SendStart))
  {
    var o := Start(c.contentLength, INITIAL_FILE_UPLOAD_CREDITS);
    CountsDown(s.net.down, o);
    DataSnoc(s.net.down, o);
  }

  lemma InvSendStartReplies(c: Config, s: State)
    requires Inv(c, s)
    requires Enabled(c, s, SendStart)
    ensures var t := Step(c, s, SendStart); GoodReplies(t.srv, t.net) && Replied(t.srv, t.net, t.agt)
  {
    CountsDown(s.net.down, Start(c.contentLength, INITIAL_FILE_UPLOAD_CREDITS));
  }

  lemma InvSendStartAgent(c: Config, s: State)
    requires Inv(c, s)
    requires Enabled(c, s, SendStart)
    ensures var t := Step(c, s, SendStart); GoodOrders(c, t.srv, t.net, t.agt) && Begun(c, t.srv, t.net, t.agt) && Committed(t.srv, t.net, t.agt)
  {}

  /** One more chunk on the wire carries on from the bytes that are on their way already. */
  lemma FlowsSent(s: State, t: State, n: nat)
    requires Flows(s) && s.srv.handler.phase.Reading? && s.srv.pos + n <= |s.srv.content|
    requires t.agt == s.agt && t.lost == s.lost && t.srv.content == s.srv.content && t.srv.pos == s.srv.pos + n
    requires t.srv.handler.phase.Reading? && t.net.down == s.net.down + [Chunk(s.srv.content[s.srv.pos..s.srv.pos + n])]
    ensures Flows(t)
  {
    var piece := s.srv.content[s.srv.pos..s.srv.pos + n];
    DataSnoc(s.net.down, Chunk(piece));
    AppendAssociates(s, piece);
    SliceSnoc(s.srv.content, s.srv.pos, s.srv.pos + n);
  }

  lemma InvForwardedFlows(c: Config, s: State, n: nat)
    requires Flows(s) && (!s.net.conn ==> s.net.down == [])
    requires s.srv.handler.phase.Reading? && !s.srv.handler.finished && s.srv.pos + n <= |s.srv.content|
    ensures Flows(Forwarded(c, s, n))
  {
    var t := Forwarded(c, s, n);
    if n > 0 && t.srv.handler.phase.Reading? {
      FlowsSent(s, t, n);
    }
  }

  lemma InvForwardedLedger(c: Config, s: State, n: nat)
    requires Inv(c, s)
    requires s.srv.handler.phase.Reading? && s.srv.handler.credits > 0 && s.srv.pos + n <= |s.srv.content|
    ensures var t := Forwarded(c, s, n); Windowed(t) && Handled(c, t.srv) && Ends(t)
  {
    CountsDown(s.net.down, Chunk(s.srv.content[s.srv.pos..s.srv.pos + n]));
    CountsDown(s.net.down, Abort);
  }

  lemma InvForwardedReplies(c: Config, s: State, n: nat)
    requires Inv(c, s)
    requires s.srv.handler.phase.Reading? && s.srv.handler.credits > 0 && s.srv.pos + n <= |s.srv.content|
    ensures var t := Forwarded(c, s, n); GoodReplies(t.srv, t.net) && Replied(t.srv, t.net, t.agt)
  {
    CountsDown(s.net.down, Chunk(s.srv.content[s.srv.pos..s.srv.pos + n]));
    CountsDown(s.net.down, Abort);
  }

  lemma InvForwardedAgent(c: Config, s: State, n: nat)
    requires Inv(c, s)
    requires s.srv.handler.phase.Reading? && s.srv.handler.credits > 0 && s.srv.pos + n <= |s.srv.content|
    ensures var t := Forwarded(c, s, n); GoodOrders(c, t.srv, t.net, t.agt) && Begun(c, t.srv, t.net, t.agt) && Committed(t.srv, t.net, t.agt)
  {}

  lemma InvAfterReadBooks(c: Config, s: State, outcome: BodyOutcome)
    requires Inv(c, s)
    requires outcome.EndOfBody? ==> s.srv.pos == |s.srv.content|
    ensures Books(c, AfterRead(s, outcome))
  {
    CountsDown(s.net.down, Abort);
    DataSnoc(s.net.down, Abort);
  }

  lemma InvAfterReadMail(c: Config, s: State, outcome: BodyOutcome)
    requires Inv(c, s)
    requires outcome.EndOfBody? ==> s.srv.pos == |s.srv.content|
    ensures Mail(c, AfterRead(s, outcome))
  {
    CountsDown(s.net.down, Abort);
  }

  lemma InvSendEndBooks(c: Config, s: State)
    requires Inv(c, s)
    requires Enabled(c, s, SendEnd)
    ensures Books(c, Step(c, s, SendEnd))
  {
    CountsDown(s.net.down, End);
    DataSnoc(s.net.down, End);
  }

  lemma InvSendEndReplies(c: Config, s: State)
    requires Inv(c, s)
    requires Enabled(c, s, SendEnd)
    ensures var t := Step(c, s, SendEnd); GoodReplies(t.srv, t.net) && Replied(t.srv, t.net, t.agt)
  {
    CountsDown(s.net.down, End);
  }

  lemma InvSendEndAgent(c: Config, s: State)
    requires Inv(c, s)
    requires Enabled(c, s, SendEnd)
    ensures var t := Step(c, s, SendEnd); GoodOrders(c, t.srv, t.net, t.agt) && Begun(c, t.srv, t.net, t.agt) && Committed(t.srv, t.net, t.agt)
  {}

  lemma InvTakeFlows(c: Config, s: State)
    requires Inv(c, s)
    requires Enabled(c, s, Take)
    ensures var t := TakeStep(s); Flows(t)
  {
    if s.srv.handler.finished {
      FinishedIsEmpty(s);
    }
  }

  lemma InvTakeWindowed(c: Config, s: State)
    requires Inv(c, s)
    requires Enabled(c, s, Take)
    ensures var t := TakeStep(s); Windowed(t)
  {
    if s.srv.handler.finished {
      FinishedIsEmpty(s);
    }
  }

  lemma InvTakeHandler(c: Config, s: State)
    requires Inv(c, s)
    requires Enabled(c, s, Take)
    ensures var t := TakeStep(s); Handled(c, t.srv) && Ends(t)
  {}

  lemma InvTakeReplies(c: Config, s: State)
    requires Inv(c, s)
    requires Enabled(c, s, Take)
    ensures var t := TakeStep(s); GoodReplies(t.srv, t.net) && Replied(t.srv, t.net, t.agt)
  {}

  lemma InvTakeAgent(c: Config, s: State)
    requires Inv(c, s)
    requires Enabled(c, s, Take)
    ensures var t := TakeStep(s); GoodOrders(c, t.srv, t.net, t.agt) && Begun(c, t.srv, t.net, t.agt) && Committed(t.srv, t.net, t.agt)
  {
    if s.srv.handler.finished {
      FinishedIsEmpty(s);
    }
  }

  /** Waiting ends without a message: the handler returns, and nothing else changes. */
  lemma LeftBooks(c: Config, s: State, v: Verdict)
    requires Books(c, s) && InWait(s.srv.handler) && (v.StreamEnded? || v.TimedOut? || v.ClientLeft?)
    ensures Books(c, s.(srv := s.srv.(handler := Leave(s.srv.handler, v))))
  {}

  lemma LeftMail(c: Config, s: State, v: Verdict)
    requires Mail(c, s) && InWait(s.srv.handler) && (v.StreamEnded? || v.TimedOut? || v.ClientLeft?)
    ensures Mail(c, s.(srv := s.srv.(handler := Leave(s.srv.handler, v))))
  {}

  lemma InvLeft(c: Config, s: State, e: Event)
    requires Inv(c, s)
    requires Enabled(c, s, e) && (e.SeeDone? || e.Timeout? || e.ClientGone?)
    ensures Inv(c, Step(c, s, e))
  {
    var v := if e.SeeDone? then StreamEnded else if e.Timeout? then TimedOut else ClientLeft;
    LeftBooks(c, s, v);
    LeftMail(c, s, v);
  }

  lemma InvShutdown(c: Config, s: State)
    requires Inv(c, s)
    ensures Inv(c, Step(c, s, Shutdown))
  {}

  lemma InvRemovePendingBooks(c: Config, s: State)
    requires Inv(c, s)
    requires Enabled(c, s, RemovePending)
    ensures Books(c, Step(c, s, RemovePending))
  {
    CountsDown(s.net.down, Abort);
    DataSnoc(s.net.down, Abort);
  }

  lemma InvRemovePendingReplies(c: Config, s: State)
    requires Inv(c, s)
    requires Enabled(c, s, RemovePending)
    ensures var t := Step(c, s, RemovePending); GoodReplies(t.srv, t.net) && Replied(t.srv, t.net, t.agt)
  {
    CountsDown(s.net.down, Abort);
  }

  lemma InvRemovePendingMail(c: Config, s: State)
    requires Inv(c, s)
    requires Enabled(c, s, RemovePending)
    ensures Mail(c, Step(c, s, RemovePending))
  {
    InvRemovePendingReplies(c, s);
  }

  lemma InvServerReadBooks(c: Config, s: State)
    requires Inv(c, s)
    requires Enabled(c, s, ServerRead)
    ensures Books(c, ServerReadStep(s))
  {
    CountsUp(s.srv.pending.ch, s.net.up[0]);
    ReplyKinds(s.srv.pending.ch);
  }

  lemma InvServerReadReplies(c: Config, s: State)
    requires Inv(c, s)
    requires Enabled(c, s, ServerRead)
    ensures var t := ServerReadStep(s); GoodReplies(t.srv, t.net) && Replied(t.srv, t.net, t.agt)
  {
    CountsUp(s.srv.pending.ch, s.net.up[0]);
    ReplyKinds(s.srv.pending.ch);
  }

  lemma InvServerReadAgent(c: Config, s: State)
    requires Inv(c, s)
    requires Enabled(c, s, ServerRead)
    ensures var t := ServerReadStep(s); GoodOrders(c, t.srv, t.net, t.agt) && Begun(c, t.srv, t.net, t.agt) && Committed(t.srv, t.net, t.agt)
  {
    CountsUp(s.srv.pending.ch, s.net.up[0]);
    ReplyKinds(s.srv.pending.ch);
  }

  lemma InvOnStartBooks(c: Config, s: State, ok: bool)
    requires Inv(c, s)
    requires Enabled(c, s, AgentRead(ok)) && s.net.down[0].Start?
    ensures Books(c, AgentReadStep(c, s, ok))
  {
    CountsUp(s.net.up, Ready(0, true));
    CountsUp(s.net.up, Ready(INITIAL_FILE_UPLOAD_CREDITS, false));
    CountPositive(IsStart, s.net.down[1..]);
  }

  lemma InvOnStartReplies(c: Config, s: State, ok: bool)
    requires Inv(c, s)
    requires Enabled(c, s, AgentRead(ok)) && s.net.down[0].Start?
    ensures var t := AgentReadStep(c, s, ok); GoodReplies(t.srv, t.net) && Replied(t.srv, t.net, t.agt)
  {
    CountsUp(s.net.up, Ready(0, true));
    CountsUp(s.net.up, Ready(INITIAL_FILE_UPLOAD_CREDITS, false));
    CountPositive(IsStart, s.net.down[1..]);
  }

  lemma InvOnStartMail(c: Config, s: State, ok: bool)
    requires Inv(c, s)
    requires Enabled(c, s, AgentRead(ok)) && s.net.down[0].Start?
    ensures Mail(c, AgentReadStep(c, s, ok))
  {
    InvOnStartReplies(c, s, ok);
    CountPositive(IsStart, s.net.down[1..]);
  }

  /** A chunk moves from the wire to the queue behind it: the bytes on their way stay the same. */
  lemma PipelineShifts(s: State, t: State)
    requires s.net.down != [] && t.net.down == s.net.down[1..]
    requires t.agt == s.agt.(events := s.agt.events + [s.net.down[0]])
    ensures Pipeline(t) == Pipeline(s)
  {
    DataSnoc(s.agt.events, s.net.down[0]);
    var held := if s.agt.worker.Took? then Piece(s.agt.worker.m) else [];
    assert held + ((Data(s.agt.events) + Piece(s.net.down[0])) + Data(s.net.down[1..]))
        == held + (Data(s.agt.events) + (Piece(s.net.down[0]) + Data(s.net.down[1..])));
  }

  lemma InvOnChunkFlows(c: Config, s: State)
    requires Inv(c, s)
    requires s.net.conn && s.net.down != [] && s.net.down[0].Chunk?
    ensures var t := OnChunk(s.(net := s.net.(down := s.net.down[1..])), s.net.down[0]); Flows(t)
  {
    var t := OnChunk(s.(net := s.net.(down := s.net.down[1..])), s.net.down[0]);
    assert t.srv == s.srv;
    if t.lost == s.lost {
      PipelineShifts(s, t);
    }
  }

  lemma InvOnChunkLedger(c: Config, s: State)
    requires Inv(c, s)
    requires s.net.conn && s.net.down != [] && s.net.down[0].Chunk?
    ensures var t := OnChunk(s.(net := s.net.(down := s.net.down[1..])), s.net.down[0]); Windowed(t) && Handled(c, t.srv) && Ends(t)
  {
    CountsDown(s.agt.events, s.net.down[0]);
    EventKinds(s.agt.events);
  }

  lemma InvOnChunkMail(c: Config, s: State)
    requires Inv(c, s)
    requires s.net.conn && s.net.down != [] && s.net.down[0].Chunk?
    ensures Mail(c, OnChunk(s.(net := s.net.(down := s.net.down[1..])), s.net.down[0]))
  {
    CountsDown(s.agt.events, s.net.down[0]);
    EventKinds(s.agt.events);
  }

  lemma InvOnEndBooks(c: Config, s: State)
    requires Inv(c, s)
    requires s.net.conn && s.net.down != [] && s.net.down[0].End?
    ensures Books(c, OnEnd(s.(net := s.net.(down := s.net.down[1..]))))
  {
    FinishedIsEmpty(s);
    EventKinds(s.agt.events);
    CountsDown(s.agt.events, End);
    DataSnoc(s.agt.events, End);
  }

  lemma InvOnEndMail(c: Config, s: State)
    requires Inv(c, s)
    requires s.net.conn && s.net.down != [] && s.net.down[0].End?
    ensures Mail(c, OnEnd(s.(net := s.net.(down := s.net.down[1..]))))
  {
    FinishedIsEmpty(s);
    EventKinds(s.agt.events);
    CountsDown(s.agt.events, End);
    DataSnoc(s.agt.events, End);
  }

  lemma InvOnAbortBooks(c: Config, s: State)
    requires Inv(c, s)
    requires s.net.conn && s.net.down != [] && s.net.down[0].Abort?
    ensures Books(c, OnAbort(s.(net := s.net.(down := s.net.down[1..]))))
  {
    CountPositive(IsEnd, s.net.down);
  }

  lemma InvOnAbortMail(c: Config, s: State)
    requires Inv(c, s)
    requires s.net.conn && s.net.down != [] && s.net.down[0].Abort?
    ensures Mail(c, OnAbort(s.(net := s.net.(down := s.net.down[1..]))))
  {
    CountPositive(IsEnd, s.net.down);
  }

  lemma InvTakeEventFlows(c: Config, s: State)
    requires Inv(c, s)
    requires Enabled(c, s, TakeEvent)
    ensures var t := Step(c, s, TakeEvent); Flows(t)
  {
    if s.srv.handler.finished {
      FinishedIsEmpty(s);
    }
  }

  lemma InvTakeEventLedger(c: Config, s: State)
    requires Inv(c, s)
    requires Enabled(c, s, TakeEvent)
    ensures var t := Step(c, s, TakeEvent); Windowed(t) && Handled(c, t.srv) && Ends(t)
  {
    if s.srv.handler.finished {
      FinishedIsEmpty(s);
    }
  }

  lemma InvTakeEventMail(c: Config, s: State)
    requires Inv(c, s)
    requires Enabled(c, s, TakeEvent)
    ensures Mail(c, Step(c, s, TakeEvent))
  {
    if s.srv.handler.finished {
      FinishedIsEmpty(s);
    }
  }

  lemma InvWorkChunkBooks(c: Config, s: State, io: WriteIo)
    requires Inv(c, s)
    requires s.agt.worker.Took? && s.agt.worker.m.Chunk?
    ensures Books(c, WorkStep(c, s, io))
  {
    if s.srv.handler.finished {
      FinishedIsEmpty(s);
    }
    WriteAcceptsExactly(c.agentMax, s.agt.session, Some(s.agt.worker.m.data), io);
    CountsUp(s.net.up, Result(true, 0));
  }

  lemma InvWorkBooks(c: Config, s: State, io: WriteIo)
    requires Inv(c, s)
    requires s.agt.worker.Took?
    ensures Books(c, WorkStep(c, s, io))
  {
    if s.agt.worker.m.Chunk? {
      InvWorkChunkBooks(c, s, io);
    } else if s.srv.handler.finished {
      FinishedIsEmpty(s);
    }
  }

  lemma InvWorkChunkMail(c: Config, s: State, io: WriteIo)
    requires Inv(c, s)
    requires s.agt.worker.Took? && !s.agt.stopped && s.agt.worker.m.Chunk?
    ensures Mail(c, WorkStep(c, s, io))
  {
    if s.srv.handler.finished {
      FinishedIsEmpty(s);
    }
    WriteAcceptsExactly(c.agentMax, s.agt.session, Some(s.agt.worker.m.data), io);
    CountsUp(s.net.up, Result(true, 0));
  }

  lemma InvWorkMail(c: Config, s: State, io: WriteIo)
    requires Inv(c, s)
    requires s.agt.worker.Took?
    ensures Mail(c, WorkStep(c, s, io))
  {
    if !s.agt.stopped && s.agt.worker.m.Chunk? {
      InvWorkChunkMail(c, s, io);
    } else if s.srv.handler.finished {
      FinishedIsEmpty(s);
    }
  }

  lemma InvSendCreditBooks(c: Config, s: State)
    requires Inv(c, s)
    requires Enabled(c, s, SendCredit)
    ensures Books(c, Step(c, s, SendCredit))
  {
    if s.srv.handler.finished {
      FinishedIsEmpty(s);
    }
    CountsUp(s.net.up, Credit(1));
  }

  lemma InvSendCreditMail(c: Config, s: State)
    requires Inv(c, s)
    requires Enabled(c, s, SendCredit)
    ensures Mail(c, Step(c, s, SendCredit))
  {
    if s.srv.handler.finished {
      FinishedIsEmpty(s);
    }
    CountsUp(s.net.up, Credit(1));
  }

  lemma InvFinishBooks(c: Config, s: State, result: FinishIo, targetExists: bool)
    requires Inv(c, s)
    requires s.agt.worker.Committing?
    ensures Books(c, FinishStep(s, result, targetExists))
  {
    if s.srv.handler.finished {
      FinishedIsEmpty(s);
    }
    CountsUp(s.net.up, Result(FinishError(s.agt.session, result, targetExists).Some?, s.agt.session.written));
  }

  lemma InvFinishReplies(c: Config, s: State, result: FinishIo, targetExists: bool)
    requires Inv(c, s)
    requires s.agt.worker.Committing?
    ensures var t := FinishStep(s, result, targetExists); GoodReplies(t.srv, t.net) && Replied(t.srv, t.net, t.agt)
  {
    if s.srv.handler.finished {
      FinishedIsEmpty(s);
    }
    CountsUp(s.net.up, Result(FinishError(s.agt.session, result, targetExists).Some?, s.agt.session.written));
  }

  lemma InvFinishAgent(c: Config, s: State, result: FinishIo, targetExists: bool)
    requires Inv(c, s)
    requires s.agt.worker.Committing?
    ensures var t := FinishStep(s, result, targetExists); GoodOrders(c, t.srv, t.net, t.agt) && Begun(c, t.srv, t.net, t.agt) && Committed(t.srv, t.net, t.agt)
  {}

  lemma InvClosedBooks(c: Config, s: State, e: Event)
    requires Inv(c, s)
    requires Enabled(c, s, e) && (e.Disconnect? || e.Teardown? || e.SeeStop?)
    ensures Books(c, Step(c, s, e))
  {
    if Count(IsChunk, s.net.down) == 0 {
      NoChunksNoData(s.net.down);
    }
  }

  lemma InvClosedMail(c: Config, s: State, e: Event)
    requires Inv(c, s)
    requires Enabled(c, s, e) && (e.Disconnect? || e.Teardown? || e.SeeStop?)
    ensures Mail(c, Step(c, s, e))
  {
    if Count(IsChunk, s.net.down) == 0 {
      NoChunksNoData(s.net.down);
    }
  }

  lemma InvReadBody(c: Config, s: State, n: nat, outcome: BodyOutcome)
    requires Inv(c, s) && Enabled(c, s, ReadBody(n, outcome))
    ensures Inv(c, Step(c, s, ReadBody(n, outcome)))
  {
    InvForwardedFlows(c, s, n);
    InvForwardedLedger(c, s, n);
    InvForwardedReplies(c, s, n);
    InvForwardedAgent(c, s, n);
    InvAfterReadBooks(c, Forwarded(c, s, n), outcome);
    InvAfterReadMail(c, Forwarded(c, s, n), outcome);
  }

  lemma InvAgentRead(c: Config, s: State, ok: bool)
    requires Inv(c, s) && Enabled(c, s, AgentRead(ok))
    ensures Inv(c, AgentReadStep(c, s, ok))
  {
    match s.net.down[0]
    case Start(_, _) =>
      InvOnStartBooks(c, s, ok);
      InvOnStartMail(c, s, ok);
    case Chunk(_) =>
      InvOnChunkFlows(c, s);
      InvOnChunkLedger(c, s);
      InvOnChunkMail(c, s);
    case End =>
      InvOnEndBooks(c, s);
      InvOnEndMail(c, s);
    case Abort =>
      InvOnAbortBooks(c, s);
      InvOnAbortMail(c, s);
  }

  lemma InvWorker(c: Config, s: State, e: Event)
    requires Inv(c, s) && Enabled(c, s, e)
    requires e.TakeEvent? || e.Work? || e.SendCredit? || e.FinishUpload?
    ensures Inv(c, Step(c, s, e))
  {
    match e
    case TakeEvent =>
      InvTakeEventFlows(c, s);
      InvTakeEventLedger(c, s);
      InvTakeEventMail(c, s);
    case Work(io) =>
      InvWorkBooks(c, s, io);
      InvWorkMail(c, s, io);
    case SendCredit =>
      InvSendCreditBooks(c, s);
      InvSendCreditMail(c, s);
    case FinishUpload(result, targetExists) =>
      InvFinishBooks(c, s, result, targetExists);
      InvFinishReplies(c, s, result, targetExists);
      InvFinishAgent(c, s, result, targetExists);
  }

  /** Steps of the server: its handler, its reader loop, its shutdown. */
  predicate AtServer(e: Event) {
    || e.SendStart? || e.Take? || e.ReadBody? || e.SendEnd? || e.RemovePending? || e.ServerRead?
    || e.SeeDone? || e.Timeout? || e.ClientGone? || e.Shutdown?
  }

  lemma InvTake(c: Config, s: State)
    requires Inv(c, s) && Enabled(c, s, Take)
    ensures Inv(c, Step(c, s, Take))
  {
    InvTakeFlows(c, s);
    InvTakeWindowed(c, s);
    InvTakeHandler(c, s);
    InvTakeReplies(c, s);
    InvTakeAgent(c, s);
  }

  lemma InvServer(c: Config, s: State, e: Event)
    requires Inv(c, s) && Enabled(c, s, e) && AtServer(e)
    ensures Inv(c, Step(c, s, e))
  {
    match e
    case SendStart =>
      InvSendStartBooks(c, s);
      InvSendStartReplies(c, s);
      InvSendStartAgent(c, s);
    case Take => InvTake(c, s);
    case ReadBody(n, outcome) => InvReadBody(c, s, n, outcome);
    case SendEnd =>
      InvSendEndBooks(c, s);
      InvSendEndReplies(c, s);
      InvSendEndAgent(c, s);
    case RemovePending =>
      InvRemovePendingBooks(c, s);
      InvRemovePendingMail(c, s);
    case ServerRead =>
      InvServerReadBooks(c, s);
      InvServerReadReplies(c, s);
      InvServerReadAgent(c, s);
    case Shutdown => InvShutdown(c, s);
    case _ => InvLeft(c, s, e);
  }

  lemma InvStep(c: Config, s: State, e: Event)
    requires Inv(c, s)
    ensures Inv(c, Step(c, s, e))
  {
    if Enabled(c, s, e) {
      if AtServer(e) {
        InvServer(c, s, e);
      } else if e.AgentRead? {
        InvAgentRead(c, s, e.ok);
      } else if e.Disconnect? || e.Teardown? || e.SeeStop? {
        InvClosed(c, s, e);
      } else {
        InvWorker(c, s, e);
      }
    }
  }

  lemma InvClosed(c: Config, s: State, e: Event)
    requires Inv(c, s) && Enabled(c, s, e) && (e.Disconnect? || e.Teardown? || e.SeeStop?)
    ensures Inv(c, Step(c, s, e))
  {
    InvClosedBooks(c, s, e);
    InvClosedMail(c, s, e);
  }

  lemma SameContent(c: Config, s: State, e: Event)
    ensures Step(c, s, e).srv.content == s.srv.content
  {}

  lemma {:induction false} InvRun(c: Config, content: seq<byte>, run: seq<Event>)
    ensures Inv(c, After(c, content, run)) && After(c, content, run).srv.content == content
  {
    if run == [] {
      InvInit(c, content);
    } else {
      var s := After(c, content, run[..|run| - 1]);
      InvRun(c, content, run[..|run| - 1]);
      InvStep(c, s, run[|run| - 1]);
      SameContent(c, s, run[|run| - 1]);
    }
  }

  // -------------------------------------------------------------- main results

  /** Four credits exist, counting the lost ones; none is lost while nothing has failed, and then no reply is clipped. */
  lemma {:induction false} WindowConserved(c: Config, content: seq<byte>, run: seq<Event>)
    ensures var s := After(c, content, run);
      && InCirculation(s) + s.lost == INITIAL_FILE_UPLOAD_CREDITS && s.lost >= 0
      && (Flowing(s) ==> InCirculation(s) == INITIAL_FILE_UPLOAD_CREDITS)
      && (Enabled(c, s, Take) && Attending(s.srv.handler) && s.srv.pending.ch[0].Credit? ==>
            s.srv.handler.credits + s.srv.pending.ch[0].amount <= s.srv.handler.window)
  {
    InvRun(c, content, run);
    var s := After(c, content, run);
    if s.srv.pending.ch != [] && s.srv.pending.ch[0].Credit? {
      CountPositive(IsCredit, s.srv.pending.ch);
    }
  }

  /** No queue overflows: not the server's reply queue, not the agent's event queue; and file_upload_end arrives at an empty one. */
  lemma {:induction false} QueuesNeverOverflow(c: Config, content: seq<byte>, run: seq<Event>)
    ensures var s := After(c, content, run);
      && |s.srv.pending.ch| <= 6 < PENDING_QUEUE_CAPACITY && s.srv.pending.done != Some(Backpressure)
      && (Enabled(c, s, ServerRead) ==> !AfterDeliver(s.srv.pending, s.net.up[0]).1.Overflow?)
      && (s.net.down != [] && s.net.down[0].Chunk? && s.agt.owned ==> |s.agt.events| < MAX_FILE_UPLOAD_CREDITS)
      && (s.net.down != [] && s.net.down[0].End? ==> s.agt.owned && s.agt.events == [] && s.agt.worker.Idle?)
  {
    InvRun(c, content, run);
    var s := After(c, content, run);
    EventKinds(s.agt.events);
    if s.net.down != [] && s.net.down[0].End? {
      FinishedIsEmpty(s);
    }
  }

  lemma ReaderKeepsLost(c: Config, s: State, e: Event)
    requires Enabled(c, s, e) && (e.ServerRead? || e.AgentRead?)
    ensures Step(c, s, e).lost >= s.lost
  {}

  lemma TakeKeepsLost(c: Config, s: State)
    requires Inv(c, s) && Enabled(c, s, Take)
    ensures TakeStep(s).lost >= s.lost
  {
    var t := TakeStep(s);
    if s.srv.pending.ch[0].Credit? {
      CountPositive(IsCredit, s.srv.pending.ch);
    }
  }

  lemma RestKeepLost(c: Config, s: State, e: Event)
    requires Enabled(c, s, e) && !(e.ServerRead? || e.AgentRead? || e.Take?)
    ensures Step(c, s, e).lost >= s.lost
  {}

  lemma {:induction false} LostForEver(c: Config, content: seq<byte>, run: seq<Event>, more: seq<Event>)
    ensures After(c, content, run + more).lost >= After(c, content, run).lost
  {
    if more == [] {
      assert run + more == run;
    } else {
      var last := more[|more| - 1];
      assert (run + more)[..|run + more| - 1] == run + more[..|more| - 1];
      LostForEver(c, content, run, more[..|more| - 1]);
      var s := After(c, content, run + more[..|more| - 1]);
      if Enabled(c, s, last) {
        InvRun(c, content, run + more[..|more| - 1]);
        if last.Take? {
          TakeKeepsLost(c, s);
        } else if last.ServerRead? || last.AgentRead? {
          ReaderKeepsLost(c, s, last);
        } else {
          RestKeepLost(c, s, last);
        }
      }
    }
  }

  lemma FailedWriteLoses(c: Config, s: State, io: WriteIo)
    requires s.agt.worker.Took? && s.agt.worker.m.Chunk?
    requires s.agt.stopped || AfterWrite(c.agentMax, s.agt.session, Some(s.agt.worker.m.data), io).1.Some?
    ensures WorkStep(c, s, io).lost == s.lost + 1
  {}

  lemma LostNeverEnds(c: Config, s: State)
    requires Inv(c, s) && s.lost > 0
    ensures !s.srv.handler.finished && !Enabled(c, s, SendEnd) && s.srv.handler.verdict != Ok
  {
    if s.srv.handler.finished {
      FinishedIsEmpty(s);
    }
  }

  /**
   A chunk that the agent fails to write, or drops because its session was stopped, keeps one credit out
   for ever: over every continuation the handler never gets as far as file_upload_end, nor to an ok.
   */
  lemma {:induction false} FailedWriteNeverEnds(c: Config, content: seq<byte>, before: seq<Event>, io: WriteIo, more: seq<Event>)
    requires var s := After(c, content, before);
      && Enabled(c, s, Work(io)) && s.agt.worker.m.Chunk?
      && (s.agt.stopped || AfterWrite(c.agentMax, s.agt.session, Some(s.agt.worker.m.data), io).1.Some?)
    ensures var t := After(c, content, before + [Work(io)] + more);
      !t.srv.handler.finished && !Enabled(c, t, SendEnd) && t.srv.handler.verdict != Ok
  {
    var s := After(c, content, before);
    var failed := before + [Work(io)];
    assert failed[..|failed| - 1] == before;
    InvRun(c, content, before);
    FailedWriteLoses(c, s, io);
    LostForEver(c, content, failed, more);
    InvRun(c, content, failed + more);
    LostNeverEnds(c, After(c, content, failed + more));
  }

  /**
   When the server answers ok, the agent's target file is exactly the request body, all of it and in
   order; the byte count it reports is its length, and Content-Length when that was stated. The
   counter behind it never passed the agent's maximum or the largest int64.
   */
  lemma {:induction false} OkMeansWholeBody(c: Config, content: seq<byte>, run: seq<Event>)
    ensures var s := After(c, content, run);
      && (s.srv.handler.verdict.Ok? ==>
            && s.agt.target == Some(content) && s.srv.handler.total == |content|
            && (c.contentLength >= 0 ==> |content| == c.contentLength)
            && (c.max > 0 ==> |content| <= c.max) && (c.agentMax > 0 ==> |content| <= c.agentMax))
      && s.agt.session.written == |s.agt.session.data| <= MAX_INT64
      && (c.agentMax > 0 ==> s.agt.session.written <= c.agentMax)
  {
    InvRun(c, content, run);
    var s := After(c, content, run);
    if s.srv.handler.verdict.Ok? {
      FinishedIsEmpty(s);
      assert content[..|content|] == content;
    }
  }

  // ------------------------------------------------------- the handler's variables

  /** The local variables of the server's handleFileUpload. */
  class UploadLoop {
    var phase: Phase
    var credits: int
    var uploadWindow: int
    var total: nat
    var finished: bool
    var verdict: Verdict

    ghost function Value(): Handler
      reads this
    {
      Handler(phase, credits, uploadWindow, total, finished, verdict)
    }

    constructor ()
      ensures Value() == FRESH_HANDLER
    {
      phase, credits, uploadWindow := Unsent, INITIAL_FILE_UPLOAD_CREDITS, 0;
      total, finished, verdict := 0, false, Undecided;
    }

    method Leave(v: Verdict)
      modifies this`phase, this`verdict
      ensures phase == Returned && verdict == v
    {
      phase, verdict := Returned, v;
    }

    /** One message received inside `wait`. */
    method OnReply(m: Reply)
      requires InWait(Value())
      modifies this
      ensures Value() == AfterReply(old(Value()), m)
    {
      var expected := if phase.AwaitReady? then m.Ready? else if phase.AwaitResult? then m.Result? else m.Credit?;
      if !expected {
        if m.Result? && m.failed {
          Leave(DeviceError);
        }
        return;
      }
      match m {
        case Ready(granted, failed) =>
          if failed {
            Leave(DeviceError);
          } else if granted < 1 || granted > INITIAL_FILE_UPLOAD_CREDITS {
            Leave(InvalidCredits);
          } else {
            credits := granted;
            uploadWindow := granted;
            phase := Reading;
          }
        case Credit(amount) =>
          if amount < 1 || amount > uploadWindow {
            Leave(InvalidCredits);
          } else {
            credits := Min(uploadWindow, credits + amount);
          }
        case Result(failed, _) =>
          Leave(if failed then DeviceError else Ok);
      }
    }

    /** `n` body bytes have been read; `send` says that they go out as a chunk, `abort` that an abort does. */
    method OnBytes(max: int, n: nat, connected: bool) returns (send: bool, abort: bool)
      requires n > 0 && phase == Reading
      modifies this
      ensures (Value(), send, abort) == AfterBytes(max, old(Value()), n, connected)
      ensures send <==> phase == Reading
    {
      total := total + n;
      if max > 0 && total > max {
        Leave(TooLarge);
        return false, true;
      }
      if !connected {
        Leave(AgentUnreachable);
        return false, true;
      }
      credits := credits - 1;
      return true, false;
    }
  }
}
