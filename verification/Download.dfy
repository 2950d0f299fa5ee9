/**
 Credit-windowed download of one file (internal/server/files.go:117-237 on the
 server, cmd/agent/files.go:262-416 on the agent), as a step system.

 Two processes and four queues take part: the HTTP handler, the server's reader
 loop, the agent's reader loop and the agent's worker; the two directions of the
 connection, the bounded reply queue `pending.ch` and the bounded credit channel.
 An event that is not enabled leaves the state alone, so every sequence of events
 is a run and every theorem below quantifies over all of them.
 */
module Download {
  import opened Prelude
  import opened PendingRequests

  const INITIAL_FILE_DOWNLOAD_CREDITS := 4
  const MAX_FILE_DOWNLOAD_CREDITS := 8

  // ---------------------------------------------------------------- messages

  /** Agent to server. `Garbled` is a chunk whose base64 text does not decode. */
  datatype Reply = Meta(size: int, failed: bool) | Chunk(data: seq<byte>) | Garbled | End(failed: bool)

  /** Server to agent. */
  datatype Order = Start(credits: int, limit: int) | Credit(amount: int) | Cancel

  predicate IsChunk(m: Reply) { m.Chunk? }
  predicate IsCredit(o: Order) { o.Credit? }

  function Piece(m: Reply): seq<byte> { if m.Chunk? then m.data else [] }

  /** The file bytes that the first `k` replies carry. */
  function Carried(s: seq<Reply>, k: nat): seq<byte>
    requires k <= |s|
  {
    if k == 0 then [] else Carried(s, k - 1) + Piece(s[k - 1])
  }

  /** The file bytes a sequence of replies carries. */
  function Data(s: seq<Reply>): seq<byte> { Carried(s, |s|) }

  // ------------------------------------------------------------ HTTP handler

  datatype Phase = Unsent | Serving | Owing | Returned | Removed

  /** Which exit of the handler was taken. */
  datatype Verdict =
    | Undecided | Complete | Incomplete | DeviceError
    | BadMetadata | TooLarge | DataBeforeMetadata | BadChunk
    | ClientWriteFailed | AgentUnreachable | StreamEnded | TimedOut | ClientLeft

  datatype Handler = Handler(
    phase: Phase, metadataReceived: bool, expectedSize: int, total: int,
    responseCommitted: bool, body: seq<byte>, verdict: Verdict)

  /** Result of writing a chunk to the HTTP response: all of it, or a broken client after `kept` bytes. */
  datatype ClientWrite = Written | Broken(kept: nat)

  const FRESH_HANDLER := Handler(Unsent, false, -1, 0, false, [], Undecided)

  function Leave(h: Handler, v: Verdict): Handler {
    h.(phase := Returned, verdict := v)
  }

  /** One pass of the handler's switch over a reply; the flag says whether file_cancel is sent. */
  function AfterReply(max: int, h: Handler, m: Reply, io: ClientWrite): (Handler, bool) {
    match m
    case Meta(size, failed) =>
      if failed then (Leave(h, DeviceError), false)
      else if h.metadataReceived || size < 0 then (Leave(h, BadMetadata), true)
      else if max > 0 && size > max then (Leave(h, TooLarge), true)
      else (h.(metadataReceived := true, expectedSize := size), false)
    case Garbled =>
      (Leave(h, if h.metadataReceived then BadChunk else DataBeforeMetadata), true)
    case Chunk(b) =>
      if !h.metadataReceived then (Leave(h, DataBeforeMetadata), true)
      else if max > 0 && |b| > max - h.total then (Leave(h, TooLarge), true)
      else
        var counted := h.(total := h.total + |b|, responseCommitted := true);
        if io.Written? then (counted.(body := h.body + b, phase := Owing), false)
        else (Leave(counted.(body := h.body + b[..Min(io.kept, |b|)]), ClientWriteFailed), true)
    case End(failed) =>
      if failed then (Leave(h, DeviceError), false)
      else if !h.metadataReceived || h.total != h.expectedSize then (Leave(h, Incomplete), false)
      else (Leave(h, Complete), false)
  }

  // ------------------------------------------------------------ credit channel

  /** handleFileCredit: up to min(n, cap) tokens are pushed, stopping when the channel is full. */
  function AddCredits(have: nat, n: int): (r: nat)
    ensures have <= MAX_FILE_DOWNLOAD_CREDITS ==> have <= r <= MAX_FILE_DOWNLOAD_CREDITS
  {
    if n <= 0 || have >= MAX_FILE_DOWNLOAD_CREDITS then have
    else Min(MAX_FILE_DOWNLOAD_CREDITS, have + Min(n, MAX_FILE_DOWNLOAD_CREDITS))
  }

  // ------------------------------------------------------------ whole system

  datatype Worker =
    | Unstarted
    | Starting(granted: int, limit: int)  // goroutine running, session not registered
    | Announce                            // registered, file_meta not sent
    | Waiting                             // at the head of the read loop
    | Holding                             // took a credit, about to read
    | Ending(failed: bool)                // about to send file_end
    | Finished                            // returned, deferred clean-up pending
    | Gone

  datatype ReadOutcome = Fine | EndOfFile | Fault

  /** `max` and `agentMax` are the two max_file_transfer_bytes settings, 0 meaning unlimited. */
  datatype Config = Config(max: nat, agentMax: nat, chunkBytes: nat)

  /** HTTP handler and pending request; `popped` counts the replies the handler has taken. */
  datatype Server = Server(handler: Handler, pending: Pending<Reply>, popped: nat)

  /** One connection: both directions are FIFO until it closes. */
  datatype Net = Net(down: seq<Order>, up: seq<Reply>, conn: bool)

  /** The agent's download session and worker; `sent` is every reply it has put on the wire. */
  datatype Agent = Agent(
    worker: Worker, registered: bool, credits: nat, cancelled: bool,
    file: seq<byte>, size: nat, pos: nat, sent: seq<Reply>)

  /** `lost` counts the credits that are no longer anywhere. */
  datatype State = State(srv: Server, net: Net, agt: Agent, lost: int)

  datatype Event =
    // HTTP handler
    | SendStart | Take(io: ClientWrite) | SendCredit | SeeDone | Timeout | ClientGone | RemovePending
    // server reader loop, server shutdown
    | ServerRead | Shutdown
    // agent reader loop
    | AgentRead(slotFree: bool)
    // agent worker
    | Open(ok: bool) | SendMeta | TakeCredit | SeeCancel
    | Read(n: nat, outcome: ReadOutcome) | LoopDone | SendEnd | Deregister
    // environment
    | Grow(more: seq<byte>) | Disconnect | Teardown

  function Init(file: seq<byte>): State {
    State(Server(FRESH_HANDLER, Pending([], None), 0), Net([], [], true),
          Agent(Unstarted, false, 0, false, file, 0, 0, []), 0)
  }

  /** handleFileDownload's effective limit: the smaller of the two settings that are set. */
  function Limit(agentMax: int, requested: int): int {
    if requested > 0 && (agentMax == 0 || requested < agentMax) then requested else agentMax
  }

  predicate Enabled(c: Config, s: State, e: Event) {
    var a := s.agt;
    var phase := s.srv.handler.phase;
    match e
    case SendStart => phase.Unsent?
    case Take(_) => phase.Serving? && s.srv.pending.ch != []
    case SendCredit => phase.Owing?
    case SeeDone => phase.Serving? && s.srv.pending.done.Some?
    case Timeout => phase.Serving?
    case ClientGone => phase.Serving?
    case RemovePending => phase.Returned?
    case ServerRead => s.net.conn && s.net.up != []
    case Shutdown => true
    case AgentRead(_) => s.net.conn && s.net.down != []
    case Open(_) => a.worker.Starting?
    case SendMeta => a.worker.Announce?
    case TakeCredit => a.worker.Waiting? && a.pos < a.size && a.credits > 0
    case SeeCancel => a.worker.Waiting? && a.pos < a.size && a.cancelled
    case Read(n, _) => a.worker.Holding? && n <= c.chunkBytes && a.pos + n <= a.size && a.pos + n <= |a.file|
    case LoopDone => a.worker.Waiting? && a.pos == a.size
    case SendEnd => a.worker.Ending?
    case Deregister => a.worker.Finished?
    case Grow(_) => true
    case Disconnect => s.net.conn
    case Teardown => !s.net.conn
  }

  /** sendAgent and agent.send fail once the connection is closed. */
  function SendDown(n: Net, o: Order): Net {
    if n.conn then n.(down := n.down + [o]) else n
  }

  function TakeStep(c: Config, s: State, io: ClientWrite): State
    requires s.srv.pending.ch != []
  {
    var v := s.srv;
    var m := v.pending.ch[0];
    var (h, cancel) := AfterReply(c.max, v.handler, m, io);
    State(Server(h, v.pending.(ch := v.pending.ch[1..]), v.popped + 1),
          if cancel then SendDown(s.net, Cancel) else s.net,
          s.agt, s.lost + if m.Chunk? && !h.phase.Owing? then 1 else 0)
  }

  function ServerReadStep(s: State): State
    requires s.net.up != []
  {
    var (p, d) := AfterDeliver(s.srv.pending, s.net.up[0]);
    var net := s.net.(up := s.net.up[1..]);
    State(s.srv.(pending := p), if d.Overflow? then SendDown(net, Cancel) else net,
          s.agt, s.lost + if s.net.up[0].Chunk? && !d.Queued? then 1 else 0)
  }

  function Say(a: Agent, n: Net, m: Reply, next: Worker): (Agent, Net) {
    if n.conn then (a.(sent := a.sent + [m], worker := next), n.(up := n.up + [m]))
    else (a.(worker := Finished), n)
  }

  function AgentReadStep(s: State, slotFree: bool): State
    requires s.net.down != []
  {
    var a := s.agt;
    var net := s.net.(down := s.net.down[1..]);
    match s.net.down[0]
    case Start(granted, limit) =>
      if !a.worker.Unstarted? then s.(net := net)
      else if slotFree then s.(net := net, agt := a.(worker := Starting(granted, limit)))
      else var (told, after) := Say(a, net, End(true), Gone); s.(net := after, agt := told)
    case Credit(n) =>
      var after := if a.registered then AddCredits(a.credits, n) else a.credits;
      s.(net := net, agt := a.(credits := after), lost := s.lost + 1 - (after - a.credits))
    case Cancel => s.(net := net, agt := a.(cancelled := a.cancelled || a.registered))
  }

  function Opened(c: Config, a: Agent, ok: bool): Agent
    requires a.worker.Starting?
  {
    var limit := Limit(c.agentMax, a.worker.limit);
    if !ok || (limit > 0 && |a.file| > limit) then a.(worker := Ending(true))
    else a.(worker := Announce, registered := true, size := |a.file|,
            credits := if a.worker.granted > 0 then Min(a.worker.granted, MAX_FILE_DOWNLOAD_CREDITS) else 0)
  }

  function ReadStep(s: State, n: nat, outcome: ReadOutcome): State
    requires s.agt.pos + n <= |s.agt.file|
  {
    var a := s.agt.(pos := s.agt.pos + n);
    var next := if outcome.EndOfFile? then Ending(a.pos < a.size)
                else if outcome.Fault? || n == 0 then Ending(true)
                else Waiting;
    if n == 0 then s.(agt := a.(worker := next), lost := s.lost + 1)
    else
      var (told, net) := Say(a, s.net, Chunk(a.file[s.agt.pos..a.pos]), next);
      s.(agt := told, net := net, lost := s.lost + if s.net.conn then 0 else 1)
  }

  function Step(c: Config, s: State, e: Event): State {
    if !Enabled(c, s, e) then s else
    var v, a := s.srv, s.agt;
    var h := v.handler;
    match e
    case SendStart =>
      s.(srv := v.(handler := if s.net.conn then h.(phase := Serving) else Leave(h, AgentUnreachable)),
         net := SendDown(s.net, Start(INITIAL_FILE_DOWNLOAD_CREDITS, c.max)))
    case Take(io) => TakeStep(c, s, io)
    case SendCredit =>
      s.(srv := v.(handler := if s.net.conn then h.(phase := Serving) else Leave(h, AgentUnreachable)),
         net := SendDown(s.net, Credit(1)), lost := s.lost + if s.net.conn then 0 else 1)
    case SeeDone => s.(srv := v.(handler := Leave(h, StreamEnded)))
    case Timeout => s.(srv := v.(handler := Leave(h, TimedOut)), net := SendDown(s.net, Cancel))
    case ClientGone => s.(srv := v.(handler := Leave(h, ClientLeft)), net := SendDown(s.net, Cancel))
    case RemovePending =>
      s.(srv := v.(handler := h.(phase := Removed), pending := AfterFinish(v.pending, HandlerReturned)))
    case ServerRead => ServerReadStep(s)
    case Shutdown => s.(srv := v.(pending := AfterFinish(v.pending, ServerClosed)))
    case AgentRead(slotFree) => AgentReadStep(s, slotFree)
    case Open(ok) => s.(agt := Opened(c, a, ok))
    case SendMeta => var (told, net) := Say(a, s.net, Meta(a.size, false), Waiting); s.(agt := told, net := net)
    case TakeCredit => s.(agt := a.(credits := a.credits - 1, worker := Holding))
    case SeeCancel => s.(agt := a.(worker := Finished))
    case Read(n, outcome) => ReadStep(s, n, outcome)
    case LoopDone => s.(agt := a.(worker := Ending(false)))
    case SendEnd => var (told, net) := Say(a, s.net, End(a.worker.failed), Finished); s.(agt := told, net := net)
    case Deregister => s.(agt := a.(worker := Gone, registered := false))
    case Grow(more) => s.(agt := a.(file := a.file + more))
    case Disconnect =>
      s.(net := Net([], [], false), lost := s.lost + Count(IsChunk, s.net.up) + Count(IsCredit, s.net.down))
    case Teardown => s.(agt := a.(registered := false, cancelled := a.cancelled || a.registered))
  }

  /** The state after a run. */
  function After(c: Config, file: seq<byte>, run: seq<Event>): State {
    if run == [] then Init(file) else Step(c, After(c, file, run[..|run| - 1]), run[|run| - 1])
  }

  // ---------------------------------------------------------------- invariant

  /** Every place a credit of this transfer can be. */
  function InCirculation(s: State): int {
    s.agt.credits + (if s.agt.worker.Holding? then 1 else 0)
    + Count(IsChunk, s.net.up) + Count(IsChunk, s.srv.pending.ch)
    + (if s.srv.handler.phase.Owing? then 1 else 0) + Count(IsCredit, s.net.down)
  }

  predicate BeforeOpen(w: Worker) { w.Unstarted? || w.Starting? }

  predicate Live(w: Worker) { w.Announce? || w.Waiting? || w.Holding? }

  predicate Attending(h: Handler) { h.phase.Serving? || h.phase.Owing? }

  /** Both ends are transferring: the agent has opened the file, the handler has not left. */
  predicate Streaming(s: State) {
    s.net.conn && Live(s.agt.worker) && s.srv.pending.done.None? && Attending(s.srv.handler)
  }

  predicate Ended(sent: seq<Reply>) { sent != [] && sent[|sent| - 1].End? }

  /** file_meta first, file_end last, chunks between. */
  predicate Grammar(size: int, sent: seq<Reply>) {
    forall i | 0 <= i < |sent| :: Placed(size, |sent|, i, sent[i])
  }

  predicate Placed(size: int, length: nat, i: int, m: Reply) {
    match m
    case Meta(n, failed) => i == 0 && n == size && !failed
    case Chunk(_) => i > 0
    case Garbled => false
    case End(_) => i == length - 1
  }

  /** What the agent has said so far, against the file. */
  predicate Spoken(a: Agent, conn: bool) {
    && a.pos <= a.size <= |a.file|
    && Grammar(a.size, a.sent)
    && (if conn then Data(a.sent) == a.file[..a.pos] else Data(a.sent) <= a.file[..a.pos])
    && match a.worker
       case Unstarted => a.sent == [] && a.size == 0
       case Starting(_, _) => a.sent == [] && a.size == 0
       case Announce => a.sent == [] && a.pos == 0
       case Waiting => a.sent != [] && !Ended(a.sent)
       case Holding => a.sent != [] && !Ended(a.sent) && a.pos < a.size
       case Ending(failed) => !Ended(a.sent) && (!failed ==> a.sent != [] && a.pos == a.size)
       case _ => Ended(a.sent) && !a.sent[|a.sent| - 1].failed ==>
                   |a.sent| > 1 && a.pos == a.size && Data(a.sent) == a.file[..a.pos]
  }

  /** The reply queue and the wire hold consecutive parts of what was sent. */
  predicate Linked(v: Server, n: Net, sent: seq<Reply>) {
    var k := v.popped + |v.pending.ch|;
    && k <= |sent|
    && v.pending.ch == sent[v.popped..k]
    && (n.conn && v.pending.done.None? ==> n.up == sent[k..])
    && |v.pending.ch| <= 6
    && v.pending.done != Some(Backpressure)
    && (!n.conn ==> n.up == [] && n.down == [])
  }

  /** The handler's variables against the replies it has taken. */
  predicate Served(v: Server, sent: seq<Reply>, size: int) {
    var h := v.handler;
    && v.popped <= |sent|
    && (h.phase.Unsent? ==> h == FRESH_HANDLER && v.popped == 0)
    && (Attending(h) ==>
          && h.verdict.Undecided?
          && (v.popped > 0 ==> !sent[v.popped - 1].End?)
          && (h.metadataReceived <==> v.popped > 0)
          && (h.metadataReceived ==> h.expectedSize == size)
          && h.body == Carried(sent, v.popped) && h.total == |h.body|)
    && h.body <= Data(sent)
    && (h.verdict.Complete? ==> Ended(sent) && |h.body| == size && h.metadataReceived && h.expectedSize == size)
    && (h.verdict != ClientWriteFailed ==> h.total == |h.body|)
    && !Violation(h.verdict)
  }

  /** Verdicts that blame the agent for breaking the protocol. */
  predicate Violation(v: Verdict) {
    v.Incomplete? || v.BadMetadata? || v.TooLarge? || v.DataBeforeMetadata? || v.BadChunk?
  }

  /** What may travel from server to agent, and what the worker was started with. */
  predicate Ordered(c: Config, v: Server, n: Net, a: Agent) {
    && (forall i | 0 <= i < |n.down| ::
          || n.down[i] == Credit(1) || n.down[i] == Cancel
          || (n.down[i] == Start(INITIAL_FILE_DOWNLOAD_CREDITS, c.max) && i == 0 && a.worker.Unstarted?))
    && (v.handler.phase.Unsent? ==> n.down == [] && a.worker.Unstarted?)
    && (a.worker.Unstarted? && n.conn && !v.handler.phase.Unsent? ==> n.down != [] && n.down[0].Start?)
    && (n.conn && Live(a.worker) ==> a.registered)
    && (a.worker.Starting? ==> a.worker == Starting(INITIAL_FILE_DOWNLOAD_CREDITS, c.max))
    && (c.max > 0 ==> a.size <= c.max)
  }

  predicate Windowed(s: State) {
    && s.lost >= 0
    && (BeforeOpen(s.agt.worker) ==> InCirculation(s) == 0 && s.lost == 0)
    && InCirculation(s) + s.lost <= INITIAL_FILE_DOWNLOAD_CREDITS
    && (Live(s.agt.worker) ==> InCirculation(s) + s.lost == INITIAL_FILE_DOWNLOAD_CREDITS)
    && (Streaming(s) ==> s.lost == 0)
  }

  predicate Inv(c: Config, s: State) {
    && Spoken(s.agt, s.net.conn)
    && Linked(s.srv, s.net, s.agt.sent)
    && Served(s.srv, s.agt.sent, s.agt.size)
    && Ordered(c, s.srv, s.net, s.agt)
    && Windowed(s)
  }

  // -------------------------------------------------------------------- facts

  lemma {:induction false} CarriedBefore(s: seq<Reply>, m: Reply, k: nat)
    requires k <= |s|
    ensures Carried(s + [m], k) == Carried(s, k)
  {
    if k > 0 {
      CarriedBefore(s, m, k - 1);
    }
  }

  lemma DataSnoc(s: seq<Reply>, m: Reply)
    ensures Data(s + [m]) == Data(s) + Piece(m)
  {
    CarriedBefore(s, m, |s|);
  }

  lemma {:induction false} CarriedPrefix(s: seq<Reply>, k: nat)
    requires k <= |s|
    ensures Carried(s, k) <= Data(s)
    decreases |s| - k
  {
    if k < |s| {
      CarriedPrefix(s, k + 1);
    }
  }

  /** A stretch of the conversation holds at most file_meta and file_end besides its chunks. */
  lemma {:induction false} StretchBound(size: int, sent: seq<Reply>, a: nat, b: nat)
    requires Grammar(size, sent) && a <= b <= |sent|
    ensures b - a <= Count(IsChunk, sent[a..b]) + (if a == 0 then 1 else 0) + (if b == |sent| then 1 else 0)
    decreases b - a
  {
    if a < b {
      StretchBound(size, sent, a, b - 1);
      CountSnoc(IsChunk, sent[a..b - 1], sent[b - 1]);
      assert sent[a..b - 1] + [sent[b - 1]] == sent[a..b];
      assert Placed(size, |sent|, b - 1, sent[b - 1]);
    }
  }

  lemma InvInit(c: Config, file: seq<byte>)
    ensures Inv(c, Init(file))
  {}

  // Each part of the invariant, over the events that can change it.

  lemma SpokenSay(a: Agent, n: Net, m: Reply, next: Worker)
    requires Grammar(a.size, a.sent) && !Ended(a.sent) && n.conn && Placed(a.size, |a.sent| + 1, |a.sent|, m)
    ensures Grammar(a.size, Say(a, n, m, next).0.sent)
    ensures Data(Say(a, n, m, next).0.sent) == Data(a.sent) + Piece(m)
  {
    DataSnoc(a.sent, m);
  }

  lemma SpokenWorker(c: Config, s: State, e: Event)
    requires Spoken(s.agt, s.net.conn) && Enabled(c, s, e)
    requires e.SendMeta? || e.TakeCredit? || e.SeeCancel? || e.LoopDone? || e.SendEnd? || e.Deregister? || e.Open?
    ensures Spoken(Step(c, s, e).agt, s.net.conn)
  {
    if s.net.conn && (e.SendMeta? || e.SendEnd?) {
      var m := if e.SendMeta? then Meta(s.agt.size, false) else End(s.agt.worker.failed);
      SpokenSay(s.agt, s.net, m, s.agt.worker);
    }
  }

  lemma SpokenReadNothing(s: State, n: nat, outcome: ReadOutcome)
    requires Spoken(s.agt, s.net.conn) && s.agt.worker.Holding?
    requires s.agt.pos + n <= s.agt.size && (n == 0 || !s.net.conn)
    ensures Spoken(ReadStep(s, n, outcome).agt, s.net.conn)
  {
    assert s.agt.file[..s.agt.pos] <= s.agt.file[..s.agt.pos + n];
  }

  lemma SpokenReadChunk(s: State, n: nat, outcome: ReadOutcome)
    requires Spoken(s.agt, s.net.conn) && s.agt.worker.Holding?
    requires s.agt.pos + n <= s.agt.size && n > 0 && s.net.conn
    ensures Spoken(ReadStep(s, n, outcome).agt, s.net.conn)
  {
    var a := s.agt;
    var m := Chunk(a.file[a.pos..a.pos + n]);
    var t := ReadStep(s, n, outcome).agt;
    assert t.sent == a.sent + [m] && t.sent[|t.sent| - 1] == m;
    assert Grammar(a.size, t.sent) && Data(t.sent) == a.file[..a.pos + n] by {
      SpokenSay(a, s.net, m, a.worker);
      SliceSnoc(a.file, a.pos, a.pos + n);
    }
  }

  lemma SpokenAgentRead(s: State, slotFree: bool)
    requires Spoken(s.agt, s.net.conn) && s.net.conn && s.net.down != []
    ensures Spoken(AgentReadStep(s, slotFree).agt, s.net.conn)
  {
    DataSnoc([], End(true));
  }

  lemma SpokenEnvironment(c: Config, s: State, e: Event)
    requires Spoken(s.agt, s.net.conn) && Enabled(c, s, e) && (e.Grow? || e.Teardown?)
    ensures Spoken(Step(c, s, e).agt, s.net.conn)
  {
    if e.Grow? {
      assert (s.agt.file + e.more)[..s.agt.pos] == s.agt.file[..s.agt.pos];
    }
  }

  lemma LinkedServerRead(s: State)
    requires Grammar(s.agt.size, s.agt.sent) && Linked(s.srv, s.net, s.agt.sent) && Windowed(s)
    requires s.net.conn && s.net.up != []
    ensures Linked(ServerReadStep(s).srv, ServerReadStep(s).net, s.agt.sent)
  {
    var v, sent := s.srv, s.agt.sent;
    if v.pending.done.None? {
      var k := v.popped + |v.pending.ch|;
      StretchBound(s.agt.size, sent, v.popped, k + 1);
      assert sent[v.popped..k + 1] == v.pending.ch + [s.net.up[0]];
      CountSnoc(IsChunk, v.pending.ch, s.net.up[0]);
    }
  }

  lemma LinkedServer(c: Config, s: State, e: Event)
    requires Linked(s.srv, s.net, s.agt.sent) && Enabled(c, s, e)
    requires e.SendStart? || e.SendCredit? || e.SeeDone? || e.Timeout? || e.ClientGone? || e.RemovePending? || e.Shutdown?
    ensures Linked(Step(c, s, e).srv, Step(c, s, e).net, s.agt.sent)
  {}

  lemma ServedServer(c: Config, s: State, e: Event)
    requires Served(s.srv, s.agt.sent, s.agt.size) && Enabled(c, s, e)
    requires e.SendStart? || e.SendCredit? || e.SeeDone? || e.Timeout? || e.ClientGone? || e.RemovePending? || e.Shutdown?
    ensures Served(Step(c, s, e).srv, s.agt.sent, s.agt.size) && Step(c, s, e).agt == s.agt
  {}

  lemma LinkedTake(c: Config, s: State, io: ClientWrite)
    requires Linked(s.srv, s.net, s.agt.sent) && s.srv.pending.ch != []
    ensures Linked(TakeStep(c, s, io).srv, TakeStep(c, s, io).net, s.agt.sent)
  {}

  lemma LinkedSay(v: Server, a: Agent, n: Net, m: Reply, next: Worker)
    requires Linked(v, n, a.sent)
    ensures Linked(v, Say(a, n, m, next).1, Say(a, n, m, next).0.sent)
  {
    var k := v.popped + |v.pending.ch|;
    assert n.conn && v.pending.done.None? ==> (a.sent + [m])[k..] == n.up + [m];
  }

  /** What the client has of the bytes counted so far. */
  lemma WrittenPart(body: seq<byte>, b: seq<byte>, all: seq<byte>, n: nat)
    requires body + b <= all && n <= |b|
    ensures body + b[..n] <= all
  {
    assert body + b[..n] == (body + b)[..|body| + n];
  }

  lemma ServedChunk(max: nat, v: Server, sent: seq<Reply>, size: int, io: ClientWrite)
    requires Grammar(size, sent) && |Data(sent)| <= size && (max > 0 ==> size <= max)
    requires Served(v, sent, size) && v.handler.phase.Serving? && v.popped < |sent| && sent[v.popped].Chunk?
    ensures Served(Server(AfterReply(max, v.handler, sent[v.popped], io).0, v.pending, v.popped + 1), sent, size)
  {
    var b := sent[v.popped].data;
    var h := AfterReply(max, v.handler, sent[v.popped], io).0;
    assert Placed(size, |sent|, v.popped, sent[v.popped]);
    assert Carried(sent, v.popped + 1) == v.handler.body + b;
    CarriedPrefix(sent, v.popped + 1);
    assert |v.handler.body + b| <= size;
    if io.Written? {
      assert h.body == v.handler.body + b && h.phase.Owing?;
    } else {
      WrittenPart(v.handler.body, b, Data(sent), Min(io.kept, |b|));
      assert h.verdict.ClientWriteFailed? && h.phase.Returned?;
    }
  }

  lemma ServedMeta(max: nat, v: Server, sent: seq<Reply>, size: int, io: ClientWrite)
    requires Grammar(size, sent) && (max > 0 ==> size <= max) && 0 <= size
    requires Served(v, sent, size) && v.handler.phase.Serving? && v.popped < |sent| && sent[v.popped].Meta?
    ensures Served(Server(AfterReply(max, v.handler, sent[v.popped], io).0, v.pending, v.popped + 1), sent, size)
  {
    assert Placed(size, |sent|, v.popped, sent[v.popped]);
    assert Carried(sent, v.popped + 1) == [];
  }

  lemma ServedEnd(max: nat, v: Server, sent: seq<Reply>, size: int, io: ClientWrite)
    requires Grammar(size, sent)
    requires Ended(sent) && !sent[|sent| - 1].failed ==> |sent| > 1 && |Data(sent)| == size
    requires Served(v, sent, size) && v.handler.phase.Serving? && v.popped < |sent| && sent[v.popped].End?
    ensures Served(Server(AfterReply(max, v.handler, sent[v.popped], io).0, v.pending, v.popped + 1), sent, size)
  {
    assert Placed(size, |sent|, v.popped, sent[v.popped]);
    assert v.popped == |sent| - 1;
    assert Data(sent) == Carried(sent, v.popped) + [];
  }

  lemma ServedTake(c: Config, s: State, io: ClientWrite)
    requires Inv(c, s) && s.srv.handler.phase.Serving? && s.srv.pending.ch != []
    ensures Served(TakeStep(c, s, io).srv, s.agt.sent, s.agt.size)
  {
    assert s.srv.pending.ch[0] == s.agt.sent[s.srv.popped];
    if s.srv.pending.ch[0].Chunk? {
      ServedChunk(c.max, s.srv, s.agt.sent, s.agt.size, io);
    } else {
      assert Placed(s.agt.size, |s.agt.sent|, s.srv.popped, s.agt.sent[s.srv.popped]);
      if s.srv.pending.ch[0].Meta? {
        ServedMeta(c.max, s.srv, s.agt.sent, s.agt.size, io);
      } else {
        ServedEnd(c.max, s.srv, s.agt.sent, s.agt.size, io);
      }
    }
  }

  lemma ServedSay(v: Server, a: Agent, n: Net, m: Reply, next: Worker)
    requires Served(v, a.sent, a.size) && !Ended(a.sent)
    ensures Served(v, Say(a, n, m, next).0.sent, a.size)
  {
    DataSnoc(a.sent, m);
    CarriedBefore(a.sent, m, v.popped);
  }

  lemma ServedAgentRead(s: State, slotFree: bool)
    requires Linked(s.srv, s.net, s.agt.sent) && Served(s.srv, s.agt.sent, s.agt.size) && s.net.conn && s.net.down != []
    requires s.agt.worker.Unstarted? ==> s.agt.sent == []
    ensures var t := AgentReadStep(s, slotFree); Linked(t.srv, t.net, t.agt.sent) && Served(t.srv, t.agt.sent, t.agt.size)
  {
    var net := s.net.(down := s.net.down[1..]);
    var t := AgentReadStep(s, slotFree);
    if s.net.down[0].Start? && s.agt.worker.Unstarted? && !slotFree {
      LinkedSay(s.srv, s.agt, net, End(true), Gone);
      ServedSay(s.srv, s.agt, net, End(true), Gone);
    } else {
      assert t.srv == s.srv && t.net == net && t.agt.sent == s.agt.sent && t.agt.size == s.agt.size;
    }
  }

  lemma ServedRead(s: State, n: nat, outcome: ReadOutcome)
    requires Linked(s.srv, s.net, s.agt.sent) && Served(s.srv, s.agt.sent, s.agt.size)
    requires !Ended(s.agt.sent) && s.agt.pos + n <= |s.agt.file|
    ensures var t := ReadStep(s, n, outcome); Linked(t.srv, t.net, t.agt.sent) && Served(t.srv, t.agt.sent, t.agt.size)
  {
    var t := ReadStep(s, n, outcome);
    if n > 0 && s.net.conn {
      var m := Chunk(s.agt.file[s.agt.pos..s.agt.pos + n]);
      assert t.srv == s.srv && t.net == s.net.(up := s.net.up + [m]) && t.agt.sent == s.agt.sent + [m];
      LinkedSay(s.srv, s.agt, s.net, m, s.agt.worker);
      ServedSay(s.srv, s.agt, s.net, m, s.agt.worker);
    } else {
      assert t.srv == s.srv && t.net == s.net && t.agt.sent == s.agt.sent;
    }
  }

  lemma WindowedServer(c: Config, s: State, e: Event)
    requires Windowed(s) && Enabled(c, s, e) && (!s.net.conn ==> s.net.up == [] && s.net.down == [])
    requires s.srv.handler.phase.Unsent? ==> BeforeOpen(s.agt.worker)
    requires e.SendStart? || e.SendCredit? || e.SeeDone? || e.Timeout? || e.ClientGone? || e.RemovePending? || e.Shutdown?
    ensures Windowed(Step(c, s, e))
  {
    var o := if e.SendStart? then Start(INITIAL_FILE_DOWNLOAD_CREDITS, c.max) else if e.SendCredit? then Credit(1) else Cancel;
    CountSnoc(IsCredit, s.net.down, o);
  }

  lemma WindowedTake(c: Config, s: State, io: ClientWrite)
    requires Windowed(s) && s.srv.handler.phase.Serving? && s.srv.pending.ch != []
    ensures Windowed(TakeStep(c, s, io))
  {
    CountSnoc(IsCredit, s.net.down, Cancel);
  }

  lemma WindowedServerRead(s: State)
    requires Windowed(s) && |s.srv.pending.ch| < PENDING_QUEUE_CAPACITY && s.net.up != []
    ensures Windowed(ServerReadStep(s))
  {
    CountSnoc(IsChunk, s.srv.pending.ch, s.net.up[0]);
  }

  lemma WindowedAgentRead(c: Config, s: State, slotFree: bool)
    requires Windowed(s) && s.net.down != [] && s.net.conn
    requires Live(s.agt.worker) ==> s.agt.registered
    requires s.net.down[0].Credit? ==> s.net.down[0].amount == 1
    ensures Windowed(AgentReadStep(s, slotFree))
  {
    CountSnoc(IsChunk, s.net.up, End(true));
  }

  lemma WindowedWorker(c: Config, s: State, e: Event)
    requires Windowed(s) && Enabled(c, s, e)
    requires s.agt.worker.Starting? ==> s.agt.worker.granted == INITIAL_FILE_DOWNLOAD_CREDITS
    requires e.Open? || e.SendMeta? || e.TakeCredit? || e.SeeCancel? || e.LoopDone? || e.SendEnd? || e.Deregister?
    ensures Windowed(Step(c, s, e))
  {
    if s.agt.worker.Announce? || s.agt.worker.Ending? {
      var m := if e.SendMeta? then Meta(s.agt.size, false) else End(s.agt.worker.failed);
      CountSnoc(IsChunk, s.net.up, m);
    }
  }

  lemma WindowedRead(s: State, n: nat, outcome: ReadOutcome)
    requires Windowed(s) && s.agt.worker.Holding? && s.agt.pos + n <= |s.agt.file|
    ensures Windowed(ReadStep(s, n, outcome))
  {
    var t := ReadStep(s, n, outcome);
    assert t.srv == s.srv && t.net.down == s.net.down && t.agt.credits == s.agt.credits;
    if n > 0 && s.net.conn {
      var m := Chunk(s.agt.file[s.agt.pos..s.agt.pos + n]);
      assert t.net.up == s.net.up + [m];
      CountSnoc(IsChunk, s.net.up, m);
    } else {
      assert t.net.up == s.net.up;
    }
    assert InCirculation(t) + t.lost == InCirculation(s) + s.lost;
  }

  lemma OrderedServer(c: Config, s: State, e: Event)
    requires Ordered(c, s.srv, s.net, s.agt) && Enabled(c, s, e) && (!s.net.conn ==> s.net.down == [])
    requires e.SendStart? || e.SendCredit? || e.SeeDone? || e.Timeout? || e.ClientGone? || e.RemovePending? || e.Shutdown?
    ensures Ordered(c, Step(c, s, e).srv, Step(c, s, e).net, Step(c, s, e).agt)
  {}

  lemma OrderedTake(c: Config, s: State, io: ClientWrite)
    requires Ordered(c, s.srv, s.net, s.agt) && s.srv.handler.phase.Serving? && s.srv.pending.ch != []
    ensures Ordered(c, TakeStep(c, s, io).srv, TakeStep(c, s, io).net, s.agt)
  {}

  lemma OrderedAgentRead(c: Config, s: State, slotFree: bool)
    requires Ordered(c, s.srv, s.net, s.agt) && s.net.conn && s.net.down != []
    ensures var t := AgentReadStep(s, slotFree); Ordered(c, t.srv, t.net, t.agt)
  {
    assert forall i | 1 <= i < |s.net.down| :: s.net.down[1..][i - 1] == s.net.down[i];
  }

  lemma OrderedWorker(c: Config, s: State, e: Event)
    requires Ordered(c, s.srv, s.net, s.agt) && Enabled(c, s, e)
    requires e.Open? || e.SendMeta? || e.TakeCredit? || e.SeeCancel? || e.LoopDone? || e.SendEnd? || e.Deregister?
    ensures Ordered(c, s.srv, Step(c, s, e).net, Step(c, s, e).agt)
  {}

  lemma OrderedRead(c: Config, s: State, n: nat, outcome: ReadOutcome)
    requires Ordered(c, s.srv, s.net, s.agt) && s.agt.worker.Holding? && s.agt.pos + n <= |s.agt.file|
    ensures Ordered(c, s.srv, ReadStep(s, n, outcome).net, ReadStep(s, n, outcome).agt)
  {}

  // ------------------------------------------------- the invariant is inductive

  lemma InvServer(c: Config, s: State, e: Event)
    requires Inv(c, s) && Enabled(c, s, e)
    requires e.SendStart? || e.SendCredit? || e.SeeDone? || e.Timeout? || e.ClientGone? || e.RemovePending? || e.Shutdown?
    ensures Inv(c, Step(c, s, e))
  {
    var t := Step(c, s, e);
    assert t.agt == s.agt && Served(t.srv, t.agt.sent, t.agt.size) by { ServedServer(c, s, e); }
    assert Windowed(t) by { WindowedServer(c, s, e); }
    assert Ordered(c, t.srv, t.net, t.agt) by { OrderedServer(c, s, e); }
    assert Linked(t.srv, t.net, t.agt.sent) by { LinkedServer(c, s, e); }
    assert t.net.conn == s.net.conn;
  }

  lemma InvTake(c: Config, s: State, io: ClientWrite)
    requires Inv(c, s) && Enabled(c, s, Take(io))
    ensures Inv(c, Step(c, s, Take(io)))
  {
    LinkedTake(c, s, io);
    ServedTake(c, s, io);
    OrderedTake(c, s, io);
    WindowedTake(c, s, io);
  }

  lemma InvServerRead(c: Config, s: State)
    requires Inv(c, s) && Enabled(c, s, ServerRead)
    ensures Inv(c, Step(c, s, ServerRead))
  {
    LinkedServerRead(s);
    WindowedServerRead(s);
  }

  lemma AgentReadSpeaks(c: Config, s: State, slotFree: bool)
    requires Inv(c, s) && s.net.conn && s.net.down != []
    ensures var t := AgentReadStep(s, slotFree);
      t.net.conn && Spoken(t.agt, true) && Linked(t.srv, t.net, t.agt.sent) && Served(t.srv, t.agt.sent, t.agt.size)
  {
    SpokenAgentRead(s, slotFree);
    ServedAgentRead(s, slotFree);
  }

  lemma AgentReadCounts(c: Config, s: State, slotFree: bool)
    requires Ordered(c, s.srv, s.net, s.agt) && Windowed(s) && s.net.conn && s.net.down != []
    ensures var t := AgentReadStep(s, slotFree); Ordered(c, t.srv, t.net, t.agt) && Windowed(t)
  {
    OrderedAgentRead(c, s, slotFree);
    assert s.net.down[0].Credit? ==> s.net.down[0].amount == 1;
    WindowedAgentRead(c, s, slotFree);
  }

  lemma InvAgentRead(c: Config, s: State, slotFree: bool)
    requires Inv(c, s) && s.net.conn && s.net.down != []
    ensures Inv(c, AgentReadStep(s, slotFree))
  {
    AgentReadSpeaks(c, s, slotFree);
    AgentReadCounts(c, s, slotFree);
  }

  lemma InvWorker(c: Config, s: State, e: Event)
    requires Inv(c, s) && Enabled(c, s, e)
    requires e.Open? || e.SendMeta? || e.TakeCredit? || e.SeeCancel? || e.LoopDone? || e.SendEnd? || e.Deregister?
    ensures Inv(c, Step(c, s, e))
  {
    SpokenWorker(c, s, e);
    OrderedWorker(c, s, e);
    WindowedWorker(c, s, e);
    if s.agt.worker.Announce? || s.agt.worker.Ending? {
      var m := if e.SendMeta? then Meta(s.agt.size, false) else End(s.agt.worker.failed);
      var next := if e.SendMeta? then Waiting else Finished;
      LinkedSay(s.srv, s.agt, s.net, m, next);
      ServedSay(s.srv, s.agt, s.net, m, next);
    }
  }

  lemma InvRead(c: Config, s: State, n: nat, outcome: ReadOutcome)
    requires Inv(c, s) && Enabled(c, s, Read(n, outcome))
    ensures Inv(c, Step(c, s, Read(n, outcome)))
  {
    ServedRead(s, n, outcome);
    if n > 0 && s.net.conn {
      SpokenReadChunk(s, n, outcome);
    } else {
      SpokenReadNothing(s, n, outcome);
    }
    OrderedRead(c, s, n, outcome);
    WindowedRead(s, n, outcome);
  }

  lemma InvEnvironment(c: Config, s: State, e: Event)
    requires Inv(c, s) && Enabled(c, s, e) && (e.Grow? || e.Disconnect? || e.Teardown?)
    ensures Inv(c, Step(c, s, e))
  {
    if !e.Disconnect? {
      SpokenEnvironment(c, s, e);
    }
  }

  lemma InvStep(c: Config, s: State, e: Event)
    requires Inv(c, s)
    ensures Inv(c, Step(c, s, e))
  {
    if Enabled(c, s, e) {
      match e
      case Take(io) => InvTake(c, s, io);
      case ServerRead => InvServerRead(c, s);
      case AgentRead(slotFree) => InvAgentRead(c, s, slotFree);
      case Read(n, outcome) => InvRead(c, s, n, outcome);
      case Open(_) => InvWorker(c, s, e);
      case SendMeta => InvWorker(c, s, e);
      case TakeCredit => InvWorker(c, s, e);
      case SeeCancel => InvWorker(c, s, e);
      case LoopDone => InvWorker(c, s, e);
      case SendEnd => InvWorker(c, s, e);
      case Deregister => InvWorker(c, s, e);
      case Grow(_) => InvEnvironment(c, s, e);
      case Disconnect => InvEnvironment(c, s, e);
      case Teardown => InvEnvironment(c, s, e);
      case _ => InvServer(c, s, e);
    }
  }

  lemma {:induction false} InvRun(c: Config, file: seq<byte>, run: seq<Event>)
    ensures Inv(c, After(c, file, run))
  {
    if run == [] {
      InvInit(c, file);
    } else {
      InvRun(c, file, run[..|run| - 1]);
      InvStep(c, After(c, file, run[..|run| - 1]), run[|run| - 1]);
    }
  }

  // -------------------------------------------------------------- main results

  /** At most four credits exist, and exactly four while both ends are transferring. */
  lemma {:induction false} WindowConserved(c: Config, file: seq<byte>, run: seq<Event>)
    ensures InCirculation(After(c, file, run)) <= INITIAL_FILE_DOWNLOAD_CREDITS
    ensures Streaming(After(c, file, run)) ==> InCirculation(After(c, file, run)) == INITIAL_FILE_DOWNLOAD_CREDITS
  {
    InvRun(c, file, run);
  }

  /** The reply queue never fills, so errPendingBackpressure is never raised, and no file_credit is dropped. */
  lemma {:induction false} QueuesNeverOverflow(c: Config, file: seq<byte>, run: seq<Event>)
    ensures var s := After(c, file, run);
      && |s.srv.pending.ch| <= 6 < PENDING_QUEUE_CAPACITY
      && s.srv.pending.done != Some(Backpressure)
      && (Enabled(c, s, ServerRead) ==> !AfterDeliver(s.srv.pending, s.net.up[0]).1.Overflow?)
      && (s.agt.registered && s.net.down != [] && s.net.down[0].Credit? ==>
            AddCredits(s.agt.credits, s.net.down[0].amount) == s.agt.credits + s.net.down[0].amount)
  {
    InvRun(c, file, run);
    var s := After(c, file, run);
    if s.net.down != [] && s.net.down[0].Credit? {
      CountPositive(IsCredit, s.net.down);
    }
  }

  /**
   The response body is always a prefix of the first `size` bytes of the opened file, even while
   the file grows; it is all of them when the handler exits through an error-free file_end; and no
   exit that blames the agent is ever taken.
   */
  lemma {:induction false} BodyIsExact(c: Config, file: seq<byte>, run: seq<Event>)
    ensures var s := After(c, file, run); var h := s.srv.handler;
      && s.agt.size <= |s.agt.file| && file <= s.agt.file
      && h.body <= s.agt.file[..s.agt.size]
      && (h.verdict != ClientWriteFailed ==> h.total == |h.body|)
      && (h.verdict.Complete? ==> h.body == s.agt.file[..s.agt.size] && h.expectedSize == s.agt.size)
      && !Violation(h.verdict)
  {
    InvRun(c, file, run);
    FileOnlyGrows(c, file, run);
    var s := After(c, file, run);
    assert s.agt.file[..s.agt.pos] <= s.agt.file[..s.agt.size];
  }

  lemma {:induction false} FileOnlyGrows(c: Config, file: seq<byte>, run: seq<Event>)
    ensures file <= After(c, file, run).agt.file
  {
    if run != [] {
      FileOnlyGrows(c, file, run[..|run| - 1]);
      FileStep(c, After(c, file, run[..|run| - 1]), run[|run| - 1]);
    }
  }

  lemma FileStep(c: Config, s: State, e: Event)
    ensures Step(c, s, e).agt.file == s.agt.file + if e.Grow? then e.more else []
  {
    assert s.agt.file + [] == s.agt.file;
  }

  // ------------------------------------------------- the objects that are mutated

  /** The agent's downloadSession.credits channel, as handleFileCredit fills it. */
  class CreditChannel {
    var tokens: nat

    constructor (granted: int)
      ensures tokens == if granted > 0 then Min(granted, MAX_FILE_DOWNLOAD_CREDITS) else 0
    {
      tokens := if granted > 0 then Min(granted, MAX_FILE_DOWNLOAD_CREDITS) else 0;
    }

    method HandleFileCredit(amount: int)
      requires tokens <= MAX_FILE_DOWNLOAD_CREDITS
      modifies this
      ensures tokens == AddCredits(old(tokens), amount)
    {
      if amount <= 0 {
        return;
      }
      var pushes := Min(amount, MAX_FILE_DOWNLOAD_CREDITS);
      for i := 0 to pushes
        invariant tokens == old(tokens) + i && (i == 0 || tokens <= MAX_FILE_DOWNLOAD_CREDITS)
      {
        if tokens >= MAX_FILE_DOWNLOAD_CREDITS {
          return;
        }
        tokens := tokens + 1;
      }
    }
  }

  /** The local variables of the server's handleFileDownload loop. */
  class DownloadLoop {
    var metadataReceived: bool
    var expectedSize: int
    var total: int
    var responseCommitted: bool
    var body: seq<byte>
    var phase: Phase
    var verdict: Verdict

    ghost function Value(): Handler
      reads this
    {
      Handler(phase, metadataReceived, expectedSize, total, responseCommitted, body, verdict)
    }

    constructor ()
      ensures Value() == FRESH_HANDLER
    {
      phase, metadataReceived, expectedSize, total := Unsent, false, -1, 0;
      responseCommitted, body, verdict := false, [], Undecided;
    }

    method Leave(v: Verdict)
      modifies this`phase, this`verdict
      ensures phase == Returned && verdict == v
    {
      phase, verdict := Returned, v;
    }

    /** One reply taken from the queue; the result says whether file_cancel goes to the agent. */
    method OnReply(max: int, m: Reply, io: ClientWrite) returns (cancel: bool)
      requires phase == Serving
      modifies this
      ensures (Value(), cancel) == AfterReply(max, old(Value()), m, io)
    {
      cancel := false;
      match m {
        case Meta(size, failed) =>
          if failed {
            Leave(DeviceError);
            return;
          }
          if metadataReceived || size < 0 {
            Leave(BadMetadata);
            return true;
          }
          if max > 0 && size > max {
            Leave(TooLarge);
            return true;
          }
          metadataReceived := true;
          expectedSize := size;
        case Garbled =>
          Leave(if metadataReceived then BadChunk else DataBeforeMetadata);
          return true;
        case Chunk(b) =>
          if !metadataReceived {
            Leave(DataBeforeMetadata);
            return true;
          }
          if max > 0 && |b| > max - total {
            Leave(TooLarge);
            return true;
          }
          total := total + |b|;
          responseCommitted := true;
          if io.Broken? {
            body := body + b[..Min(io.kept, |b|)];
            Leave(ClientWriteFailed);
            return true;
          }
          body := body + b;
          phase := Owing;
        case End(failed) =>
          if failed {
            Leave(DeviceError);
          } else if !metadataReceived || total != expectedSize {
            Leave(Incomplete);
          } else {
            Leave(Complete);
          }
      }
    }
  }
}
