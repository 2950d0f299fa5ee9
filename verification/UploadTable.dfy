/**
 cmd/agent/files.go: the agent's table of upload sessions, shared by the reader loop, one
 worker goroutine per credit session and the connection teardown. Every step below is one
 critical section of fileMu, one channel operation or one file operation, so a run is an
 arbitrary interleaving of all of them over any number of sessions and request ids.
 */
module UploadTable {
  import opened Prelude
  import opened UploadSessions

  const MAX_CONCURRENT_FILE_UPLOADS := 4
  const EVENT_QUEUE_CAPACITY := 4

  /** Which critical section took the session out of the table. */
  datatype Remover = ByEnd | ByAbort | ByReplacement | ByOverflow | ByTeardown | ByWriteError | BySendError

  /** Removers that go on to call stopUpload or signalStop. */
  predicate TakesAway(r: Remover) {
    r.ByAbort? || r.ByReplacement? || r.ByOverflow? || r.ByTeardown?
  }

  datatype Item = Chunk(data: Option<seq<byte>>) | End

  /**
   runCreditUpload's program points. A session of a peer without credits has no goroutine: it is
   Idle until the reader loop finishes it or stopUpload cleans it up.
   */
  datatype Worker =
    | Idle
    | Took(item: Item)     // received from events, stop not looked at yet
    | Checked(item: Item)  // stop was open
    | Owing                // chunk written, credit to send
    | Failing              // write failed, about to call removeUpload
    | SendFailed           // credit could not be sent, about to call removeUpload
    | Finishing            // took the session out with file_upload_end
    | Leaving              // about to run cleanupUpload
    | Exited

  /** `tempFile`: the temporary file exists. `cleanups` counts calls of cleanupUpload. */
  datatype Upload = Upload(
    id: string, target: string, creditMode: bool, session: Session,
    queue: seq<Item>, stopped: bool, owesStop: bool, worker: Worker,
    fileOpen: bool, tempFile: bool, removedBy: Option<Remover>, committed: bool, cleanups: nat)

  /** The reader loop holds at most one session it has looked up and not yet acted on. */
  datatype Reader = Ready | Queueing(k: nat, item: Item) | Writing(k: nat, data: Option<seq<byte>>)

  datatype State = State(
    uploads: map<string, nat>, sessions: seq<Upload>, targets: map<string, seq<byte>>, reader: Reader)

  datatype Event =
    // reader loop
    | Start(id: string, target: string, creditMode: bool, expected: int)
    | Look(id: string, item: Item) | Queue(seesStop: bool) | WriteInline(io: WriteIo) | Abort(id: string)
    // worker of session k
    | Take(k: nat) | SeeStop(k: nat) | Check(k: nat) | Write(k: nat, io: WriteIo)
    | SendCredit(k: nat, ok: bool) | Remove(k: nat) | Finish(k: nat, result: FinishIo) | Cleanup(k: nat)
    // whoever took session k away
    | Stop(k: nat)
    // end of the connection; anything else that touches the file system
    | Teardown | Outside(path: string, content: Option<seq<byte>>)

  const EMPTY := State(map[], [], map[], Ready)

  predicate Enabled(s: State, e: Event) {
    match e
    case Start(_, _, _, _) => s.reader.Ready?
    case Look(_, _) => s.reader.Ready?
    case Abort(_) => s.reader.Ready?
    case Queue(_) => s.reader.Queueing? && s.reader.k < |s.sessions|
    case WriteInline(_) => s.reader.Writing? && s.reader.k < |s.sessions|
    case Take(k) => k < |s.sessions| && s.sessions[k].creditMode && s.sessions[k].worker.Idle? && s.sessions[k].queue != []
    case SeeStop(k) => k < |s.sessions| && s.sessions[k].creditMode && s.sessions[k].worker.Idle? && s.sessions[k].stopped
    case Check(k) => k < |s.sessions| && s.sessions[k].worker.Took?
    case Write(k, _) => k < |s.sessions| && s.sessions[k].worker.Checked? && s.sessions[k].worker.item.Chunk?
    case SendCredit(k, _) => k < |s.sessions| && s.sessions[k].worker.Owing?
    case Remove(k) =>
      && k < |s.sessions|
      && (s.sessions[k].worker == Checked(End) || s.sessions[k].worker.Failing? || s.sessions[k].worker.SendFailed?)
    case Finish(k, _) => k < |s.sessions| && s.sessions[k].worker.Finishing?
    case Cleanup(k) => k < |s.sessions| && s.sessions[k].worker.Leaving?
    case Stop(k) => k < |s.sessions| && s.sessions[k].owesStop
    case Teardown => true
    case Outside(_, _) => true
  }

  function Set(s: State, k: nat, u: Upload): State
    requires k < |s.sessions|
  {
    s.(sessions := s.sessions[k := u])
  }

  function TakenBy(u: Upload, r: Remover): Upload {
    u.(removedBy := Some(r), owesStop := u.owesStop || TakesAway(r))
  }

  /** removeUpload: only the session that the table still maps is taken out. */
  function Removed(s: State, k: nat, r: Remover): State
    requires k < |s.sessions|
  {
    var u := s.sessions[k];
    if u.id in s.uploads && s.uploads[u.id] == k then Set(s.(uploads := s.uploads - {u.id}), k, TakenBy(u, r)) else s
  }

  /** abortUpload: whatever session the table maps for the id is taken out. */
  function Aborted(s: State, id: string): State {
    if id in s.uploads && s.uploads[id] < |s.sessions| then
      Set(s.(uploads := s.uploads - {id}), s.uploads[id], TakenBy(s.sessions[s.uploads[id]], ByAbort))
    else s
  }

  /** The session that a start creates. */
  function NewUpload(id: string, target: string, creditMode: bool, expected: int): Upload {
    Upload(id, target, creditMode, Session(expected, [], 0), [], false, false, Idle, true, true, None, false, 0)
  }

  /** handleFileUploadStart once the temporary file exists; a refused start has removed it again. */
  function Installed(s: State, id: string, target: string, creditMode: bool, expected: int): State {
    if id !in s.uploads && |s.uploads| >= MAX_CONCURRENT_FILE_UPLOADS then s else
    var added := NewUpload(id, target, creditMode, expected);
    var cleared := if id in s.uploads && s.uploads[id] < |s.sessions|
                   then Set(s, s.uploads[id], TakenBy(s.sessions[s.uploads[id]], ByReplacement)) else s;
    cleared.(uploads := s.uploads[id := |s.sessions|], sessions := cleared.sessions + [added])
  }

  /** A file that stopUpload has closed cannot be written. */
  function Effective(u: Upload, io: WriteIo): WriteIo {
    if u.fileOpen then io else Short(0)
  }

  function QueueStep(s: State, k: nat, item: Item, seesStop: bool): State
    requires k < |s.sessions|
  {
    var u := s.sessions[k];
    var full := |u.queue| >= EVENT_QUEUE_CAPACITY;
    var next := if u.stopped && (seesStop || full) then s
                else if !full then Set(s, k, u.(queue := u.queue + [item]))
                else Removed(s, k, ByOverflow);
    next.(reader := Ready)
  }

  function LookStep(s: State, id: string, item: Item): State {
    if id !in s.uploads || s.uploads[id] >= |s.sessions| then s else
    var k := s.uploads[id];
    var u := s.sessions[k];
    if u.creditMode then s.(reader := Queueing(k, item))
    else if item.Chunk? then s.(reader := Writing(k, item.data))
    else Set(s.(uploads := s.uploads - {id}), k, TakenBy(u, ByEnd).(worker := Finishing))
  }

  function WriteInlineStep(s: State, k: nat, data: Option<seq<byte>>, io: WriteIo, max: nat): State
    requires k < |s.sessions|
  {
    var u := s.sessions[k];
    var (written, err) := AfterWrite(max, u.session, data, Effective(u, io));
    var next := Set(s, k, u.(session := written)).(reader := Ready);
    if err.None? then next else Aborted(next, u.id)
  }

  function FinishStep(s: State, k: nat, io: FinishIo): State
    requires k < |s.sessions|
  {
    var u := s.sessions[k];
    var err := FinishError(u.session, io.(synced := io.synced && u.fileOpen), u.target in s.targets);
    var closed := u.(fileOpen := false, worker := Leaving);
    if err.Some? then Set(s, k, closed)
    else Set(s, k, closed.(committed := true, tempFile := false)).(targets := s.targets[u.target := u.session.data])
  }

  function RemoveStep(s: State, k: nat): State
    requires k < |s.sessions|
  {
    var w := s.sessions[k].worker;
    var r := if w.Failing? then ByWriteError else if w.SendFailed? then BySendError else ByEnd;
    var owned := s.sessions[k].id in s.uploads && s.uploads[s.sessions[k].id] == k;
    var next := Removed(s, k, r);
    Set(next, k, next.sessions[k].(worker := if owned && r.ByEnd? then Finishing else Leaving))
  }

  function Step(max: nat, s: State, e: Event): State {
    if !Enabled(s, e) then s else
    match e
    case Start(id, target, creditMode, expected) => Installed(s, id, target, creditMode, expected)
    case Look(id, item) => LookStep(s, id, item)
    case Queue(seesStop) => QueueStep(s, s.reader.k, s.reader.item, seesStop)
    case WriteInline(io) => WriteInlineStep(s, s.reader.k, s.reader.data, io, max)
    case Abort(id) => Aborted(s, id)
    case Take(k) =>
      var u := s.sessions[k];
      Set(s, k, u.(worker := Took(u.queue[0]), queue := u.queue[1..]))
    case SeeStop(k) => Set(s, k, s.sessions[k].(worker := Leaving))
    case Check(k) =>
      var u := s.sessions[k];
      Set(s, k, u.(worker := if u.stopped then Leaving else Checked(u.worker.item)))
    case Write(k, io) =>
      var u := s.sessions[k];
      var (written, err) := AfterWrite(max, u.session, u.worker.item.data, Effective(u, io));
      Set(s, k, u.(session := written, worker := if err.None? then Owing else Failing))
    case SendCredit(k, ok) => Set(s, k, s.sessions[k].(worker := if ok then Idle else SendFailed))
    case Remove(k) => RemoveStep(s, k)
    case Finish(k, result) => FinishStep(s, k, result)
    case Cleanup(k) =>
      var u := s.sessions[k];
      Set(s, k, u.(fileOpen := false, tempFile := false, worker := Exited, cleanups := u.cleanups + 1))
    case Stop(k) =>
      var u := s.sessions[k];
      Set(s, k, if u.creditMode then u.(owesStop := false, stopped := true, fileOpen := false)
                else u.(owesStop := false, fileOpen := false, worker := Leaving))
    case Teardown =>
      State(map[],
            seq(|s.sessions|, i requires 0 <= i < |s.sessions| =>
              var u := s.sessions[i];
              if u.id in s.uploads && s.uploads[u.id] == i then TakenBy(u, ByTeardown) else u),
            s.targets, s.reader)
    case Outside(path, content) =>
      s.(targets := if content.Some? then s.targets[path := content.value] else s.targets - {path})
  }

  /** The state after a run from an empty table over the given files. */
  function After(max: nat, files: map<string, seq<byte>>, run: seq<Event>): State {
    if run == [] then EMPTY.(targets := files)
    else Step(max, After(max, files, run[..|run| - 1]), run[|run| - 1])
  }

  // ---------------------------------------------------------------- invariant

  predicate Gone(w: Worker) { w.Leaving? || w.Exited? }

  predicate GoodUpload(max: nat, u: Upload) {
    && Sound(max, u.session)
    && |u.queue| <= EVENT_QUEUE_CAPACITY
    && (u.owesStop || u.stopped ==> u.removedBy.Some? && TakesAway(u.removedBy.value))
    && (u.removedBy.Some? && TakesAway(u.removedBy.value) ==> u.owesStop || u.stopped || Gone(u.worker))
    && (Gone(u.worker) ==> u.removedBy.Some?)
    && (u.worker.Finishing? ==> u.removedBy == Some(ByEnd) && !u.committed)
    && (u.removedBy == Some(ByEnd) ==> u.worker.Finishing? || Gone(u.worker))
    && (u.removedBy == Some(ByWriteError) || u.removedBy == Some(BySendError) ==> Gone(u.worker))
    && (u.committed ==> u.removedBy == Some(ByEnd) && Gone(u.worker) && !u.tempFile && !u.fileOpen)
    && (!Gone(u.worker) ==> u.tempFile)
    && (u.worker.Exited? ==> !u.tempFile && !u.fileOpen)
    && u.cleanups == (if u.worker.Exited? then 1 else 0)
    && (u.fileOpen || u.stopped || Gone(u.worker))
    && (!u.creditMode ==> !u.stopped && (u.worker.Idle? || u.worker.Finishing? || Gone(u.worker)))
    && (u.creditMode && u.owesStop ==> !u.stopped)
    && (!u.creditMode && u.owesStop ==> u.worker.Idle?)
  }

  /** The table maps exactly the sessions nobody has removed, each under its own id. */
  predicate Indexed(s: State) {
    && (forall id | id in s.uploads ::
          s.uploads[id] < |s.sessions| && s.sessions[s.uploads[id]].id == id && s.sessions[s.uploads[id]].removedBy.None?)
    && (forall k | 0 <= k < |s.sessions| && s.sessions[k].removedBy.None? ::
          s.sessions[k].id in s.uploads && s.uploads[s.sessions[k].id] == k)
    && |s.uploads| <= MAX_CONCURRENT_FILE_UPLOADS
  }

  predicate AllGood(max: nat, sessions: seq<Upload>) {
    forall k | 0 <= k < |sessions| :: GoodUpload(max, sessions[k])
  }

  predicate GoodReader(reader: Reader, sessions: seq<Upload>) {
    && (!reader.Ready? ==> reader.k < |sessions|)
    && (reader.Queueing? ==> sessions[reader.k].creditMode)
    && (reader.Writing? ==> !sessions[reader.k].creditMode)
  }

  predicate Inv(max: nat, s: State) {
    Indexed(s) && AllGood(max, s.sessions) && GoodReader(s.reader, s.sessions)
  }

  // -------------------------------------------------------------------- facts

  predicate Mapped(s: State, k: nat)
    requires k < |s.sessions|
  {
    s.sessions[k].id in s.uploads && s.uploads[s.sessions[k].id] == k
  }

  /** Changing one session without touching its place in the table. */
  lemma InvSet(max: nat, s: State, k: nat, u: Upload)
    requires Inv(max, s) && k < |s.sessions| && GoodUpload(max, u)
    requires u.id == s.sessions[k].id && u.removedBy == s.sessions[k].removedBy && u.creditMode == s.sessions[k].creditMode
    ensures Inv(max, Set(s, k, u))
  {
    IndexedSet(s, k, u);
  }

  lemma IndexedSet(s: State, k: nat, u: Upload)
    requires Indexed(s) && k < |s.sessions| && u.id == s.sessions[k].id && u.removedBy == s.sessions[k].removedBy
    ensures Indexed(Set(s, k, u))
  {}

  lemma IndexedTakeOut(s: State, k: nat, u: Upload)
    requires Indexed(s) && k < |s.sessions| && Mapped(s, k) && u.removedBy.Some? && u.id == s.sessions[k].id
    ensures Indexed(Set(s.(uploads := s.uploads - {u.id}), k, u))
  {
    assert (s.uploads - {u.id}).Keys == s.uploads.Keys - {u.id};
  }

  lemma IndexedAdd(s: State, u: Upload)
    requires Indexed(s) && u.id !in s.uploads && |s.uploads| < MAX_CONCURRENT_FILE_UPLOADS && u.removedBy.None?
    ensures Indexed(s.(uploads := s.uploads[u.id := |s.sessions|], sessions := s.sessions + [u]))
  {
    assert s.uploads[u.id := |s.sessions|].Keys == s.uploads.Keys + {u.id};
  }

  lemma RemovedIndexed(s: State, k: nat, r: Remover)
    requires Indexed(s) && k < |s.sessions|
    ensures Indexed(Removed(s, k, r))
  {
    if Mapped(s, k) {
      IndexedTakeOut(s, k, TakenBy(s.sessions[k], r));
    }
  }

  /** The session that a start adds, after the one it replaces has been taken out. */
  lemma IndexedReplace(s: State, u: Upload)
    requires Indexed(s) && u.id in s.uploads && u.removedBy.None?
    ensures var k := s.uploads[u.id];
      Indexed(s.(uploads := s.uploads[u.id := |s.sessions|],
                 sessions := s.sessions[k := TakenBy(s.sessions[k], ByReplacement)] + [u]))
  {
    var k := s.uploads[u.id];
    var prior := TakenBy(s.sessions[k], ByReplacement);
    IndexedTakeOut(s, k, prior);
    var t := Set(s.(uploads := s.uploads - {u.id}), k, prior);
    assert t.uploads.Keys == s.uploads.Keys - {u.id};
    IndexedAdd(t, u);
    assert t.uploads[u.id := |s.sessions|] == s.uploads[u.id := |s.sessions|];
  }

  lemma IndexedInstall(s: State, id: string, target: string, creditMode: bool, expected: int)
    requires Indexed(s)
    ensures Indexed(Installed(s, id, target, creditMode, expected))
  {
    var added := NewUpload(id, target, creditMode, expected);
    if id in s.uploads {
      IndexedReplace(s, added);
    } else if |s.uploads| < MAX_CONCURRENT_FILE_UPLOADS {
      IndexedAdd(s, added);
    }
  }

  /** Taking a mapped session out of the table. */
  lemma InvTakeOut(max: nat, s: State, k: nat, u: Upload)
    requires Inv(max, s) && k < |s.sessions| && Mapped(s, k)
    requires GoodUpload(max, u) && u.removedBy.Some? && u.id == s.sessions[k].id && u.creditMode == s.sessions[k].creditMode
    ensures Inv(max, Set(s.(uploads := s.uploads - {u.id}), k, u))
  {
    IndexedTakeOut(s, k, u);
  }

  lemma InvAbortUpload(max: nat, s: State, id: string)
    requires Inv(max, s)
    ensures Inv(max, Aborted(s, id))
  {
    if id in s.uploads {
      var k := s.uploads[id];
      InvTakeOut(max, s, k, TakenBy(s.sessions[k], ByAbort));
    }
  }

  lemma GoodTaken(max: nat, u: Upload)
    requires GoodUpload(max, u) && u.removedBy.None?
    ensures GoodUpload(max, TakenBy(u, ByReplacement))
  {}

  lemma GoodInstalled(max: nat, s: State, id: string, target: string, creditMode: bool, expected: int)
    requires Indexed(s) && AllGood(max, s.sessions)
    ensures AllGood(max, Installed(s, id, target, creditMode, expected).sessions)
  {
    if id in s.uploads {
      GoodTaken(max, s.sessions[s.uploads[id]]);
    }
  }

  lemma InvInstall(max: nat, s: State, id: string, target: string, creditMode: bool, expected: int)
    requires Inv(max, s) && s.reader.Ready?
    ensures Inv(max, Installed(s, id, target, creditMode, expected))
  {
    IndexedInstall(s, id, target, creditMode, expected);
    GoodInstalled(max, s, id, target, creditMode, expected);
  }

  lemma InvLook(max: nat, s: State, id: string, item: Item)
    requires Inv(max, s) && s.reader.Ready?
    ensures Inv(max, LookStep(s, id, item))
  {
    if id in s.uploads && !s.sessions[s.uploads[id]].creditMode && item.End? {
      var k := s.uploads[id];
      InvTakeOut(max, s, k, TakenBy(s.sessions[k], ByEnd).(worker := Finishing));
    }
  }

  lemma InvQueue(max: nat, s: State, seesStop: bool)
    requires Inv(max, s) && s.reader.Queueing?
    ensures Inv(max, QueueStep(s, s.reader.k, s.reader.item, seesStop))
  {
    var k := s.reader.k;
    var u := s.sessions[k];
    if |u.queue| < EVENT_QUEUE_CAPACITY {
      InvSet(max, s, k, u.(queue := u.queue + [s.reader.item]));
    } else if u.id in s.uploads && s.uploads[u.id] == k {
      InvTakeOut(max, s, k, TakenBy(u, ByOverflow));
    }
  }

  lemma InvWriteInline(max: nat, s: State, io: WriteIo)
    requires Inv(max, s) && s.reader.Writing?
    ensures Inv(max, WriteInlineStep(s, s.reader.k, s.reader.data, io, max))
  {
    var k := s.reader.k;
    var u := s.sessions[k];
    WriteAcceptsExactly(max, u.session, s.reader.data, Effective(u, io));
    var next := Set(s, k, u.(session := AfterWrite(max, u.session, s.reader.data, Effective(u, io)).0)).(reader := Ready);
    assert Inv(max, next) by {
      InvSet(max, s, k, u.(session := AfterWrite(max, u.session, s.reader.data, Effective(u, io)).0));
    }
    InvAbortUpload(max, next, u.id);
  }

  /** What removeUpload's caller leaves behind, by the point it was called from. */
  lemma {:induction false} GoodRemoved(max: nat, u: Upload)
    requires GoodUpload(max, u)
    requires u.worker == Checked(End) || u.worker.Failing? || u.worker.SendFailed?
    ensures u.worker == Checked(End) && u.removedBy.None? ==> GoodUpload(max, TakenBy(u, ByEnd).(worker := Finishing))
    ensures u.worker.Failing? && u.removedBy.None? ==> GoodUpload(max, TakenBy(u, ByWriteError).(worker := Leaving))
    ensures u.worker.SendFailed? && u.removedBy.None? ==> GoodUpload(max, TakenBy(u, BySendError).(worker := Leaving))
    ensures u.removedBy.Some? ==> GoodUpload(max, u.(worker := Leaving))
  {}

  lemma InvRemove(max: nat, s: State, k: nat)
    requires Inv(max, s) && Enabled(s, Remove(k))
    ensures Inv(max, RemoveStep(s, k))
  {
    var u := s.sessions[k];
    var t := RemoveStep(s, k);
    var v := t.sessions[k];
    assert GoodUpload(max, v) by {
      GoodRemoved(max, u);
    }
    if u.id in s.uploads && s.uploads[u.id] == k {
      assert t == Set(s.(uploads := s.uploads - {u.id}), k, v);
      InvTakeOut(max, s, k, v);
    } else {
      assert t == Set(s, k, v);
      InvSet(max, s, k, v);
    }
  }

  lemma InvFinish(max: nat, s: State, k: nat, result: FinishIo)
    requires Inv(max, s) && Enabled(s, Finish(k, result))
    ensures Inv(max, FinishStep(s, k, result))
  {
    var v := FinishStep(s, k, result).sessions[k];
    InvSet(max, s, k, v);
    assert FinishStep(s, k, result) == Set(s, k, v).(targets := FinishStep(s, k, result).targets);
  }

  lemma InvTeardown(max: nat, s: State)
    requires Inv(max, s)
    ensures Inv(max, Step(max, s, Teardown))
  {
    var t := Step(max, s, Teardown);
    forall k | 0 <= k < |t.sessions|
      ensures GoodUpload(max, t.sessions[k]) && t.sessions[k].removedBy.Some?
    {
      assert GoodUpload(max, s.sessions[k]);
    }
  }

  lemma GoodWorker(max: nat, s: State, e: Event)
    requires Enabled(s, e) && (e.Take? || e.SeeStop? || e.Check? || e.Write? || e.SendCredit? || e.Cleanup? || e.Stop?)
    requires e.k < |s.sessions| && GoodUpload(max, s.sessions[e.k])
    ensures GoodUpload(max, Step(max, s, e).sessions[e.k])
  {
    var u := s.sessions[e.k];
    if e.Write? {
      WriteAcceptsExactly(max, u.session, u.worker.item.data, Effective(u, e.io));
    }
  }

  lemma InvWorker(max: nat, s: State, e: Event)
    requires Inv(max, s) && Enabled(s, e)
    requires e.Take? || e.SeeStop? || e.Check? || e.Write? || e.SendCredit? || e.Cleanup? || e.Stop?
    ensures Inv(max, Step(max, s, e))
  {
    GoodWorker(max, s, e);
    InvSet(max, s, e.k, Step(max, s, e).sessions[e.k]);
  }

  lemma InvStep(max: nat, s: State, e: Event)
    requires Inv(max, s)
    ensures Inv(max, Step(max, s, e))
  {
    if Enabled(s, e) {
      match e
      case Start(id, target, creditMode, expected) => InvInstall(max, s, id, target, creditMode, expected);
      case Look(id, item) => InvLook(max, s, id, item);
      case Queue(seesStop) => InvQueue(max, s, seesStop);
      case WriteInline(io) => InvWriteInline(max, s, io);
      case Abort(id) => InvAbortUpload(max, s, id);
      case Remove(k) => InvRemove(max, s, k);
      case Finish(k, result) => InvFinish(max, s, k, result);
      case Teardown => InvTeardown(max, s);
      case Outside(_, _) =>
      case _ => InvWorker(max, s, e);
    }
  }

  lemma {:induction false} InvRun(max: nat, files: map<string, seq<byte>>, run: seq<Event>)
    ensures Inv(max, After(max, files, run))
  {
    if run != [] {
      InvRun(max, files, run[..|run| - 1]);
      InvStep(max, After(max, files, run[..|run| - 1]), run[|run| - 1]);
    }
  }

  // -------------------------------------------------------------- main results

  /** A session keeps its identity, and once removed stays removed by the same critical section. */
  predicate Settled(u: Upload, v: Upload) {
    && v.id == u.id && v.target == u.target && v.creditMode == u.creditMode
    && (u.removedBy.Some? ==> v.removedBy == u.removedBy)
    && (u.committed ==> v.committed && v.session.data == u.session.data)
  }

  /** Writing a closed file changes nothing. */
  lemma WriteSettles(max: nat, u: Upload, data: Option<seq<byte>>, io: WriteIo)
    requires !u.fileOpen
    ensures AfterWrite(max, u.session, data, Effective(u, io)).0 == u.session
  {
    if data.Some? {
      assert u.session.data + data.value[..0] == u.session.data;
    }
  }

  lemma WrittenSettles(max: nat, u: Upload, data: Option<seq<byte>>, io: WriteIo)
    requires GoodUpload(max, u)
    ensures Settled(u, u.(session := AfterWrite(max, u.session, data, Effective(u, io)).0))
  {
    if !u.fileOpen {
      WriteSettles(max, u, data, io);
    }
  }

  lemma WriteInlineSettles(max: nat, s: State, io: WriteIo, k: nat)
    requires Inv(max, s) && k < |s.sessions| && s.reader.Writing?
    ensures var t := WriteInlineStep(s, s.reader.k, s.reader.data, io, max);
      |s.sessions| == |t.sessions| && Settled(s.sessions[k], t.sessions[k])
  {
    var u := s.sessions[s.reader.k];
    var v := u.(session := AfterWrite(max, u.session, s.reader.data, Effective(u, io)).0);
    WrittenSettles(max, u, s.reader.data, io);
    IndexedSet(s, s.reader.k, v);
    AbortSettles(Set(s, s.reader.k, v).(reader := Ready), u.id, k);
  }

  lemma StartSettles(s: State, e: Event, k: nat)
    requires Indexed(s) && k < |s.sessions| && e.Start?
    ensures var t := Installed(s, e.id, e.target, e.creditMode, e.expected);
      |s.sessions| <= |t.sessions| && Settled(s.sessions[k], t.sessions[k])
  {}

  lemma LookSettles(s: State, id: string, item: Item, k: nat)
    requires Indexed(s) && k < |s.sessions|
    ensures var t := LookStep(s, id, item); |s.sessions| == |t.sessions| && Settled(s.sessions[k], t.sessions[k])
  {}

  lemma QueueSettles(s: State, j: nat, item: Item, seesStop: bool, k: nat)
    requires Indexed(s) && k < |s.sessions| && j < |s.sessions|
    ensures var t := QueueStep(s, j, item, seesStop); |s.sessions| == |t.sessions| && Settled(s.sessions[k], t.sessions[k])
  {
    TakeOutSettles(s, j, ByOverflow, k);
  }

  lemma TakeOutSettles(s: State, j: nat, r: Remover, k: nat)
    requires Indexed(s) && k < |s.sessions| && j < |s.sessions|
    ensures var t := Removed(s, j, r); |s.sessions| == |t.sessions| && Settled(s.sessions[k], t.sessions[k])
  {}

  lemma AbortSettles(s: State, id: string, k: nat)
    requires Indexed(s) && k < |s.sessions|
    ensures var t := Aborted(s, id); |s.sessions| == |t.sessions| && Settled(s.sessions[k], t.sessions[k])
  {}

  /** Steps of a session's owner, or of whoever stops it. */
  predicate OfSession(e: Event) {
    || e.Take? || e.SeeStop? || e.Check? || e.Write? || e.SendCredit? || e.Remove? || e.Finish? || e.Cleanup? || e.Stop?
  }

  predicate Plain(e: Event) { e.Take? || e.SeeStop? || e.Check? || e.SendCredit? || e.Cleanup? || e.Stop? }

  lemma PlainTouchesOne(max: nat, s: State, e: Event)
    requires Enabled(s, e) && (Plain(e) || e.Write?)
    ensures Step(max, s, e) == Set(s, e.k, Step(max, s, e).sessions[e.k])
  {}

  /** No other session changes. */
  lemma TouchesOne(max: nat, s: State, e: Event, k: nat)
    requires Enabled(s, e) && OfSession(e) && e.k != k && k < |s.sessions|
    ensures var t := Step(max, s, e); |t.sessions| == |s.sessions| && t.sessions[k] == s.sessions[k] && t.reader == s.reader
  {
    if e.Remove? {
      assert Step(max, s, e) == RemoveStep(s, e.k);
    } else if e.Finish? {
      assert Step(max, s, e) == FinishStep(s, e.k, e.result);
    } else {
      PlainTouchesOne(max, s, e);
    }
  }

  lemma PlainSettles(max: nat, s: State, e: Event)
    requires Enabled(s, e) && Plain(e)
    ensures var t := Step(max, s, e); |s.sessions| == |t.sessions| && Settled(s.sessions[e.k], t.sessions[e.k])
  {}

  lemma WorkerSettles(max: nat, s: State, e: Event)
    requires Indexed(s) && Enabled(s, e) && OfSession(e) && GoodUpload(max, s.sessions[e.k])
    ensures var t := Step(max, s, e); |s.sessions| == |t.sessions| && Settled(s.sessions[e.k], t.sessions[e.k])
  {
    if e.Remove? {
      RemoveSettles(s, e.k);
    } else if e.Finish? {
      assert Step(max, s, e) == FinishStep(s, e.k, e.result);
    } else if e.Write? {
      var u := s.sessions[e.k];
      assert !u.committed;
    } else {
      PlainSettles(max, s, e);
    }
  }

  lemma RemoveSettles(s: State, k: nat)
    requires Indexed(s) && k < |s.sessions|
    ensures var t := RemoveStep(s, k); |s.sessions| == |t.sessions| && Settled(s.sessions[k], t.sessions[k])
  {}

  lemma TeardownSettles(max: nat, s: State, k: nat)
    requires Indexed(s) && k < |s.sessions|
    ensures |s.sessions| == |Step(max, s, Teardown).sessions| && Settled(s.sessions[k], Step(max, s, Teardown).sessions[k])
  {}

  lemma StepSettles(max: nat, s: State, e: Event, k: nat)
    requires Inv(max, s) && k < |s.sessions|
    ensures |s.sessions| <= |Step(max, s, e).sessions| && Settled(s.sessions[k], Step(max, s, e).sessions[k])
  {
    if Enabled(s, e) {
      match e
      case Start(_, _, _, _) => StartSettles(s, e, k);
      case Look(id, item) => LookSettles(s, id, item, k);
      case Queue(seesStop) => QueueSettles(s, s.reader.k, s.reader.item, seesStop, k);
      case WriteInline(io) => WriteInlineSettles(max, s, io, k);
      case Abort(id) => AbortSettles(s, id, k);
      case Teardown => TeardownSettles(max, s, k);
      case Outside(_, _) =>
      case _ => if e.k == k { WorkerSettles(max, s, e); } else { TouchesOne(max, s, e, k); }
    }
  }

  function Extend(max: nat, s: State, run: seq<Event>): State {
    if run == [] then s else Step(max, Extend(max, s, run[..|run| - 1]), run[|run| - 1])
  }

  lemma {:induction false} RunSettles(max: nat, s: State, run: seq<Event>, k: nat)
    requires Inv(max, s) && k < |s.sessions|
    ensures Inv(max, Extend(max, s, run))
    ensures |s.sessions| <= |Extend(max, s, run).sessions| && Settled(s.sessions[k], Extend(max, s, run).sessions[k])
  {
    if run != [] {
      var before := Extend(max, s, run[..|run| - 1]);
      RunSettles(max, s, run[..|run| - 1], k);
      InvStep(max, before, run[|run| - 1]);
      StepSettles(max, before, run[|run| - 1], k);
    }
  }

  /**
   Every session is taken out of the table by exactly one critical section, for good: from then on,
   over every continuation, the table never maps it again and the remover never changes; and unless
   that was the one that holds file_upload_end, the session never commits.
   */
  lemma {:induction false} RemovedExactlyOnce(max: nat, files: map<string, seq<byte>>, run: seq<Event>, more: seq<Event>, k: nat)
    requires k < |After(max, files, run).sessions| && After(max, files, run).sessions[k].removedBy.Some?
    ensures var s := After(max, files, run); var t := Extend(max, s, more);
      && k < |t.sessions| && t.sessions[k].removedBy == s.sessions[k].removedBy
      && (forall id | id in t.uploads :: t.uploads[id] != k)
      && (s.sessions[k].removedBy != Some(ByEnd) ==> !t.sessions[k].committed)
  {
    InvRun(max, files, run);
    RunSettles(max, After(max, files, run), more, k);
  }

  /** At most four uploads are mapped, and a session is mapped if and only if nobody has removed it. */
  lemma {:induction false} TableIsExact(max: nat, files: map<string, seq<byte>>, run: seq<Event>)
    ensures var s := After(max, files, run);
      && |s.uploads| <= MAX_CONCURRENT_FILE_UPLOADS
      && (forall k | 0 <= k < |s.sessions| ::
            s.sessions[k].removedBy.None? <==> (s.sessions[k].id in s.uploads && s.uploads[s.sessions[k].id] == k))
  {
    InvRun(max, files, run);
  }

  /**
   The only step that gives anybody a target file is a successful Finish of a session that its own
   worker took out with file_upload_end and that nobody has told to stop; it never replaces an
   existing file, and writes exactly the session's bytes, of the expected length if one was given.
   */
  lemma {:induction false} CommitIsAtomic(max: nat, files: map<string, seq<byte>>, run: seq<Event>, e: Event)
    ensures var s := After(max, files, run); var t := Step(max, s, e);
      !e.Outside? && t.targets != s.targets ==>
        && e.Finish? && Enabled(s, e)
        && var u := s.sessions[e.k];
           && u.removedBy == Some(ByEnd) && !u.owesStop && !u.stopped && !u.committed
           && u.target !in s.targets && t.targets == s.targets[u.target := u.session.data]
           && (u.session.expected >= 0 ==> |u.session.data| == u.session.expected)
           && (max > 0 ==> |u.session.data| <= max)
           && t.sessions[e.k].committed
  {
    var s := After(max, files, run);
    InvRun(max, files, run);
    if e.Finish? && Enabled(s, e) {
      assert GoodUpload(max, s.sessions[e.k]);
    } else if !e.Outside? {
      OnlyFinishCommits(max, s, e);
    }
  }

  lemma OnlyFinishCommits(max: nat, s: State, e: Event)
    requires !e.Outside? && !(e.Finish? && Enabled(s, e))
    ensures Step(max, s, e).targets == s.targets
  {
    if Enabled(s, e) {
      if e.Start? || e.Look? || e.Queue? || e.WriteInline? || e.Abort? {
        ReaderLeavesTargets(max, s, e);
      } else {
        WorkerLeavesTargets(max, s, e);
      }
    }
  }

  lemma ReaderLeavesTargets(max: nat, s: State, e: Event)
    requires Enabled(s, e) && (e.Start? || e.Look? || e.Queue? || e.WriteInline? || e.Abort?)
    ensures Step(max, s, e).targets == s.targets
  {}

  lemma WorkerLeavesTargets(max: nat, s: State, e: Event)
    requires Enabled(s, e) && !(e.Start? || e.Look? || e.Queue? || e.WriteInline? || e.Abort? || e.Finish? || e.Outside?)
    ensures Step(max, s, e).targets == s.targets
  {}

  lemma StartCommitsNothing(s: State, e: Event, k: nat)
    requires Indexed(s) && e.Start? && k < |s.sessions|
    ensures var t := Installed(s, e.id, e.target, e.creditMode, e.expected);
      k < |t.sessions| && t.sessions[k].committed == s.sessions[k].committed
  {}

  lemma WriteInlineCommitsNothing(max: nat, s: State, io: WriteIo, k: nat)
    requires Enabled(s, WriteInline(io)) && k < |s.sessions|
    ensures var t := WriteInlineStep(s, s.reader.k, s.reader.data, io, max);
      k < |t.sessions| && t.sessions[k].committed == s.sessions[k].committed
  {}

  lemma ReaderCommitsNothing(max: nat, s: State, e: Event, k: nat)
    requires Enabled(s, e) && k < |s.sessions| && (e.Look? || e.Queue? || e.Abort?)
    ensures k < |Step(max, s, e).sessions| && Step(max, s, e).sessions[k].committed == s.sessions[k].committed
  {}

  lemma WorkerCommitsNothing(max: nat, s: State, e: Event)
    requires Enabled(s, e) && OfSession(e) && !e.Finish?
    ensures e.k < |Step(max, s, e).sessions| && Step(max, s, e).sessions[e.k].committed == s.sessions[e.k].committed
  {
    if e.Remove? {
      assert Step(max, s, e) == RemoveStep(s, e.k);
    }
  }

  lemma ReaderAddsNoSession(max: nat, s: State, e: Event)
    requires Enabled(s, e) && (e.Look? || e.Queue? || e.WriteInline? || e.Abort?)
    ensures |Step(max, s, e).sessions| == |s.sessions|
  {}

  lemma WorkerAddsNoSession(max: nat, s: State, e: Event)
    requires Enabled(s, e) && (OfSession(e) || e.Teardown? || e.Outside?)
    ensures |Step(max, s, e).sessions| == |s.sessions|
  {
    if e.Remove? {
      assert Step(max, s, e) == RemoveStep(s, e.k);
    }
  }

  lemma NewSessionsAreUncommitted(max: nat, s: State, e: Event, k: nat)
    requires |s.sessions| <= k < |Step(max, s, e).sessions|
    ensures !Step(max, s, e).sessions[k].committed
  {
    assert Enabled(s, e);
    if e.Look? || e.Queue? || e.WriteInline? || e.Abort? {
      ReaderAddsNoSession(max, s, e);
    } else if e.Start? {
      assert Step(max, s, e) == Installed(s, e.id, e.target, e.creditMode, e.expected);
    } else {
      WorkerAddsNoSession(max, s, e);
    }
  }

  /** A session becomes committed by its own Finish alone. */
  lemma OnlyItsFinishCommits(max: nat, s: State, e: Event, k: nat)
    requires Inv(max, s) && k < |Step(max, s, e).sessions| && Step(max, s, e).sessions[k].committed
    requires k < |s.sessions| ==> !s.sessions[k].committed
    ensures k < |s.sessions| && Enabled(s, e) && e.Finish? && e.k == k
  {
    if k >= |s.sessions| {
      NewSessionsAreUncommitted(max, s, e, k);
    } else if Enabled(s, e) {
      if e.Look? || e.Queue? || e.Abort? {
        ReaderCommitsNothing(max, s, e, k);
      } else if e.Start? {
        StartCommitsNothing(s, e, k);
      } else if e.WriteInline? {
        WriteInlineCommitsNothing(max, s, e.io, k);
      } else if OfSession(e) && e.k != k {
        TouchesOne(max, s, e, k);
      } else if OfSession(e) && !e.Finish? {
        WorkerCommitsNothing(max, s, e);
      }
    }
  }

  /** Step j of the run is session k's finish, which puts the data at the target, where nothing was before. */
  predicate CommitsAt(max: nat, files: map<string, seq<byte>>, run: seq<Event>, j: nat, k: nat, target: string, data: seq<byte>) {
    && j < |run| && run[j].Finish? && run[j].k == k
    && var s := After(max, files, run[..j]);
       target !in s.targets && Step(max, s, run[j]).targets == s.targets[target := data]
  }

  lemma FinishCommits(max: nat, s: State, e: Event)
    requires Enabled(s, e) && e.Finish? && !s.sessions[e.k].committed && Step(max, s, e).sessions[e.k].committed
    ensures var u := Step(max, s, e).sessions[e.k];
      u.target !in s.targets && Step(max, s, e).targets == s.targets[u.target := u.session.data]
  {
    assert Step(max, s, e) == FinishStep(s, e.k, e.result);
  }

  lemma EarlierCommit(max: nat, files: map<string, seq<byte>>, before: seq<Event>, e: Event, j: nat, k: nat, target: string, data: seq<byte>)
    requires CommitsAt(max, files, before, j, k, target, data)
    ensures CommitsAt(max, files, before + [e], j, k, target, data)
  {
    assert (before + [e])[..j] == before[..j];
  }

  lemma LastCommit(max: nat, files: map<string, seq<byte>>, before: seq<Event>, e: Event)
    requires var s := After(max, files, before);
      Enabled(s, e) && e.Finish? && !s.sessions[e.k].committed && Step(max, s, e).sessions[e.k].committed
    ensures var u := Step(max, After(max, files, before), e).sessions[e.k];
      CommitsAt(max, files, before + [e], |before|, e.k, u.target, u.session.data)
  {
    assert (before + [e])[..|before|] == before;
    FinishCommits(max, After(max, files, before), e);
  }

  /** Every committed session has a finish in the run that put its bytes where no file was. */
  lemma {:induction false} CommittedAtAFinish(max: nat, files: map<string, seq<byte>>, run: seq<Event>, k: nat) returns (j: nat)
    requires k < |After(max, files, run).sessions| && After(max, files, run).sessions[k].committed
    ensures var u := After(max, files, run).sessions[k]; CommitsAt(max, files, run, j, k, u.target, u.session.data)
  {
    var before, e := run[..|run| - 1], run[|run| - 1];
    var s := After(max, files, before);
    assert run == before + [e];
    InvRun(max, files, before);
    if k < |s.sessions| && s.sessions[k].committed {
      j := CommittedAtAFinish(max, files, before, k);
      EarlierCommit(max, files, before, e, j, k, s.sessions[k].target, s.sessions[k].session.data);
      StepSettles(max, s, e, k);
    } else {
      OnlyItsFinishCommits(max, s, e, k);
      j := |before|;
      LastCommit(max, files, before, e);
    }
  }

  /** Committing is decided by the removal: committed means taken by file_upload_end and never stopped. */
  lemma {:induction false} CommittedWasNeverStopped(max: nat, files: map<string, seq<byte>>, run: seq<Event>, k: nat)
    requires k < |After(max, files, run).sessions| && After(max, files, run).sessions[k].committed
    ensures var u := After(max, files, run).sessions[k]; u.removedBy == Some(ByEnd) && !u.stopped && !u.owesStop
  {
    InvRun(max, files, run);
  }

  // ------------------------------------------------------------------ clean-up

  function WorkerRank(u: Upload): nat {
    match u.worker
    case Idle => 3
    case Took(_) => 12
    case Checked(_) => 11
    case Owing => 10
    case Failing => 9
    case SendFailed => 9
    case Finishing => 5
    case Leaving => 2
    case Exited => 0
  }

  /** Bounds the steps that the owner, or whoever stops it, can still take in session `u`. */
  function Rank(u: Upload): nat {
    10 * |u.queue| + WorkerRank(u) + if u.owesStop then 1 else 0
  }

  predicate OwnStep(e: Event, k: nat) { OfSession(e) && e.k == k }

  /** The next step of a session that has been removed. */
  function Tidy(u: Upload, k: nat): Event {
    if u.owesStop then Stop(k) else
    match u.worker
    case Idle => SeeStop(k)
    case Took(_) => Check(k)
    case Checked(item) => if item.Chunk? then Write(k, Wrote) else Remove(k)
    case Owing => SendCredit(k, true)
    case Failing => Remove(k)
    case SendFailed => Remove(k)
    case Finishing => Finish(k, ALL_FINE)
    case _ => Cleanup(k)
  }

  lemma TidyIsEnabled(max: nat, s: State, k: nat)
    requires k < |s.sessions| && GoodUpload(max, s.sessions[k])
    requires s.sessions[k].removedBy.Some? && !s.sessions[k].worker.Exited?
    ensures OwnStep(Tidy(s.sessions[k], k), k) && Enabled(s, Tidy(s.sessions[k], k))
  {}

  lemma OwnStepLowersRank(max: nat, s: State, e: Event, k: nat)
    requires k < |s.sessions| && GoodUpload(max, s.sessions[k]) && OwnStep(e, k) && Enabled(s, e)
    ensures Rank(Step(max, s, e).sessions[k]) < Rank(s.sessions[k]) && Step(max, s, e).reader == s.reader
  {}

  /** The reader may still put the item it is holding into the queue of a session removed in the meantime. */
  function Budget(s: State, k: nat): nat
    requires k < |s.sessions|
  {
    Rank(s.sessions[k]) + if s.reader.Queueing? && s.reader.k == k then 10 else 0
  }

  lemma QueueSpends(s: State, seesStop: bool, k: nat)
    requires Indexed(s) && k < |s.sessions| && s.sessions[k].removedBy.Some? && s.reader.Queueing? && s.reader.k < |s.sessions|
    ensures var t := QueueStep(s, s.reader.k, s.reader.item, seesStop); |t.sessions| == |s.sessions| && Budget(t, k) <= Budget(s, k)
  {}

  lemma WriteInlineSpends(max: nat, s: State, io: WriteIo, k: nat)
    requires Indexed(s) && k < |s.sessions| && s.sessions[k].removedBy.Some? && s.reader.Writing? && s.reader.k < |s.sessions|
    ensures var t := WriteInlineStep(s, s.reader.k, s.reader.data, io, max); |t.sessions| == |s.sessions| && Budget(t, k) <= Budget(s, k)
  {}

  /** What the reader loop does otherwise, and teardown, concern mapped sessions only. */
  lemma StartSpends(s: State, e: Event, k: nat)
    requires Indexed(s) && k < |s.sessions| && s.sessions[k].removedBy.Some? && e.Start? && s.reader.Ready?
    ensures var t := Installed(s, e.id, e.target, e.creditMode, e.expected);
      |t.sessions| >= |s.sessions| && Budget(t, k) <= Budget(s, k)
  {}

  lemma LookSpends(s: State, id: string, item: Item, k: nat)
    requires Indexed(s) && k < |s.sessions| && s.sessions[k].removedBy.Some? && s.reader.Ready?
    ensures var t := LookStep(s, id, item); |t.sessions| == |s.sessions| && Budget(t, k) <= Budget(s, k)
  {}

  lemma AbortSpends(s: State, id: string, k: nat)
    requires Indexed(s) && k < |s.sessions| && s.sessions[k].removedBy.Some?
    ensures var t := Aborted(s, id); |t.sessions| == |s.sessions| && Budget(t, k) <= Budget(s, k)
  {}

  lemma TeardownSpends(max: nat, s: State, k: nat)
    requires Indexed(s) && k < |s.sessions| && s.sessions[k].removedBy.Some?
    ensures var t := Step(max, s, Teardown); |t.sessions| == |s.sessions| && Budget(t, k) <= Budget(s, k)
  {}

  lemma RestSpend(max: nat, s: State, e: Event, k: nat)
    requires Indexed(s) && k < |s.sessions| && s.sessions[k].removedBy.Some? && Enabled(s, e)
    requires e.Start? || e.Look? || e.Abort? || e.Teardown? || e.Outside?
    ensures var t := Step(max, s, e); |t.sessions| >= |s.sessions| && Budget(t, k) <= Budget(s, k)
  {
    match e
    case Start(_, _, _, _) => StartSpends(s, e, k);
    case Look(id, item) => LookSpends(s, id, item, k);
    case Abort(id) => AbortSpends(s, id, k);
    case Teardown => TeardownSpends(max, s, k);
    case _ =>
  }

  lemma StepSpends(max: nat, s: State, e: Event, k: nat)
    requires Inv(max, s) && k < |s.sessions| && s.sessions[k].removedBy.Some?
    ensures var t := Step(max, s, e);
      k < |t.sessions| && Budget(t, k) + (if OwnStep(e, k) && Enabled(s, e) then 1 else 0) <= Budget(s, k)
  {
    if Enabled(s, e) {
      if OwnStep(e, k) {
        WorkerAddsNoSession(max, s, e);
        OwnStepLowersRank(max, s, e, k);
      } else if OfSession(e) {
        TouchesOne(max, s, e, k);
      } else if e.Queue? {
        QueueSpends(s, e.seesStop, k);
      } else if e.WriteInline? {
        WriteInlineSpends(max, s, e.io, k);
      } else {
        RestSpend(max, s, e, k);
      }
    }
  }

  /** How many steps of its own session k takes in a continuation. */
  function OwnSteps(max: nat, s: State, run: seq<Event>, k: nat): nat {
    if run == [] then 0
    else
      var before := run[..|run| - 1];
      OwnSteps(max, s, before, k)
      + if OwnStep(run[|run| - 1], k) && Enabled(Extend(max, s, before), run[|run| - 1]) then 1 else 0
  }

  lemma {:induction false} BudgetBounds(max: nat, s: State, run: seq<Event>, k: nat)
    requires Inv(max, s) && k < |s.sessions| && s.sessions[k].removedBy.Some?
    ensures k < |Extend(max, s, run).sessions| && OwnSteps(max, s, run, k) + Budget(Extend(max, s, run), k) <= Budget(s, k)
  {
    if run != [] {
      var before := run[..|run| - 1];
      BudgetBounds(max, s, before, k);
      RunSettles(max, s, before, k);
      StepSpends(max, Extend(max, s, before), run[|run| - 1], k);
    }
  }

  /**
   A removed session always gets cleaned up: over every continuation it takes at most Rank + 10 steps of
   its own, until it has exited one is enabled, and once it has exited clean-up has run exactly once and
   its temporary file is gone.
   */
  lemma {:induction false} RemovedIsCleanedUp(max: nat, files: map<string, seq<byte>>, run: seq<Event>, more: seq<Event>, k: nat)
    requires k < |After(max, files, run).sessions| && After(max, files, run).sessions[k].removedBy.Some?
    ensures var s := After(max, files, run); var t := Extend(max, s, more);
      && OwnSteps(max, s, more, k) <= Rank(s.sessions[k]) + 10
      && k < |t.sessions|
      && var u := t.sessions[k];
         && (!u.worker.Exited? ==> OwnStep(Tidy(u, k), k) && Enabled(t, Tidy(u, k)))
         && (u.worker.Exited? ==> u.cleanups == 1 && !u.tempFile && !u.fileOpen)
  {
    var s := After(max, files, run);
    InvRun(max, files, run);
    BudgetBounds(max, s, more, k);
    RunSettles(max, s, more, k);
    var t := Extend(max, s, more);
    assert GoodUpload(max, t.sessions[k]);
    if !t.sessions[k].worker.Exited? {
      TidyIsEnabled(max, t, k);
    }
  }

  // ------------------------------------------------- the table as it is mutated

  /**
   The agent's `uploads` map with the sessions it refers to; each method is one critical section of fileMu.
   `model` is the state of the machine that they stand for.
   */
  class Uploads {
    var uploads: map<string, nat>
    var sessions: seq<Upload>
    ghost var model: State

    ghost predicate Valid()
      reads this
    {
      uploads == model.uploads && sessions == model.sessions && Indexed(model)
    }

    constructor ()
      ensures Valid() && model == EMPTY
    {
      uploads, sessions := map[], [];
      model := EMPTY;
    }

    method Install(id: string, target: string, creditMode: bool, expected: int) returns (ok: bool)
      requires Valid()
      modifies this
      ensures Valid() && model == Installed(old(model), id, target, creditMode, expected)
      ensures ok <==> id in old(uploads) || |old(uploads)| < MAX_CONCURRENT_FILE_UPLOADS
    {
      IndexedInstall(model, id, target, creditMode, expected);
      model := Installed(model, id, target, creditMode, expected);
      if id !in uploads && |uploads| >= MAX_CONCURRENT_FILE_UPLOADS {
        return false;
      }
      var n := |sessions|;
      if id in uploads {
        var prior := uploads[id];
        sessions := sessions[prior := TakenBy(sessions[prior], ByReplacement)];
      }
      sessions := sessions + [NewUpload(id, target, creditMode, expected)];
      uploads := uploads[id := n];
      return true;
    }

    method RemoveUpload(k: nat, r: Remover) returns (owned: bool)
      requires Valid() && k < |sessions|
      modifies this
      ensures Valid() && model == Removed(old(model), k, r)
      ensures owned <==> Mapped(old(model), k)
    {
      var u := sessions[k];
      owned := u.id in uploads && uploads[u.id] == k;
      RemovedIndexed(model, k, r);
      model := Removed(model, k, r);
      if owned {
        uploads := uploads - {u.id};
        sessions := sessions[k := TakenBy(u, r)];
      }
    }

    method AbortUpload(id: string)
      requires Valid()
      modifies this
      ensures Valid() && model == Aborted(old(model), id)
    {
      if id in uploads {
        var k := uploads[id];
        IndexedTakeOut(model, k, TakenBy(sessions[k], ByAbort));
        uploads := uploads - {id};
        sessions := sessions[k := TakenBy(sessions[k], ByAbort)];
      }
      model := Aborted(model, id);
    }
  }
}
