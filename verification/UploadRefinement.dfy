/**
 The two upload machines together: the agent of Upload, where the reader loop's and the worker's steps are
 taken whole and the table is one flag, is a session of UploadTable, where every critical section of
 cmd/agent/files.go:426-681 is a step of its own. What holds of every table run holds of that session.
 */
module UploadRefinement {
  import opened Prelude
  import opened UploadSessions
  import U = Upload
  import T = UploadTable

  function ItemOf(o: U.Order): T.Item { if o.Chunk? then T.Chunk(Some(o.data)) else T.End }

  function Items(orders: seq<U.Order>): (items: seq<T.Item>)
    ensures |items| == |orders| && forall i | 0 <= i < |orders| :: items[i] == ItemOf(orders[i])
  {
    seq(|orders|, i requires 0 <= i < |orders| => ItemOf(orders[i]))
  }

  /** Where the worker's goroutine is; before the start there is none. */
  function PointOf(w: U.Worker): T.Worker {
    match w
    case Took(m) => T.Took(ItemOf(m))
    case Owing => T.Owing
    case Committing => T.Finishing
    case Exited => T.Exited
    case _ => T.Idle
  }

  /** A table with this one session, mapped if nobody has removed it. */
  function Table(u: T.Upload, targets: map<string, seq<byte>>): T.State {
    T.State(if u.removedBy.None? then map[u.id := 0] else map[], [u], targets, T.Ready)
  }

  predicate SameSession(a: U.Agent, u: T.Upload, id: string, path: string) {
    && u.id == id && u.target == path && u.creditMode && u.session == a.session
    && u.queue == Items(a.events) && u.stopped == a.stopped && !u.owesStop
    && u.worker == PointOf(a.worker)
    && (a.owned <==> u.removedBy.None?)
    && (a.target.Some? <==> u.committed)
  }

  predicate Related(a: U.Agent, t: T.State, id: string, path: string) {
    if a.worker.Unborn? then t == T.EMPTY.(targets := t.targets)
    else |t.sessions| == 1 && SameSession(a, t.sessions[0], id, path) && t == Table(t.sessions[0], t.targets)
  }

  // ---------------------------------------------------------- one step, as table steps

  function QueueScript(a: U.Agent, item: T.Item, id: string): seq<T.Event> {
    if !a.owned then []
    else if |a.events| < U.MAX_FILE_UPLOAD_CREDITS then [T.Look(id, item), T.Queue(false)]
    else [T.Look(id, item), T.Queue(false), T.Stop(0)]
  }

  function ReadScript(c: U.Config, a: U.Agent, o: U.Order, ok: bool, id: string, path: string): seq<T.Event> {
    match o
    case Start(size, _) =>
      if !a.worker.Unborn? || !ok || size < -1 || (c.agentMax > 0 && size > c.agentMax) then []
      else [T.Start(id, path, true, size)]
    case Abort => if a.owned then [T.Abort(id), T.Stop(0)] else []
    case _ => QueueScript(a, ItemOf(o), id)
  }

  function WorkScript(c: U.Config, a: U.Agent, io: WriteIo): seq<T.Event>
    requires a.worker.Took?
  {
    if a.stopped then [T.Check(0), T.Cleanup(0)]
    else if a.worker.m.Chunk? then
      if AfterWrite(c.agentMax, a.session, Some(a.worker.m.data), io).1.None? then [T.Check(0), T.Write(0, io)]
      else [T.Check(0), T.Write(0, io), T.Remove(0), T.Cleanup(0)]
    else if a.owned then [T.Check(0), T.Remove(0)]
    else [T.Check(0), T.Remove(0), T.Cleanup(0)]
  }

  function CreditScript(sent: bool): seq<T.Event> {
    if sent then [T.SendCredit(0, true)] else [T.SendCredit(0, false), T.Remove(0), T.Cleanup(0)]
  }

  /** The file at the path is there or not, as the no-replace rename will find it. */
  function Found(path: string, taken: bool): T.Event {
    T.Outside(path, if taken then Some([]) else None)
  }

  /** The critical sections and calls that one step of the agent consists of. */
  function Script(c: U.Config, s: U.State, e: U.Event, id: string, path: string): seq<T.Event> {
    if !U.Enabled(c, s, e) then [] else
    match e
    case AgentRead(ok) => ReadScript(c, s.agt, s.net.down[0], ok, id, path)
    case TakeEvent => [T.Take(0)]
    case SeeStop => [T.SeeStop(0), T.Cleanup(0)]
    case Work(io) => WorkScript(c, s.agt, io)
    case SendCredit => CreditScript(s.net.conn)
    case FinishUpload(result, targetExists) => [Found(path, targetExists), T.Finish(0, result), T.Cleanup(0)]
    case Teardown => if s.agt.owned then [T.Teardown, T.Stop(0)] else []
    case _ => []
  }

  /** The table run that a whole run of the upload makes. */
  function Transcript(c: U.Config, content: seq<byte>, run: seq<U.Event>, id: string, path: string): seq<T.Event> {
    if run == [] then []
    else
      Transcript(c, content, run[..|run| - 1], id, path)
      + Script(c, U.After(c, content, run[..|run| - 1]), run[|run| - 1], id, path)
  }

  // ------------------------------------------------------------- taking several steps

  lemma Extend1(max: nat, t: T.State, e: T.Event)
    ensures T.Extend(max, t, [e]) == T.Step(max, t, e)
  {
    assert [e][..0] == [];
    assert T.Extend(max, t, []) == t;
  }

  lemma Extend2(max: nat, t: T.State, e: T.Event, f: T.Event)
    ensures T.Extend(max, t, [e, f]) == T.Step(max, T.Step(max, t, e), f)
  {
    assert [e, f][..1] == [e];
    Extend1(max, t, e);
  }

  lemma Extend3(max: nat, t: T.State, e: T.Event, f: T.Event, g: T.Event)
    ensures T.Extend(max, t, [e, f, g]) == T.Step(max, T.Step(max, T.Step(max, t, e), f), g)
  {
    assert [e, f, g][..2] == [e, f];
    Extend2(max, t, e, f);
  }

  lemma Extend4(max: nat, t: T.State, e: T.Event, f: T.Event, g: T.Event, h: T.Event)
    ensures T.Extend(max, t, [e, f, g, h]) == T.Step(max, T.Step(max, T.Step(max, T.Step(max, t, e), f), g), h)
  {
    assert [e, f, g, h][..3] == [e, f, g];
    Extend3(max, t, e, f, g);
  }

  lemma AfterSnoc(max: nat, files: map<string, seq<byte>>, run: seq<T.Event>, e: T.Event)
    ensures T.After(max, files, run + [e]) == T.Step(max, T.After(max, files, run), e)
  {
    assert (run + [e])[..|run|] == run;
  }

  lemma AfterAppended(max: nat, files: map<string, seq<byte>>, run: seq<T.Event>, more: seq<T.Event>)
    requires more != []
    ensures T.After(max, files, run + more) == T.Step(max, T.After(max, files, run + more[..|more| - 1]), more[|more| - 1])
  {
    assert run + more == run + more[..|more| - 1] + [more[|more| - 1]];
    AfterSnoc(max, files, run + more[..|more| - 1], more[|more| - 1]);
  }

  lemma {:induction false} ExtendAfter(max: nat, files: map<string, seq<byte>>, run: seq<T.Event>, more: seq<T.Event>)
    ensures T.After(max, files, run + more) == T.Extend(max, T.After(max, files, run), more)
  {
    if more == [] {
      assert run + more == run;
    } else {
      ExtendAfter(max, files, run, more[..|more| - 1]);
      AfterAppended(max, files, run, more);
    }
  }

  // ------------------------------------------------------- table steps of one session

  /** A worker's own step on the only session. */
  lemma OwnStep(max: nat, u: T.Upload, f: map<string, seq<byte>>, e: T.Event, v: T.Upload)
    requires T.Plain(e) || e.Write?
    requires e.k == 0 && T.Enabled(Table(u, f), e) && T.Step(max, Table(u, f), e).sessions[0] == v
    requires v.id == u.id && v.removedBy == u.removedBy
    ensures T.Step(max, Table(u, f), e) == Table(v, f)
  {
    T.PlainTouchesOne(max, Table(u, f), e);
    assert [u][0 := v] == [v];
  }

  /** removeUpload by the worker, then its next program point. */
  lemma RemoveOnly(max: nat, u: T.Upload, f: map<string, seq<byte>>)
    requires T.Enabled(Table(u, f), T.Remove(0))
    ensures var r := if u.worker.Failing? then T.ByWriteError else if u.worker.SendFailed? then T.BySendError else T.ByEnd;
      var v := if u.removedBy.None? then T.TakenBy(u, r) else u;
      T.Step(max, Table(u, f), T.Remove(0))
        == Table(v.(worker := if u.removedBy.None? && r.ByEnd? then T.Finishing else T.Leaving), f)
  {
    assert map[u.id := 0] - {u.id} == map[];
  }

  lemma CleanupOnly(max: nat, u: T.Upload, f: map<string, seq<byte>>)
    requires u.worker.Leaving?
    ensures T.Step(max, Table(u, f), T.Cleanup(0))
      == Table(u.(fileOpen := false, tempFile := false, worker := T.Exited, cleanups := u.cleanups + 1), f)
  {
    assert T.Enabled(Table(u, f), T.Cleanup(0));
  }

  lemma StopOnly(max: nat, u: T.Upload, f: map<string, seq<byte>>)
    requires u.owesStop && u.creditMode
    ensures T.Step(max, Table(u, f), T.Stop(0)) == Table(u.(owesStop := false, stopped := true, fileOpen := false), f)
  {
    assert T.Enabled(Table(u, f), T.Stop(0));
  }

  // ------------------------------------------------------- each step of the agent

  /** The session that the agent's state stands for. */
  predicate Joined(max: nat, a: U.Agent, u: T.Upload, id: string, path: string) {
    SameSession(a, u, id, path) && T.GoodUpload(max, u) && !a.worker.Unborn?
  }

  lemma LookOnly(max: nat, u: T.Upload, f: map<string, seq<byte>>, item: T.Item)
    requires u.removedBy.None? && u.creditMode && !u.stopped
    ensures var t := T.Step(max, T.Step(max, Table(u, f), T.Look(u.id, item)), T.Queue(false));
      t == if |u.queue| < T.EVENT_QUEUE_CAPACITY then Table(u.(queue := u.queue + [item]), f)
           else Table(T.TakenBy(u, T.ByOverflow), f)
  {
    var t := T.Step(max, Table(u, f), T.Look(u.id, item));
    assert t == Table(u, f).(reader := T.Queueing(0, item));
    assert map[u.id := 0] - {u.id} == map[];
  }

  lemma SimQueue(max: nat, a: U.Agent, n: U.Net, o: U.Order, u: T.Upload, f: map<string, seq<byte>>, id: string, path: string)
    returns (v: T.Upload)
    requires Joined(max, a, u, id, path) && a.owned && (o.Chunk? || o.End?)
    ensures SameSession(U.QueueEvent(a, n, o).0, v, id, path)
    ensures T.Extend(max, Table(u, f), QueueScript(a, ItemOf(o), id)) == Table(v, f)
  {
    var item := ItemOf(o);
    LookOnly(max, u, f, item);
    if |a.events| < U.MAX_FILE_UPLOAD_CREDITS {
      Extend2(max, Table(u, f), T.Look(id, item), T.Queue(false));
      assert Items(a.events + [o]) == Items(a.events) + [item];
      v := u.(queue := u.queue + [item]);
    } else {
      Extend3(max, Table(u, f), T.Look(id, item), T.Queue(false), T.Stop(0));
      v := StopTaken(max, u, f, T.ByOverflow);
    }
  }

  /** Whoever took the session out of the table goes on to stop it. */
  lemma StopTaken(max: nat, u: T.Upload, f: map<string, seq<byte>>, r: T.Remover) returns (v: T.Upload)
    requires T.TakesAway(r) && u.creditMode && !u.owesStop
    ensures T.Step(max, Table(T.TakenBy(u, r), f), T.Stop(0)) == Table(v, f)
    ensures v == u.(removedBy := Some(r), stopped := true, fileOpen := false)
  {
    StopOnly(max, T.TakenBy(u, r), f);
    v := u.(removedBy := Some(r), stopped := true, fileOpen := false);
  }

  lemma SimAbort(max: nat, a: U.Agent, u: T.Upload, f: map<string, seq<byte>>, id: string, path: string) returns (v: T.Upload)
    requires Joined(max, a, u, id, path) && a.owned
    ensures SameSession(a.(owned := false, stopped := true), v, id, path)
    ensures T.Extend(max, Table(u, f), [T.Abort(id), T.Stop(0)]) == Table(v, f)
  {
    Extend2(max, Table(u, f), T.Abort(id), T.Stop(0));
    assert map[u.id := 0] - {u.id} == map[];
    assert T.Step(max, Table(u, f), T.Abort(id)) == Table(T.TakenBy(u, T.ByAbort), f);
    v := StopTaken(max, u, f, T.ByAbort);
  }

  lemma TeardownOnly(max: nat, u: T.Upload, f: map<string, seq<byte>>)
    requires u.removedBy.None?
    ensures T.Step(max, Table(u, f), T.Teardown) == Table(T.TakenBy(u, T.ByTeardown), f)
  {
    assert T.Step(max, Table(u, f), T.Teardown).sessions == [T.TakenBy(u, T.ByTeardown)];
  }

  lemma SimTeardown(max: nat, a: U.Agent, u: T.Upload, f: map<string, seq<byte>>, id: string, path: string) returns (v: T.Upload)
    requires Joined(max, a, u, id, path) && a.owned
    ensures SameSession(a.(owned := false, stopped := true), v, id, path)
    ensures T.Extend(max, Table(u, f), [T.Teardown, T.Stop(0)]) == Table(v, f)
  {
    Extend2(max, Table(u, f), T.Teardown, T.Stop(0));
    TeardownOnly(max, u, f);
    v := StopTaken(max, u, f, T.ByTeardown);
  }

  lemma SimTake(max: nat, a: U.Agent, u: T.Upload, f: map<string, seq<byte>>, id: string, path: string) returns (v: T.Upload)
    requires Joined(max, a, u, id, path) && a.worker.Idle? && a.events != []
    ensures SameSession(a.(worker := U.Took(a.events[0]), events := a.events[1..]), v, id, path)
    ensures T.Extend(max, Table(u, f), [T.Take(0)]) == Table(v, f)
  {
    Extend1(max, Table(u, f), T.Take(0));
    assert Items(a.events[1..]) == Items(a.events)[1..];
    v := u.(worker := T.Took(u.queue[0]), queue := u.queue[1..]);
    OwnStep(max, u, f, T.Take(0), v);
  }

  /** A session on its way out is cleaned up. */
  lemma CleanedUp(max: nat, u: T.Upload, f: map<string, seq<byte>>) returns (v: T.Upload)
    ensures T.Step(max, Table(u.(worker := T.Leaving), f), T.Cleanup(0)) == Table(v, f)
    ensures v == u.(fileOpen := false, tempFile := false, worker := T.Exited, cleanups := u.cleanups + 1)
  {
    CleanupOnly(max, u.(worker := T.Leaving), f);
    v := u.(fileOpen := false, tempFile := false, worker := T.Exited, cleanups := u.cleanups + 1);
  }

  lemma SimSeeStop(max: nat, a: U.Agent, u: T.Upload, f: map<string, seq<byte>>, id: string, path: string) returns (v: T.Upload)
    requires Joined(max, a, u, id, path) && a.worker.Idle? && a.stopped
    ensures SameSession(a.(worker := U.Exited), v, id, path)
    ensures T.Extend(max, Table(u, f), [T.SeeStop(0), T.Cleanup(0)]) == Table(v, f)
  {
    Extend2(max, Table(u, f), T.SeeStop(0), T.Cleanup(0));
    OwnStep(max, u, f, T.SeeStop(0), u.(worker := T.Leaving));
    v := CleanedUp(max, u, f);
  }

  /** A worker that finds itself stopped. */
  lemma SimWorkStopped(max: nat, a: U.Agent, u: T.Upload, f: map<string, seq<byte>>, id: string, path: string) returns (v: T.Upload)
    requires Joined(max, a, u, id, path) && a.worker.Took? && a.stopped
    ensures SameSession(a.(worker := U.Exited), v, id, path)
    ensures T.Extend(max, Table(u, f), [T.Check(0), T.Cleanup(0)]) == Table(v, f)
  {
    Extend2(max, Table(u, f), T.Check(0), T.Cleanup(0));
    OwnStep(max, u, f, T.Check(0), u.(worker := T.Leaving));
    v := CleanedUp(max, u, f);
  }

  /** Looking at stop and writing. */
  lemma CheckAndWrite(max: nat, u: T.Upload, f: map<string, seq<byte>>, io: WriteIo)
    requires u.worker.Took? && u.worker.item.Chunk? && !u.stopped && u.fileOpen
    ensures var (written, err) := AfterWrite(max, u.session, u.worker.item.data, io);
      T.Step(max, T.Step(max, Table(u, f), T.Check(0)), T.Write(0, io))
        == Table(u.(session := written, worker := if err.None? then T.Owing else T.Failing), f)
  {
    var v := u.(worker := T.Checked(u.worker.item));
    OwnStep(max, u, f, T.Check(0), v);
    var (written, err) := AfterWrite(max, u.session, u.worker.item.data, io);
    OwnStep(max, v, f, T.Write(0, io), v.(session := written, worker := if err.None? then T.Owing else T.Failing));
  }

  lemma FailedRemoves(max: nat, u: T.Upload, f: map<string, seq<byte>>) returns (w: T.Upload)
    requires u.worker.Failing? || u.worker.SendFailed?
    ensures T.Step(max, Table(u, f), T.Remove(0)) == Table(w.(worker := T.Leaving), f)
    ensures w == u.(removedBy := w.removedBy) && w.removedBy.Some?
  {
    RemoveOnly(max, u, f);
    w := if u.removedBy.Some? then u else T.TakenBy(u, if u.worker.Failing? then T.ByWriteError else T.BySendError);
  }

  /** A worker that has failed calls removeUpload, then cleanupUpload. */
  lemma FailedLeaves(max: nat, u: T.Upload, f: map<string, seq<byte>>) returns (v: T.Upload)
    requires u.worker.Failing? || u.worker.SendFailed?
    ensures T.Step(max, T.Step(max, Table(u, f), T.Remove(0)), T.Cleanup(0)) == Table(v, f)
    ensures v.removedBy.Some?
    ensures v == u.(removedBy := v.removedBy, fileOpen := false, tempFile := false, worker := T.Exited, cleanups := u.cleanups + 1)
  {
    var w := FailedRemoves(max, u, f);
    v := CleanedUp(max, w, f);
  }

  /** What WorkStep makes of a chunk. */
  function Wrote(max: nat, a: U.Agent, b: seq<byte>, io: WriteIo): U.Agent {
    var (written, err) := AfterWrite(max, a.session, Some(b), io);
    if err.None? then a.(session := written, worker := U.Owing) else a.(session := written, worker := U.Exited, owned := false)
  }

  lemma SimWrite(c: U.Config, a: U.Agent, io: WriteIo, u: T.Upload, f: map<string, seq<byte>>, id: string, path: string)
    returns (v: T.Upload)
    requires Joined(c.agentMax, a, u, id, path) && a.worker.Took? && !a.stopped && a.worker.m.Chunk?
    ensures SameSession(Wrote(c.agentMax, a, a.worker.m.data, io), v, id, path)
    ensures T.Extend(c.agentMax, Table(u, f), WorkScript(c, a, io)) == Table(v, f)
  {
    var max := c.agentMax;
    CheckAndWrite(max, u, f, io);
    var (written, err) := AfterWrite(max, u.session, u.worker.item.data, io);
    if err.None? {
      Extend2(max, Table(u, f), T.Check(0), T.Write(0, io));
      v := u.(session := written, worker := T.Owing);
    } else {
      Extend4(max, Table(u, f), T.Check(0), T.Write(0, io), T.Remove(0), T.Cleanup(0));
      v := FailedLeaves(max, u.(session := written, worker := T.Failing), f);
    }
  }

  lemma SimEnd(c: U.Config, a: U.Agent, io: WriteIo, u: T.Upload, f: map<string, seq<byte>>, id: string, path: string)
    returns (v: T.Upload)
    requires Joined(c.agentMax, a, u, id, path) && a.worker.Took? && !a.stopped && a.worker.m.End?
    ensures SameSession(a.(worker := if a.owned then U.Committing else U.Exited, owned := false), v, id, path)
    ensures T.Extend(c.agentMax, Table(u, f), WorkScript(c, a, io)) == Table(v, f)
  {
    var max, w := c.agentMax, u.(worker := T.Checked(T.End));
    OwnStep(max, u, f, T.Check(0), w);
    RemoveOnly(max, w, f);
    if a.owned {
      Extend2(max, Table(u, f), T.Check(0), T.Remove(0));
      v := T.TakenBy(u, T.ByEnd).(worker := T.Finishing);
    } else {
      Extend3(max, Table(u, f), T.Check(0), T.Remove(0), T.Cleanup(0));
      v := CleanedUp(max, u, f);
    }
  }

  lemma SimSendCredit(max: nat, a: U.Agent, sent: bool, u: T.Upload, f: map<string, seq<byte>>, id: string, path: string)
    returns (v: T.Upload)
    requires Joined(max, a, u, id, path) && a.worker.Owing?
    ensures SameSession(if sent then a.(worker := U.Idle) else a.(worker := U.Exited, owned := false), v, id, path)
    ensures T.Extend(max, Table(u, f), CreditScript(sent)) == Table(v, f)
  {
    v := u.(worker := if sent then T.Idle else T.SendFailed);
    OwnStep(max, u, f, T.SendCredit(0, sent), v);
    if sent {
      Extend1(max, Table(u, f), T.SendCredit(0, true));
    } else {
      Extend3(max, Table(u, f), T.SendCredit(0, false), T.Remove(0), T.Cleanup(0));
      v := FailedLeaves(max, v, f);
    }
  }

  /** The files after the environment's act at the path. */
  function FilesFound(f: map<string, seq<byte>>, path: string, taken: bool): map<string, seq<byte>> {
    if taken then f[path := []] else f - {path}
  }

  lemma FoundOnly(max: nat, u: T.Upload, f: map<string, seq<byte>>, path: string, taken: bool)
    ensures T.Step(max, Table(u, f), Found(path, taken)) == Table(u, FilesFound(f, path, taken))
  {}

  lemma FinishOnly(max: nat, u: T.Upload, f: map<string, seq<byte>>, io: FinishIo)
    requires u.worker.Finishing? && u.fileOpen
    ensures var err := FinishError(u.session, io, u.target in f);
      var t := T.Step(max, Table(u, f), T.Finish(0, io));
      && (err.Some? ==> t == Table(u.(fileOpen := false, worker := T.Leaving), f))
      && (err.None? ==> t == Table(u.(fileOpen := false, committed := true, tempFile := false, worker := T.Leaving),
                                   f[u.target := u.session.data]))
  {
    assert T.Step(max, Table(u, f), T.Finish(0, io)) == T.FinishStep(Table(u, f), 0, io);
    assert io.(synced := io.synced && u.fileOpen) == io;
  }

  /** What FinishStep makes of the agent. */
  function Finished(a: U.Agent, io: FinishIo, taken: bool): U.Agent {
    a.(worker := U.Exited, target := if FinishError(a.session, io, taken).None? then Some(a.session.data) else a.target)
  }

  /** A finish that works or does not, and the clean-up. */
  lemma FinishFails(max: nat, u: T.Upload, g: map<string, seq<byte>>, io: FinishIo) returns (v: T.Upload)
    requires u.worker.Finishing? && u.fileOpen && FinishError(u.session, io, u.target in g).Some?
    ensures T.Step(max, T.Step(max, Table(u, g), T.Finish(0, io)), T.Cleanup(0)) == Table(v, g)
    ensures v == u.(fileOpen := false, tempFile := false, worker := T.Exited, cleanups := u.cleanups + 1)
  {
    FinishOnly(max, u, g, io);
    v := CleanedUp(max, u.(fileOpen := false), g);
  }

  lemma FinishWorks(max: nat, u: T.Upload, g: map<string, seq<byte>>, io: FinishIo) returns (v: T.Upload)
    requires u.worker.Finishing? && u.fileOpen && FinishError(u.session, io, u.target in g).None?
    ensures T.Step(max, T.Step(max, Table(u, g), T.Finish(0, io)), T.Cleanup(0)) == Table(v, g[u.target := u.session.data])
    ensures v == u.(fileOpen := false, tempFile := false, committed := true, worker := T.Exited, cleanups := u.cleanups + 1)
  {
    FinishOnly(max, u, g, io);
    v := CleanedUp(max, u.(fileOpen := false, committed := true, tempFile := false), g[u.target := u.session.data]);
  }

  lemma FinishSteps(max: nat, u: T.Upload, f: map<string, seq<byte>>, io: FinishIo, taken: bool)
    returns (v: T.Upload, h: map<string, seq<byte>>)
    requires u.worker.Finishing? && u.fileOpen && !u.committed
    ensures T.Extend(max, Table(u, f), [Found(u.target, taken), T.Finish(0, io), T.Cleanup(0)]) == Table(v, h)
    ensures v == u.(fileOpen := false, tempFile := false, committed := FinishError(u.session, io, taken).None?,
                    worker := T.Exited, cleanups := u.cleanups + 1)
  {
    var g := FilesFound(f, u.target, taken);
    Extend3(max, Table(u, f), Found(u.target, taken), T.Finish(0, io), T.Cleanup(0));
    FoundOnly(max, u, f, u.target, taken);
    if FinishError(u.session, io, taken).Some? {
      v := FinishFails(max, u, g, io);
      h := g;
    } else {
      v := FinishWorks(max, u, g, io);
      h := g[u.target := u.session.data];
    }
  }

  lemma SimFinish(max: nat, a: U.Agent, io: FinishIo, taken: bool, u: T.Upload, f: map<string, seq<byte>>, id: string, path: string)
    returns (v: T.Upload, h: map<string, seq<byte>>)
    requires Joined(max, a, u, id, path) && a.worker.Committing?
    ensures SameSession(Finished(a, io, taken), v, id, path)
    ensures T.Extend(max, Table(u, f), [Found(path, taken), T.Finish(0, io), T.Cleanup(0)]) == Table(v, h)
  {
    v, h := FinishSteps(max, u, f, io, taken);
  }

  // --------------------------------------------------------------- all steps together

  predicate AgentStep(e: U.Event) {
    || e.AgentRead? || e.TakeEvent? || e.SeeStop? || e.Work? || e.SendCredit? || e.FinishUpload? || e.Teardown?
  }

  lemma OthersLeaveAgent(c: U.Config, s: U.State, e: U.Event)
    requires !AgentStep(e)
    ensures U.Step(c, s, e).agt == s.agt
  {}

  /** What the steps below use of Upload's invariant. */
  predicate GoodAgent(a: U.Agent) {
    && (a.worker.Unborn? ==> a.events == [] && !a.stopped && !a.owned && a.target.None?)
    && (a.worker.Took? ==> a.worker.m.Chunk? || a.worker.m.End?)
  }

  lemma InvGivesGoodAgent(c: U.Config, s: U.State)
    requires U.Inv(c, s)
    ensures GoodAgent(s.agt)
  {
    assert U.GoodOrders(c, s.srv, s.net, s.agt) && U.Begun(c, s.srv, s.net, s.agt);
  }

  lemma SimStart(c: U.Config, s: U.State, ok: bool, t: T.State, id: string, path: string)
    requires GoodAgent(s.agt) && s.agt.worker.Unborn? && s.net.down != [] && s.net.down[0].Start?
    requires Related(s.agt, t, id, path)
    ensures Related(U.OnStart(c, s, s.net.down[0], ok).agt,
                    T.Extend(c.agentMax, t, ReadScript(c, s.agt, s.net.down[0], ok, id, path)), id, path)
  {
    var o := s.net.down[0];
    if ReadScript(c, s.agt, o, ok, id, path) != [] {
      Extend1(c.agentMax, t, T.Start(id, path, true, o.size));
      assert T.Installed(t, id, path, true, o.size) == Table(T.NewUpload(id, path, true, o.size), t.targets);
    }
  }

  lemma SimRead(c: U.Config, s: U.State, ok: bool, t: T.State, id: string, path: string)
    requires U.Enabled(c, s, U.AgentRead(ok)) && GoodAgent(s.agt) && Related(s.agt, t, id, path) && T.AllGood(c.agentMax, t.sessions)
    ensures Related(U.AgentReadStep(c, s, ok).agt,
                    T.Extend(c.agentMax, t, ReadScript(c, s.agt, s.net.down[0], ok, id, path)), id, path)
  {
    var a, o, n := s.agt, s.net.down[0], s.net.(down := s.net.down[1..]);
    if o.Start? {
      if a.worker.Unborn? {
        SimStart(c, s, ok, t, id, path);
      }
    } else if a.owned {
      var u := t.sessions[0];
      if o.Abort? {
        var v := SimAbort(c.agentMax, a, u, t.targets, id, path);
      } else {
        var v := SimQueue(c.agentMax, a, n, o, u, t.targets, id, path);
      }
    }
  }

  lemma SimWork(c: U.Config, s: U.State, io: WriteIo, t: T.State, id: string, path: string)
    requires GoodAgent(s.agt) && s.agt.worker.Took? && Related(s.agt, t, id, path) && T.AllGood(c.agentMax, t.sessions)
    ensures Related(U.WorkStep(c, s, io).agt, T.Extend(c.agentMax, t, WorkScript(c, s.agt, io)), id, path)
  {
    var a, u := s.agt, t.sessions[0];
    if a.stopped {
      var v := SimWorkStopped(c.agentMax, a, u, t.targets, id, path);
    } else if a.worker.m.Chunk? {
      var v := SimWrite(c, a, io, u, t.targets, id, path);
      assert U.WorkStep(c, s, io).agt == Wrote(c.agentMax, a, a.worker.m.data, io);
    } else {
      var v := SimEnd(c, a, io, u, t.targets, id, path);
    }
  }

  lemma SimWorker(c: U.Config, s: U.State, e: U.Event, t: T.State, id: string, path: string)
    requires U.Enabled(c, s, e) && Related(s.agt, t, id, path) && T.AllGood(c.agentMax, t.sessions)
    requires e.TakeEvent? || e.SeeStop? || e.SendCredit?
    ensures Related(U.Step(c, s, e).agt, T.Extend(c.agentMax, t, Script(c, s, e, id, path)), id, path)
  {
    var max, a, f := c.agentMax, s.agt, t.targets;
    match e
    case TakeEvent => var v := SimTake(max, a, t.sessions[0], f, id, path);
    case SeeStop => var v := SimSeeStop(max, a, t.sessions[0], f, id, path);
    case SendCredit => var v := SimSendCredit(max, a, s.net.conn, t.sessions[0], f, id, path);
  }

  lemma SimEnding(c: U.Config, s: U.State, e: U.Event, t: T.State, id: string, path: string)
    requires U.Enabled(c, s, e) && GoodAgent(s.agt) && Related(s.agt, t, id, path) && T.AllGood(c.agentMax, t.sessions)
    requires e.FinishUpload? || e.Teardown?
    ensures Related(U.Step(c, s, e).agt, T.Extend(c.agentMax, t, Script(c, s, e, id, path)), id, path)
  {
    var max, a, f := c.agentMax, s.agt, t.targets;
    if e.FinishUpload? {
      var v, h := SimFinish(max, a, e.result, e.targetExists, t.sessions[0], f, id, path);
      assert U.Step(c, s, e).agt == Finished(a, e.result, e.targetExists);
    } else if a.owned {
      var v := SimTeardown(max, a, t.sessions[0], f, id, path);
    }
  }

  lemma SimOthers(c: U.Config, s: U.State, e: U.Event, t: T.State, id: string, path: string)
    requires !AgentStep(e) && Related(s.agt, t, id, path)
    ensures Related(U.Step(c, s, e).agt, T.Extend(c.agentMax, t, Script(c, s, e, id, path)), id, path)
  {
    OthersLeaveAgent(c, s, e);
    assert Script(c, s, e, id, path) == [];
  }

  lemma SimReader(c: U.Config, s: U.State, e: U.Event, t: T.State, id: string, path: string)
    requires U.Enabled(c, s, e) && GoodAgent(s.agt) && Related(s.agt, t, id, path) && T.AllGood(c.agentMax, t.sessions)
    requires e.AgentRead? || e.Work?
    ensures Related(U.Step(c, s, e).agt, T.Extend(c.agentMax, t, Script(c, s, e, id, path)), id, path)
  {
    if e.AgentRead? {
      SimRead(c, s, e.ok, t, id, path);
    } else {
      SimWork(c, s, e.io, t, id, path);
    }
  }

  /** Every step of the agent is a few steps of the table. */
  lemma SimStep(c: U.Config, s: U.State, e: U.Event, t: T.State, id: string, path: string)
    requires GoodAgent(s.agt) && Related(s.agt, t, id, path) && T.AllGood(c.agentMax, t.sessions)
    ensures Related(U.Step(c, s, e).agt, T.Extend(c.agentMax, t, Script(c, s, e, id, path)), id, path)
  {
    if !AgentStep(e) {
      SimOthers(c, s, e, t, id, path);
    } else if !U.Enabled(c, s, e) {
      assert Script(c, s, e, id, path) == [];
    } else if e.AgentRead? || e.Work? {
      SimReader(c, s, e, t, id, path);
    } else if e.FinishUpload? || e.Teardown? {
      SimEnding(c, s, e, t, id, path);
    } else {
      SimWorker(c, s, e, t, id, path);
    }
  }

  // -------------------------------------------------------------- main results

  /** Over every run of a whole upload, the agent is the one session of the table run that it makes. */
  lemma {:induction false} AgentIsASession(c: U.Config, content: seq<byte>, run: seq<U.Event>, files: map<string, seq<byte>>,
                                           id: string, path: string)
    ensures Related(U.After(c, content, run).agt, T.After(c.agentMax, files, Transcript(c, content, run, id, path)), id, path)
  {
    if run != [] {
      var before, e := run[..|run| - 1], run[|run| - 1];
      var done := Transcript(c, content, before, id, path);
      AgentIsASession(c, content, before, files, id, path);
      U.InvRun(c, content, before);
      InvGivesGoodAgent(c, U.After(c, content, before));
      T.InvRun(c.agentMax, files, done);
      SimStep(c, U.After(c, content, before), e, T.After(c.agentMax, files, done), id, path);
      ExtendAfter(c.agentMax, files, done, Script(c, U.After(c, content, before), e, id, path));
    }
  }

  lemma OkIsCommitted(c: U.Config, content: seq<byte>, run: seq<U.Event>, files: map<string, seq<byte>>, id: string, path: string)
    requires U.After(c, content, run).srv.handler.verdict.Ok?
    ensures var t := T.After(c.agentMax, files, Transcript(c, content, run, id, path));
      |t.sessions| == 1 && t.sessions[0].committed && t.sessions[0].target == path && t.sessions[0].session.data == content
  {
    AgentIsASession(c, content, run, files, id, path);
    U.OkMeansWholeBody(c, content, run);
    U.InvRun(c, content, run);
    assert U.Committed(U.After(c, content, run).srv, U.After(c, content, run).net, U.After(c, content, run).agt);
  }

  /**
   An upload that the server answers ok has, in that table run, a finish at which its path was free and
   became exactly the request body; the session was taken by file_upload_end and never told to stop.
   */
  lemma {:induction false} OkCommitsToAFreePath(c: U.Config, content: seq<byte>, run: seq<U.Event>, files: map<string, seq<byte>>,
                                                id: string, path: string)
    requires U.After(c, content, run).srv.handler.verdict.Ok?
    ensures var t := T.After(c.agentMax, files, Transcript(c, content, run, id, path));
      && |t.sessions| == 1 && t.sessions[0].committed
      && t.sessions[0].removedBy == Some(T.ByEnd) && !t.sessions[0].stopped && !t.sessions[0].owesStop
    ensures var steps := Transcript(c, content, run, id, path);
      exists j | 0 <= j < |steps| ::
           && steps[j].Finish?
           && path !in T.After(c.agentMax, files, steps[..j]).targets
           && T.After(c.agentMax, files, steps[..j + 1]).targets
                == T.After(c.agentMax, files, steps[..j]).targets[path := content]
  {
    var max, steps := c.agentMax, Transcript(c, content, run, id, path);
    OkIsCommitted(c, content, run, files, id, path);
    T.CommittedWasNeverStopped(max, files, steps, 0);
    var j := T.CommittedAtAFinish(max, files, steps, 0);
    AfterSnoc(max, files, steps[..j], steps[j]);
    assert steps[..j] + [steps[j]] == steps[..j + 1];
  }
}
