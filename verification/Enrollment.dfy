/**
 First contact between an agent and the server (cmd/agent/main.go:177-199 and 254-330,
 cmd/agent/state.go, internal/server/server.go:386-486, internal/server/store.go:726-810):
 the agent persists its own device token before its first hello, the server consumes a one-time
 token and inserts the device in one transaction, and any message, process or connection may be
 lost in between; the power may fail too, and bring an older state file back.
 */
module Enrollment {
  import opened Prelude
  import opened DeviceOrder
  import opened StateFiles
  import opened Tokens

  /** A row of enrollment_tokens; `usedAt` is 0 until the token is used. */
  datatype Grant = Grant(title: string, expires: int, usedAt: int)

  datatype Outcome = Created | Denied | Failed

  predicate Usable(grants: map<Hash, Grant>, token: string, now: int) {
    Hash(token) in grants && grants[Hash(token)].usedAt == 0 && grants[Hash(token)].expires >= now
  }

  /** EnrollDevice: one transaction, so a failed insert also takes back the use of the token. */
  ghost function Enrolled(grants: map<Hash, Grant>, devices: Table, now: int, token: string, id: string, row: Row)
    : (map<Hash, Grant>, Table, Outcome)
  {
    if id == "" then (grants, devices, Failed)
    else if !Usable(grants, token, now) then (grants, devices, Denied)
    else if id in devices then (grants, devices, Failed)
    else
      var title := grants[Hash(token)].title;
      (grants[Hash(token) := grants[Hash(token)].(usedAt := now)],
       Inserted(devices, id, if title == "" then row else row.(name := title)), Created)
  }

  // -------------------------------------------------------------------- parties

  /** The state file; saveState replaces it atomically. */
  datatype Identity = Identity(id: string, token: string, pending: bool)

  /** Whose hello it is: the agent under study, or anybody else. */
  datatype Party = Ours | Other

  datatype Hello = Hello(id: string, token: string, enrollmentToken: string, from: Party)

  /** What the server has made of a connection so far. */
  datatype Stage =
    | Sent
    | Enrolling(grant: string, deviceToken: string, newToken: string)
    | Accepted(newToken: string)  // hello_ack on its way
    | Acked
    | Closed

  datatype Connection = Connection(hello: Hello, stage: Stage)

  /**
   `memory` is the running process, None while it is down; `waiting` its open connection. `disk` is what
   the state file reads as, `fallback` what else it may read as after a power loss: what it held before
   saves whose directory sync failed (StateFiles.MayRead).
   `creators`, `issued`, `consumed`, `created` and `everOurs` record history.
   */
  datatype State = State(
    disk: Identity, fallback: set<Identity>, memory: Option<Identity>, enrollToken: string, waiting: Option<nat>,
    connections: seq<Connection>, devices: Table, grants: map<Hash, Grant>,
    creators: map<string, Party>, issued: set<Hash>, consumed: seq<Hash>, created: seq<string>, everOurs: bool)

  datatype Event =
    // the agent under study; `synced`: the directory sync of the save worked too
    | ChooseId(id: string, synced: bool) | ChooseToken(token: string, configured: string, synced: bool)
    | Boot(configured: string) | Crash | PowerLoss(read: Identity) | Dial | GiveUp | ReceiveAck(saved: bool, synced: bool)
    // the server
    | Lookup(i: nat, newToken: string) | Enroll(i: nat, now: int, row: Row) | Restart
    | Issue(token: string, grant: Grant) | CleanGrants(now: int) | DeleteDevice(id: string) | Import(id: string, row: Row)
    // the network, and everybody else
    | Lose(i: nat) | OtherHello(hello: Hello)

  const INITIAL := State(Identity("", "", false), {}, None, "", None, [], map[], map[], map[], {}, [], [], false)

  /** randomHex and randomToken never repeat a token that exists anywhere. */
  predicate Fresh(s: State, token: string) {
    && token != s.disk.token
    && (forall i | 0 <= i < |s.connections| ::
          && s.connections[i].hello.token != token
          && (s.connections[i].stage.Enrolling? ==> s.connections[i].stage.deviceToken != token))
    && (forall id | id in s.devices :: s.devices[id].tokenHash != Hash(token))
  }

  predicate Enabled(s: State, e: Event) {
    match e
    case ChooseId(id, _) => s.memory.None? && s.disk.id == "" && id != ""
    case ChooseToken(token, configured, _) =>
      && s.memory.None? && s.disk.id != "" && s.disk.token == ""
      && ValidEnrollmentToken(configured) && ValidDeviceToken(token) && Fresh(s, token)
    case Boot(configured) =>
      s.memory.None? && s.disk.token != "" && (s.disk.pending ==> ValidEnrollmentToken(configured))
    case Crash => true
    case PowerLoss(read) => read == s.disk || read in s.fallback
    case Dial => s.memory.Some? && s.waiting.None?
    case GiveUp => s.waiting.Some?
    case ReceiveAck(_, _) =>
      s.memory.Some? && s.waiting.Some? && s.waiting.value < |s.connections| && s.connections[s.waiting.value].stage.Accepted?
    case Lookup(i, newToken) =>
      i < |s.connections| && s.connections[i].stage.Sent? && ValidDeviceToken(newToken) && Fresh(s, newToken)
    case Enroll(i, now, _) => i < |s.connections| && s.connections[i].stage.Enrolling? && now > 0
    case Restart => true
    case Issue(token, grant) =>
      ValidEnrollmentToken(token) && Hash(token) !in s.issued && grant.usedAt == 0
    case CleanGrants(_) => true
    case DeleteDevice(_) => true
    case Import(id, row) =>
      id != "" && id !in s.devices && (s.disk.token != "" ==> row.tokenHash != Hash(s.disk.token))
    case Lose(i) => i < |s.connections|
    case OtherHello(hello) => hello.from.Other? && (s.disk.token != "" ==> hello.token != s.disk.token)
  }

  /** The hello of the running process. */
  function OurHello(s: State): Hello
    requires s.memory.Some?
  {
    Hello(s.memory.value.id, s.memory.value.token, if s.memory.value.pending then s.enrollToken else "", Ours)
  }

  /** handleAgentWS after the database lookup. */
  function Judge(devices: Table, hello: Hello, newToken: string): Stage {
    if hello.id !in devices then
      if hello.enrollmentToken == "" then
        if !ValidEnrollmentToken(hello.token) then Closed else Enrolling(hello.token, newToken, newToken)
      else if !ValidEnrollmentToken(hello.enrollmentToken) || !ValidDeviceToken(hello.token) then Closed
      else Enrolling(hello.enrollmentToken, hello.token, "")
    else if || !ValidDeviceToken(hello.token)
            || (hello.enrollmentToken != "" && !ValidEnrollmentToken(hello.enrollmentToken))
            || Hash(hello.token) != devices[hello.id].tokenHash
    then Closed
    else Accepted("")
  }

  function SetStage(s: State, i: nat, stage: Stage): State
    requires i < |s.connections|
  {
    s.(connections := s.connections[i := s.connections[i].(stage := stage)])
  }

  ghost function EnrollStep(s: State, i: nat, now: int, row: Row): State
    requires i < |s.connections| && s.connections[i].stage.Enrolling?
  {
    var c := s.connections[i];
    var grant := c.stage.grant;
    var (grants, devices, outcome) :=
      Enrolled(s.grants, s.devices, now, grant, c.hello.id, row.(tokenHash := Hash(c.stage.deviceToken)));
    if !outcome.Created? then SetStage(s, i, Closed)
    else SetStage(s, i, Accepted(c.stage.newToken)).(
      grants := grants, devices := devices, creators := s.creators[c.hello.id := c.hello.from],
      consumed := s.consumed + [Hash(grant)], created := s.created + [c.hello.id],
      everOurs := s.everOurs || c.hello.from.Ours?)
  }

  /** The identity that an acknowledged agent goes on with. */
  function Adopted(me: Identity, given: string): Identity {
    me.(token := if given != "" then given else me.token, pending := false)
  }

  /** A save that worked, seen from outside. */
  function Stored(s: State, next: Identity, synced: bool): State {
    s.(disk := next, fallback := if synced then {} else s.fallback + {s.disk})
  }

  /** run() after the handshake read: adopt the ack, and persist if something changed. */
  function AckStep(s: State, saved: bool, synced: bool): State
    requires s.memory.Some? && s.waiting.Some? && s.waiting.value < |s.connections|
    requires s.connections[s.waiting.value].stage.Accepted?
  {
    var given := s.connections[s.waiting.value].stage.newToken;
    var t := SetStage(s, s.waiting.value, Acked);
    if given != "" && !ValidDeviceToken(given) then t.(waiting := None)
    else if s.memory.value.pending || given != "" then
      var next := Adopted(s.memory.value, given);
      if saved then Stored(t, next, synced).(memory := Some(next), enrollToken := "")
      else t.(memory := Some(next), waiting := None)
    else t
  }

  predicate Stale(grant: Grant, now: int) {
    (grant.usedAt > 0 && grant.usedAt < now - 86400) || grant.expires < now - 86400
  }

  ghost function Step(s: State, e: Event): State {
    if !Enabled(s, e) then s else
    match e
    case ChooseId(id, synced) => Stored(s, s.disk.(id := id), synced)
    case ChooseToken(token, _, synced) => Stored(s, s.disk.(token := token, pending := true), synced)
    case Boot(configured) => s.(memory := Some(s.disk), enrollToken := if s.disk.pending then configured else "", waiting := None)
    case Crash => s.(memory := None, waiting := None)
    case PowerLoss(read) => s.(disk := read, fallback := {}, memory := None, waiting := None)
    case Dial => s.(connections := s.connections + [Connection(OurHello(s), Sent)], waiting := Some(|s.connections|))
    case GiveUp => s.(waiting := None)
    case ReceiveAck(saved, synced) => AckStep(s, saved, synced)
    case Lookup(i, newToken) => SetStage(s, i, Judge(s.devices, s.connections[i].hello, newToken))
    case Enroll(i, now, row) => EnrollStep(s, i, now, row)
    case Restart => s.(connections := seq(|s.connections|, i requires 0 <= i < |s.connections| => s.connections[i].(stage := Closed)))
    case Issue(token, grant) => s.(grants := s.grants[Hash(token) := grant], issued := s.issued + {Hash(token)})
    case CleanGrants(now) => s.(grants := map h | h in s.grants && !Stale(s.grants[h], now) :: s.grants[h])
    case DeleteDevice(id) => s.(devices := s.devices - {id}, creators := s.creators - {id})
    case Import(id, row) => s.(devices := Inserted(s.devices, id, row), creators := s.creators[id := Other])
    case Lose(i) => SetStage(s, i, Closed)
    case OtherHello(hello) => s.(connections := s.connections + [Connection(hello, Sent)])
  }

  /** The state after a run from a fresh agent installation and an empty database. */
  ghost function After(run: seq<Event>): State {
    if run == [] then INITIAL else Step(After(run[..|run| - 1]), run[|run| - 1])
  }

  // ---------------------------------------------------------------- invariant

  /** What no power loss can take away: file, memory and what the file may fall back to share one token. */
  predicate GoodIdentity(s: State) {
    && (s.disk.token != "" ==> ValidDeviceToken(s.disk.token) && s.disk.id != "")
    && (forall v | v in s.fallback && v.token != "" :: v.token == s.disk.token && v.id == s.disk.id)
    && (s.memory.Some? ==>
          && s.memory.value.id == s.disk.id && s.memory.value.token == s.disk.token && s.disk.token != ""
          && (s.memory.value.pending ==> s.disk.pending && ValidEnrollmentToken(s.enrollToken)))
    && (s.waiting.Some? ==> s.memory.Some? && s.waiting.value < |s.connections|
                            && s.connections[s.waiting.value].hello.from.Ours?)
  }

  /** The agent's hellos never carry a legacy token, so that it is never handed a new one. */
  predicate OwnToken(c: Connection) {
    c.hello.from.Ours? ==>
      && ValidDeviceToken(c.hello.token)
      && (c.hello.enrollmentToken != "" ==> ValidEnrollmentToken(c.hello.enrollmentToken))
      && (c.stage.Enrolling? ==> c.stage.deviceToken == c.hello.token && c.stage.newToken == "")
      && (c.stage.Accepted? ==> c.stage.newToken == "")
  }

  predicate OwnTokens(s: State) {
    GoodIdentity(s) && forall i | 0 <= i < |s.connections| :: OwnToken(s.connections[i])
  }

  predicate GoodHistory(s: State) {
    && (s.disk.token == "" ==> !s.everOurs)
    && (s.disk.token != "" && !s.disk.pending ==> s.everOurs)
    && (s.memory.Some? && !s.memory.value.pending ==> s.everOurs)
    && (forall v | v in s.fallback && v.token != "" && !v.pending :: s.everOurs)
  }

  predicate GoodConnection(disk: Identity, everOurs: bool, c: Connection) {
    if c.hello.from.Ours? then
      && disk.token != "" && c.hello.id == disk.id && c.hello.token == disk.token
      && (c.stage.Accepted? ==> everOurs)
    else
      && (disk.token != "" ==> c.hello.token != disk.token)
      && (c.stage.Enrolling? ==> c.stage.deviceToken == c.hello.token || c.stage.deviceToken == c.stage.newToken)
      && (c.stage.Enrolling? && disk.token != "" ==> c.stage.deviceToken != disk.token)
  }

  predicate GoodRows(s: State) {
    && s.creators.Keys == s.devices.Keys
    && (forall id | id in s.devices && s.disk.token != "" ::
          if s.creators[id].Ours? then id == s.disk.id && s.devices[id].tokenHash == Hash(s.disk.token) && s.everOurs
          else s.devices[id].tokenHash != Hash(s.disk.token))
    && (forall id | id in s.devices && s.disk.token == "" :: s.creators[id].Other?)
  }

  predicate Inv(s: State) {
    && OwnTokens(s) && GoodHistory(s) && GoodRows(s)
    && (forall i | 0 <= i < |s.connections| :: GoodConnection(s.disk, s.everOurs, s.connections[i]))
  }

  predicate GoodGrants(s: State) {
    && s.grants.Keys <= s.issued
    && |s.consumed| == |s.created|
    && (forall i | 0 <= i < |s.consumed| ::
          s.consumed[i] in s.issued && (s.consumed[i] in s.grants ==> s.grants[s.consumed[i]].usedAt > 0))
    && (forall i, j | 0 <= i < j < |s.consumed| :: s.consumed[i] != s.consumed[j])
    && (forall h | h in s.grants && s.grants[h].usedAt > 0 :: h in s.consumed)
  }

  lemma OwnTokensAgent(s: State, e: Event)
    requires OwnTokens(s) && Enabled(s, e)
    requires e.ChooseId? || e.ChooseToken? || e.Boot? || e.Crash? || e.PowerLoss? || e.Dial? || e.GiveUp?
    ensures OwnTokens(Step(s, e))
  {}

  lemma OwnTokensAck(s: State, saved: bool, synced: bool)
    requires OwnTokens(s) && Enabled(s, ReceiveAck(saved, synced))
    ensures OwnTokens(AckStep(s, saved, synced))
  {
    assert OwnToken(s.connections[s.waiting.value]);
  }

  lemma OwnTokensLookup(s: State, i: nat, newToken: string)
    requires OwnTokens(s) && Enabled(s, Lookup(i, newToken))
    ensures OwnTokens(Step(s, Lookup(i, newToken)))
  {
    assert OwnToken(s.connections[i]);
  }

  /** Enrolling changes nothing of the agent, and one connection. */
  lemma EnrollLeavesAgent(s: State, i: nat, now: int, row: Row)
    requires i < |s.connections| && s.connections[i].stage.Enrolling?
    ensures var t := EnrollStep(s, i, now, row);
      var c := s.connections[i];
      && (t.disk, t.fallback, t.memory, t.enrollToken, t.waiting) == (s.disk, s.fallback, s.memory, s.enrollToken, s.waiting)
      && (|| t.connections == s.connections[i := c.(stage := Closed)]
          || t.connections == s.connections[i := c.(stage := Accepted(c.stage.newToken))])
  {}

  lemma OwnTokensEnroll(s: State, i: nat, now: int, row: Row)
    requires OwnTokens(s) && Enabled(s, Event.Enroll(i, now, row))
    ensures OwnTokens(EnrollStep(s, i, now, row))
  {
    EnrollLeavesAgent(s, i, now, row);
    var t, c := EnrollStep(s, i, now, row), s.connections[i];
    assert OwnToken(c);
    forall k | 0 <= k < |t.connections|
      ensures OwnToken(t.connections[k])
    {
      if k != i {
        assert t.connections[k] == s.connections[k];
      }
    }
  }

  lemma OwnTokensNetwork(s: State, e: Event)
    requires OwnTokens(s) && Enabled(s, e) && (e.Restart? || e.Lose? || e.OtherHello?)
    ensures OwnTokens(Step(s, e))
  {}

  lemma OwnTokensDatabase(s: State, e: Event)
    requires OwnTokens(s) && Enabled(s, e) && (e.Issue? || e.CleanGrants? || e.DeleteDevice? || e.Import?)
    ensures OwnTokens(Step(s, e))
  {}

  lemma OwnTokensStep(s: State, e: Event)
    requires OwnTokens(s)
    ensures OwnTokens(Step(s, e))
  {
    if Enabled(s, e) {
      if e.Lookup? {
        OwnTokensLookup(s, e.i, e.newToken);
      } else if e.Enroll? {
        OwnTokensEnroll(s, e.i, e.now, e.row);
      } else if e.ReceiveAck? {
        OwnTokensAck(s, e.saved, e.synced);
      } else if e.Restart? || e.Lose? || e.OtherHello? {
        OwnTokensNetwork(s, e);
      } else if e.Issue? || e.CleanGrants? || e.DeleteDevice? || e.Import? {
        OwnTokensDatabase(s, e);
      } else {
        OwnTokensAgent(s, e);
      }
    }
  }

  lemma {:induction false} OwnTokensRun(run: seq<Event>)
    ensures OwnTokens(After(run))
  {
    if run != [] {
      OwnTokensRun(run[..|run| - 1]);
      OwnTokensStep(After(run[..|run| - 1]), run[|run| - 1]);
    }
  }

  lemma InvLookup(s: State, i: nat, newToken: string)
    requires Inv(s) && Enabled(s, Lookup(i, newToken))
    ensures var t := Step(s, Lookup(i, newToken));
      GoodHistory(t) && GoodRows(t) && forall k | 0 <= k < |t.connections| :: GoodConnection(t.disk, t.everOurs, t.connections[k])
  {
    assert OwnToken(s.connections[i]) && GoodConnection(s.disk, s.everOurs, s.connections[i]);
  }

  lemma InvEnrollRefused(s: State, i: nat, now: int, row: Row)
    requires Inv(s) && Enabled(s, Event.Enroll(i, now, row))
    requires EnrollStep(s, i, now, row) == SetStage(s, i, Closed)
    ensures var t := SetStage(s, i, Closed);
      GoodHistory(t) && GoodRows(t) && forall k | 0 <= k < |t.connections| :: GoodConnection(t.disk, t.everOurs, t.connections[k])
  {
    assert GoodConnection(s.disk, s.everOurs, s.connections[i]);
  }

  lemma InvEnrollCreated(s: State, i: nat, now: int, row: Row)
    requires Inv(s) && Enabled(s, Event.Enroll(i, now, row))
    requires EnrollStep(s, i, now, row) != SetStage(s, i, Closed)
    ensures var t := EnrollStep(s, i, now, row); GoodRows(t) && GoodHistory(t)
  {
    var c := s.connections[i];
    assert OwnToken(c) && GoodConnection(s.disk, s.everOurs, c);
    var t := EnrollStep(s, i, now, row);
    assert t.devices.Keys == s.devices.Keys + {c.hello.id};
    assert t.devices[c.hello.id].tokenHash == Hash(c.stage.deviceToken);
  }

  lemma InvEnrollConnections(s: State, i: nat, now: int, row: Row)
    requires Inv(s) && Enabled(s, Event.Enroll(i, now, row))
    ensures var t := EnrollStep(s, i, now, row);
      forall k | 0 <= k < |t.connections| :: GoodConnection(t.disk, t.everOurs, t.connections[k])
  {
    assert GoodConnection(s.disk, s.everOurs, s.connections[i]);
  }

  lemma InvEnroll(s: State, i: nat, now: int, row: Row)
    requires Inv(s) && Enabled(s, Event.Enroll(i, now, row))
    ensures var t := EnrollStep(s, i, now, row);
      GoodHistory(t) && GoodRows(t) && forall k | 0 <= k < |t.connections| :: GoodConnection(t.disk, t.everOurs, t.connections[k])
  {
    if EnrollStep(s, i, now, row) == SetStage(s, i, Closed) {
      InvEnrollRefused(s, i, now, row);
    } else {
      InvEnrollCreated(s, i, now, row);
      InvEnrollConnections(s, i, now, row);
    }
  }

  lemma InvAgent(s: State, e: Event)
    requires Inv(s) && Enabled(s, e)
    requires e.ChooseId? || e.Boot? || e.Crash? || e.GiveUp?
    ensures Inv(Step(s, e))
  {
    OwnTokensAgent(s, e);
  }

  lemma InvDial(s: State)
    requires Inv(s) && Enabled(s, Dial)
    ensures Inv(Step(s, Dial))
  {
    OwnTokensAgent(s, Dial);
  }

  lemma InvAck(s: State, saved: bool, synced: bool)
    requires Inv(s) && Enabled(s, ReceiveAck(saved, synced))
    ensures Inv(AckStep(s, saved, synced))
  {
    OwnTokensAck(s, saved, synced);
    assert OwnToken(s.connections[s.waiting.value]);
    assert GoodConnection(s.disk, s.everOurs, s.connections[s.waiting.value]);
  }

  lemma InvChooseToken(s: State, e: Event)
    requires Inv(s) && Enabled(s, e) && e.ChooseToken?
    ensures Inv(Step(s, e))
  {
    OwnTokensAgent(s, e);
  }

  lemma InvPowerLoss(s: State, e: Event)
    requires Inv(s) && Enabled(s, e) && e.PowerLoss? && e.read.token == s.disk.token
    ensures Inv(Step(s, e))
  {
    OwnTokensAgent(s, e);
  }

  lemma InvDatabase(s: State, e: Event)
    requires Inv(s) && Enabled(s, e) && (e.Issue? || e.CleanGrants? || e.DeleteDevice? || e.Import?)
    ensures Inv(Step(s, e))
  {
    OwnTokensDatabase(s, e);
  }

  lemma InvLost(s: State, e: Event)
    requires Inv(s) && Enabled(s, e) && (e.Restart? || e.Lose?)
    ensures Inv(Step(s, e))
  {
    OwnTokensNetwork(s, e);
  }

  lemma InvOtherHello(s: State, e: Event)
    requires Inv(s) && Enabled(s, e) && e.OtherHello?
    ensures Inv(Step(s, e))
  {
    OwnTokensNetwork(s, e);
  }

  /** No power loss takes a device token off the file. */
  predicate KeepsToken(s: State, e: Event) {
    e.PowerLoss? && Enabled(s, e) ==> e.read.token == s.disk.token
  }

  ghost predicate Kept(run: seq<Event>) {
    run != [] ==> Kept(run[..|run| - 1]) && KeepsToken(After(run[..|run| - 1]), run[|run| - 1])
  }

  lemma InvStep(s: State, e: Event)
    requires Inv(s) && KeepsToken(s, e)
    ensures Inv(Step(s, e))
  {
    if Enabled(s, e) {
      match e
      case Lookup(i, newToken) => InvLookup(s, i, newToken); OwnTokensLookup(s, i, newToken);
      case Enroll(i, now, row) => InvEnroll(s, i, now, row); OwnTokensEnroll(s, i, now, row);
      case Issue(_, _) => InvDatabase(s, e);
      case CleanGrants(_) => InvDatabase(s, e);
      case DeleteDevice(_) => InvDatabase(s, e);
      case Import(_, _) => InvDatabase(s, e);
      case Restart => InvLost(s, e);
      case Lose(_) => InvLost(s, e);
      case OtherHello(_) => InvOtherHello(s, e);
      case ChooseToken(_, _, _) => InvChooseToken(s, e);
      case PowerLoss(_) => InvPowerLoss(s, e);
      case Dial => InvDial(s);
      case ReceiveAck(saved, synced) => InvAck(s, saved, synced);
      case _ => InvAgent(s, e);
    }
  }

  lemma {:induction false} InvRun(run: seq<Event>)
    requires Kept(run)
    ensures Inv(After(run))
  {
    if run != [] {
      InvRun(run[..|run| - 1]);
      InvStep(After(run[..|run| - 1]), run[|run| - 1]);
    }
  }

  lemma GrantsEnroll(s: State, i: nat, now: int, row: Row)
    requires GoodGrants(s) && Enabled(s, Event.Enroll(i, now, row))
    ensures GoodGrants(EnrollStep(s, i, now, row))
  {
    var c := s.connections[i];
    var t := EnrollStep(s, i, now, row);
    if t.consumed != s.consumed {
      assert Hash(c.stage.grant) !in s.consumed;
    }
  }

  lemma {:induction false} GrantsRun(run: seq<Event>)
    ensures GoodGrants(After(run))
  {
    if run != [] {
      var before, e := After(run[..|run| - 1]), run[|run| - 1];
      GrantsRun(run[..|run| - 1]);
      if !Enabled(before, e) {
        assert After(run) == before;
      } else if e.Enroll? {
        GrantsEnroll(before, e.i, e.now, e.row);
      } else {
        OthersKeepGrants(before, e);
      }
    }
  }

  lemma OthersKeepGrants(s: State, e: Event)
    requires GoodGrants(s) && !e.Enroll?
    ensures GoodGrants(Step(s, e))
  {
    if !(e.Issue? || e.CleanGrants? || e.DeleteDevice? || e.Import?) {
      OthersLeaveTables(s, e);
    }
  }

  // -------------------------------------------------------------- main results

  predicate CreatedByUs(s: State) {
    s.disk.id in s.devices && s.disk.id in s.creators && s.creators[s.disk.id].Ours?
  }

  /** A row this agent's enrolment created always carries the hash of the token in its state file. */
  lemma {:induction false} RowMatchesStateFile(run: seq<Event>, id: string)
    requires Kept(run) && id in After(run).devices
    ensures var s := After(run);
      id in s.creators
      && (s.creators[id].Ours? ==> id == s.disk.id && s.devices[id].tokenHash == Hash(s.disk.token))
  {
    InvRun(run);
  }

  /** Nothing that the file may read as after a power loss lacks the token. */
  predicate Secured(s: State) { forall v | v in s.fallback :: v.token != "" }

  lemma StepKeepsToken(s: State, e: Event)
    requires OwnTokens(s) && s.disk.token != "" && Secured(s)
    ensures var t := Step(s, e); t.disk.token == s.disk.token && t.disk.id == s.disk.id && Secured(t)
  {
    if e.ReceiveAck? && Enabled(s, e) {
      assert OwnToken(s.connections[s.waiting.value]);
    }
  }

  lemma AfterSnoc(run: seq<Event>, more: seq<Event>)
    requires more != []
    ensures After(run + more) == Step(After(run + more[..|more| - 1]), more[|more| - 1])
  {
    assert (run + more)[..|run + more| - 1] == run + more[..|more| - 1];
  }

  /** The token in the state file is chosen once: no later event, no ack in particular, replaces it. */
  lemma {:induction false} TokenIsNeverReplaced(run: seq<Event>, more: seq<Event>)
    requires After(run).disk.token != "" && Secured(After(run))
    ensures After(run + more).disk.token == After(run).disk.token && After(run + more).disk.id == After(run).disk.id
    ensures Secured(After(run + more))
  {
    if more == [] {
      assert run + more == run;
    } else {
      var before := more[..|more| - 1];
      TokenIsNeverReplaced(run, before);
      OwnTokensRun(run + before);
      AfterSnoc(run, more);
      StepKeepsToken(After(run + before), more[|more| - 1]);
    }
  }

  /**
   When a token on file is there for good: exactly when nothing without a token can come back, for which it
   is enough that the directory was synced when the token was saved, or later.
   */
  lemma {:induction false} TokenSurvivesExactly(run: seq<Event>)
    requires After(run).disk.token != ""
    ensures Secured(After(run)) <==> forall more :: After(run + more).disk.token == After(run).disk.token
    ensures var before, e := After(run[..|run| - 1]), run[|run| - 1];
      e.ChooseToken? && e.synced && Enabled(before, e) ==> Secured(After(run))
  {
    var s := After(run);
    if Secured(s) {
      forall more
        ensures After(run + more).disk.token == s.disk.token
      {
        TokenIsNeverReplaced(run, more);
      }
    } else {
      var v :| v in s.fallback && v.token == "";
      var more := [PowerLoss(v)];
      assert (run + more)[..|run + more| - 1] == run;
      assert After(run + more).disk.token == "";
    }
  }

  lemma SyncedStep(s: State, e: Event)
    requires OwnTokens(s) && (s.disk.token != "" ==> Secured(s)) && (e.ChooseToken? ==> e.synced)
    ensures KeepsToken(s, e) && (Step(s, e).disk.token != "" ==> Secured(Step(s, e)))
  {
    if s.disk.token != "" {
      StepKeepsToken(s, e);
    }
  }

  /** If every directory sync after drawing a token works, no power loss takes it off the file. */
  lemma {:induction false} SyncedRunsAreKept(run: seq<Event>)
    requires forall i | 0 <= i < |run| && run[i].ChooseToken? :: run[i].synced
    ensures Kept(run) && (After(run).disk.token != "" ==> Secured(After(run)))
  {
    if run != [] {
      var before, e := run[..|run| - 1], run[|run| - 1];
      SyncedRunsAreKept(before);
      OwnTokensRun(before);
      SyncedStep(After(before), e);
    }
  }

  /**
   The row that enrollment created matches after a power loss exactly when the token is still on file; if
   the id is there without it, every hello with a token drawn anew is turned away as long as the row exists.
   */
  lemma PowerLossKeepsRowExactly(run: seq<Event>, read: Identity, newToken: string, enrollmentToken: string, other: string)
    requires Kept(run) && CreatedByUs(After(run)) && Enabled(After(run), PowerLoss(read))
    ensures var s := After(run);
      var t := Step(s, PowerLoss(read));
      && (s.devices[s.disk.id].tokenHash == Hash(t.disk.token) <==> read.token != "")
      && (read.token != "" ==> t.disk.id == s.disk.id)
      && (read.token == "" && newToken != s.disk.token ==>
            Judge(t.devices, Hello(s.disk.id, newToken, enrollmentToken, Ours), other) == Closed)
  {
    InvRun(run);
  }

  lemma AfterOne(run: seq<Event>, e: Event)
    ensures After(run + [e]) == Step(After(run), e)
  {
    assert (run + [e])[..|run|] == run;
  }

  /**
   A run that loses the token: the directory sync fails after the token has been drawn, the agent enrolls,
   and the power goes. The row has the hash of a token that the state file no longer holds.
   */
  lemma {:induction false} TokenMayBeLost(id: string, token: string, grant: string, other: string, row: Row) returns (run: seq<Event>)
    requires id != "" && ValidDeviceToken(token) && ValidEnrollmentToken(grant)
    requires ValidDeviceToken(other) && other != token
    ensures var s := After(run);
      && id in s.devices && id in s.creators && s.creators[id].Ours?
      && s.disk.id == id && s.devices[id].tokenHash != Hash(s.disk.token)
  {
    var hello := Hello(id, token, grant, Ours);
    var me := Identity(id, token, true);
    run := UpToDial(id, token, grant);
    AfterOne(run, Lookup(0, other));
    run := run + [Lookup(0, other)];
    assert After(run).connections == [Connection(hello, Enrolling(grant, token, ""))];
    AfterOne(run, Event.Enroll(0, 1, row));
    run := run + [Event.Enroll(0, 1, row)];
    assert After(run).disk == me && id in After(run).devices;
    AfterOne(run, PowerLoss(Identity(id, "", false)));
    run := run + [PowerLoss(Identity(id, "", false))];
  }

  /** The agent has drawn its token, the directory has not been synced since, and its first hello is on its way. */
  lemma {:induction false} UpToDial(id: string, token: string, grant: string) returns (run: seq<Event>)
    requires id != "" && ValidDeviceToken(token) && ValidEnrollmentToken(grant)
    ensures var s := After(run);
      && s.disk == Identity(id, token, true) && s.fallback == {Identity(id, "", false)}
      && s.connections == [Connection(Hello(id, token, grant, Ours), Sent)] && s.memory == Some(s.disk) && s.waiting == Some(0)
      && s.devices == map[] && s.grants == map[Hash(grant) := Grant("", 1, 0)] && s.creators == map[]
  {
    run := [];
    AfterOne(run, ChooseId(id, true));
    run := run + [ChooseId(id, true)];
    AfterOne(run, ChooseToken(token, grant, false));
    run := run + [ChooseToken(token, grant, false)];
    assert After(run) == INITIAL.(disk := Identity(id, token, true), fallback := {Identity(id, "", false)});
    AfterOne(run, Boot(grant));
    run := run + [Boot(grant)];
    AfterOne(run, Issue(grant, Grant("", 1, 0)));
    run := run + [Issue(grant, Grant("", 1, 0))];
    AfterOne(run, Dial);
    run := run + [Dial];
  }

  /** Whatever hello of this agent the server looks at, once its row exists it is accepted as it stands. */
  lemma OurHellosAreAccepted(s: State, hello: Hello, newToken: string)
    requires Inv(s) && CreatedByUs(s)
    requires (exists i :: 0 <= i < |s.connections| && s.connections[i].hello == hello && hello.from.Ours?)
             || (s.memory.Some? && hello == OurHello(s))
    ensures Judge(s.devices, hello, newToken) == Accepted("")
  {
    if i :| 0 <= i < |s.connections| && s.connections[i].hello == hello && hello.from.Ours? {
      assert OwnToken(s.connections[i]);
      assert GoodConnection(s.disk, s.everOurs, s.connections[i]);
    }
  }

  /** An ack that arrives and can be saved ends the pending state and changes neither token nor tables. */
  lemma AckEndsPending(s: State, synced: bool)
    requires Inv(s) && Enabled(s, ReceiveAck(true, synced))
    ensures var t := Step(s, ReceiveAck(true, synced));
      && t.memory.Some? && !t.memory.value.pending && (s.memory.value.pending ==> !t.disk.pending)
      && t.disk.token == s.disk.token && t.memory.value.token == s.disk.token
      && t.devices == s.devices && t.grants == s.grants
  {
    assert OwnToken(s.connections[s.waiting.value]);
  }

  /**
   Lost-ack recovery: whatever was lost or restarted before, as long as the row that the agent's enrollment
   created is there, the server accepts every hello of the agent that is on its way or would be sent now,
   whether or not the agent still believes itself pending and whatever has become of its enrollment token;
   whenever an acceptance reaches the waiting agent and can be saved, the agent is no longer pending and
   its token is the same; and an idle agent gets there by dialling.
   */
  lemma {:induction false} LostAckRecovers(run: seq<Event>, newToken: string, synced: bool)
    requires Kept(run) && CreatedByUs(After(run)) && ValidDeviceToken(newToken) && Fresh(After(run), newToken)
    ensures var s := After(run);
      && (forall i, other | 0 <= i < |s.connections| && s.connections[i].hello.from.Ours? ::
            Judge(s.devices, s.connections[i].hello, other) == Accepted(""))
      && (s.memory.Some? ==> forall other :: Judge(s.devices, OurHello(s), other) == Accepted(""))
      && (Enabled(s, ReceiveAck(true, synced)) ==>
            var t := Step(s, ReceiveAck(true, synced));
            && t.memory.Some? && !t.memory.value.pending && (s.memory.value.pending ==> !t.disk.pending)
            && t.disk.token == s.disk.token && t.devices == s.devices && t.grants == s.grants)
      && (s.memory.Some? && s.waiting.None? ==>
            var t := Step(Step(Step(s, Dial), Lookup(|s.connections|, newToken)), ReceiveAck(true, synced));
            && t.memory.Some? && !t.memory.value.pending && (s.memory.value.pending ==> !t.disk.pending)
            && t.disk.token == s.disk.token && t.devices == s.devices && t.grants == s.grants)
  {
    var s := After(run);
    InvRun(run);
    forall i, other | 0 <= i < |s.connections| && s.connections[i].hello.from.Ours?
      ensures Judge(s.devices, s.connections[i].hello, other) == Accepted("")
    {
      OurHellosAreAccepted(s, s.connections[i].hello, other);
    }
    forall other | s.memory.Some?
      ensures Judge(s.devices, OurHello(s), other) == Accepted("")
    {
      OurHellosAreAccepted(s, OurHello(s), other);
    }
    if Enabled(s, ReceiveAck(true, synced)) {
      AckEndsPending(s, synced);
    }
    if s.memory.Some? && s.waiting.None? {
      Redial(s, newToken, synced);
    }
  }

  lemma Redial(s: State, newToken: string, synced: bool)
    requires GoodIdentity(s) && GoodRows(s) && s.memory.Some? && s.waiting.None? && CreatedByUs(s)
    requires ValidDeviceToken(newToken) && Fresh(s, newToken)
    ensures Judge(s.devices, OurHello(s), newToken) == Accepted("")
    ensures var t := Step(Step(Step(s, Dial), Lookup(|s.connections|, newToken)), ReceiveAck(true, synced));
      && t.memory.Some? && !t.memory.value.pending && (s.memory.value.pending ==> !t.disk.pending)
      && t.disk.token == s.disk.token && t.devices == s.devices && t.grants == s.grants
  {
    var a := Step(s, Dial);
    var n := |s.connections|;
    assert Enabled(a, Lookup(n, newToken));
    var b := Step(a, Lookup(n, newToken));
    assert b == a.(connections := a.connections[n := Connection(OurHello(s), Accepted(""))]);
    assert Enabled(b, ReceiveAck(true, synced));
  }

  /** An agent stops being pending only after the server really created its row. */
  lemma {:induction false} NotPendingMeansEnrolled(run: seq<Event>)
    requires Kept(run) && After(run).disk.token != "" && !After(run).disk.pending
    ensures After(run).everOurs
    ensures exists k | 0 <= k <= |run| :: CreatedByUs(After(run[..k]))
  {
    InvRun(run);
    EverOursHappened(run);
  }

  lemma {:induction false} EverOursHappened(run: seq<Event>)
    requires Kept(run) && After(run).everOurs
    ensures exists k | 0 <= k <= |run| :: CreatedByUs(After(run[..k]))
  {
    var before := run[..|run| - 1];
    if After(before).everOurs {
      EverOursHappened(before);
      var k :| 0 <= k <= |before| && CreatedByUs(After(before[..k]));
      assert before[..k] == run[..k];
    } else {
      InvRun(before);
      EnrolledJustNow(After(before), run[|run| - 1]);
      assert run[..|run|] == run;
    }
  }

  lemma EnrolledJustNow(s: State, e: Event)
    requires Inv(s) && !s.everOurs && Step(s, e).everOurs
    ensures CreatedByUs(Step(s, e))
  {
    assert e.Enroll?;
    assert GoodConnection(s.disk, s.everOurs, s.connections[e.i]);
  }

  /** The enrollment tokens that a step marks as used in the table. */
  function Marked(s: State, t: State): set<Hash> {
    set h | h in t.grants && t.grants[h].usedAt > 0 && !(h in s.grants && s.grants[h].usedAt > 0)
  }

  /** The device rows that a step adds to the table. */
  function Added(s: State, t: State): set<string> { t.devices.Keys - s.devices.Keys }

  /** Tokens marked as used over the run, read off the table by any event. */
  ghost function TokensMarked(run: seq<Event>): nat {
    if run == [] then 0
    else
      var s := After(run[..|run| - 1]);
      TokensMarked(run[..|run| - 1]) + |Marked(s, Step(s, run[|run| - 1]))|
  }

  /** Rows added over the run, read off the table, by any event but the import of an older database. */
  ghost function RowsAdded(run: seq<Event>): nat {
    if run == [] then 0
    else
      var s := After(run[..|run| - 1]);
      RowsAdded(run[..|run| - 1]) + if run[|run| - 1].Import? then 0 else |Added(s, Step(s, run[|run| - 1]))|
  }

  /** Enrollment marks a token exactly when it adds a row, and then one of each. */
  lemma EnrollMarksAndAdds(s: State, i: nat, now: int, row: Row)
    requires GoodGrants(s) && Enabled(s, Event.Enroll(i, now, row))
    ensures var t := EnrollStep(s, i, now, row);
      |Marked(s, t)| == |Added(s, t)| == |t.consumed| - |s.consumed|
  {
    var t := EnrollStep(s, i, now, row);
    var c := s.connections[i];
    if t.consumed == s.consumed {
      assert t.grants == s.grants && t.devices == s.devices;
      MarksNothing(s, t);
    } else {
      var grant := Hash(c.stage.grant);
      MarksOne(s, t, grant, c.hello.id, now);
    }
  }

  lemma MarksOne(s: State, t: State, grant: Hash, id: string, now: int)
    requires grant in s.grants && s.grants[grant].usedAt == 0 && now > 0
    requires t.grants == s.grants[grant := s.grants[grant].(usedAt := now)]
    requires id !in s.devices && t.devices.Keys == s.devices.Keys + {id}
    ensures |Marked(s, t)| == |Added(s, t)| == 1
  {
    assert Marked(s, t) == {grant};
    assert Added(s, t) == {id};
  }

  /** A step after which every row was there before, and every used token used before. */
  lemma MarksNothing(s: State, t: State)
    requires forall h | h in t.grants :: t.grants[h].usedAt <= 0 || (h in s.grants && t.grants[h] == s.grants[h])
    requires t.devices.Keys <= s.devices.Keys
    ensures |Marked(s, t)| == |Added(s, t)| == 0
  {
    assert Marked(s, t) == {} && Added(s, t) == {};
  }

  predicate SameTables(s: State, t: State) {
    && t.grants == s.grants && t.devices == s.devices && t.consumed == s.consumed
    && t.created == s.created && t.issued == s.issued
  }

  lemma AckLeavesTables(s: State, saved: bool, synced: bool)
    requires Enabled(s, ReceiveAck(saved, synced))
    ensures SameTables(s, AckStep(s, saved, synced))
  {}

  lemma StartLeavesTables(s: State, e: Event)
    requires Enabled(s, e) && (e.ChooseId? || e.ChooseToken? || e.Boot?)
    ensures SameTables(s, Step(s, e))
  {}

  lemma AgentLeavesTables(s: State, e: Event)
    requires Enabled(s, e) && (e.Crash? || e.PowerLoss? || e.Dial? || e.GiveUp?)
    ensures SameTables(s, Step(s, e))
  {}

  lemma NetworkLeavesTables(s: State, e: Event)
    requires Enabled(s, e) && (e.Lookup? || e.Restart? || e.Lose? || e.OtherHello?)
    ensures SameTables(s, Step(s, e))
  {}

  /** Only the transaction, the administrator and the clean-up touch the tables. */
  lemma OthersLeaveTables(s: State, e: Event)
    requires !e.Enroll? && !e.Issue? && !e.CleanGrants? && !e.DeleteDevice? && !e.Import?
    ensures SameTables(s, Step(s, e))
  {
    if Enabled(s, e) {
      if e.Lookup? || e.Restart? || e.Lose? || e.OtherHello? {
        NetworkLeavesTables(s, e);
      } else if e.ReceiveAck? {
        AckLeavesTables(s, e.saved, e.synced);
      } else if e.ChooseId? || e.ChooseToken? || e.Boot? {
        StartLeavesTables(s, e);
      } else {
        AgentLeavesTables(s, e);
      }
    }
  }

  lemma OthersMarkNothing(s: State, e: Event)
    requires GoodGrants(s) && !e.Enroll?
    ensures var t := Step(s, e);
      |Marked(s, t)| == 0 && (!e.Import? ==> |Added(s, t)| == 0) && t.consumed == s.consumed
  {
    var t := Step(s, e);
    if e.Import? {
      assert Marked(s, t) == {};
    } else {
      if !(e.Issue? || e.CleanGrants? || e.DeleteDevice?) {
        OthersLeaveTables(s, e);
      }
      MarksNothing(s, t);
    }
  }

  /**
   Conservation: over any interleaving of hellos for any ids and tokens, the table has marked exactly as
   many tokens as used as enrollment has added rows to the other; no token is used twice; and the tokens
   marked in the table are the used ones that are still in it.
   */
  lemma {:induction false} EnrollmentIsConserved(run: seq<Event>)
    ensures TokensMarked(run) == RowsAdded(run) == |After(run).consumed|
    ensures var s := After(run);
      && (forall i, j | 0 <= i < j < |s.consumed| :: s.consumed[i] != s.consumed[j])
      && (forall h | h in s.grants :: s.grants[h].usedAt > 0 <==> h in s.consumed)
  {
    GrantsRun(run);
    var s := After(run);
    forall h | h in s.consumed && h in s.grants
      ensures s.grants[h].usedAt > 0
    {
      var i :| 0 <= i < |s.consumed| && s.consumed[i] == h;
    }
    if run != [] {
      var before := run[..|run| - 1];
      var e := run[|run| - 1];
      GrantsRun(before);
      EnrollmentIsConserved(before);
      if e.Enroll? && Enabled(After(before), e) {
        EnrollMarksAndAdds(After(before), e.i, e.now, e.row);
      } else if e.Enroll? {
        MarksNothing(s, s);
      } else {
        OthersMarkNothing(After(before), e);
      }
    }
  }

  /** One transaction: either a usable token is used up and exactly one row appears, or nothing changes at all. */
  lemma EnrollIsAtomic(grants: map<Hash, Grant>, devices: Table, now: int, token: string, id: string, row: Row)
    requires now > 0
    ensures var (g, d, outcome) := Enrolled(grants, devices, now, token, id, row);
      && (outcome.Created? <==> Usable(grants, token, now) && id != "" && id !in devices)
      && (outcome.Created? ==>
            && !Usable(g, token, now) && g.Keys == grants.Keys && d.Keys == devices.Keys + {id}
            && d[id].tokenHash == row.tokenHash
            && (DeviceOrder.Sound(devices) ==> DeviceOrder.Sound(d) && List(d) == List(devices) + [id]))
      && (!outcome.Created? ==> g == grants && d == devices)
  {
    var (g, d, outcome) := Enrolled(grants, devices, now, token, id, row);
    if outcome.Created? && DeviceOrder.Sound(devices) {
      var title := grants[Hash(token)].title;
      InsertAppends(devices, id, if title == "" then row else row.(name := title));
    }
  }

  // ------------------------------------------------------------- the agent itself

  /** validateAgentState */
  predicate ValidIdentity(v: Identity) {
    && (v.id != "" ==> ValidDeviceId(v.id))
    && (v.token != "" ==> ValidDeviceToken(v.token))
    && (v.pending ==> v.token != "")
  }

  const NOBODY := Identity("", "", false)

  /** What loadOrCreateState starts from; None if the file does not decode to a valid identity. */
  function Loaded(x: Option<Content<Identity>>): Option<Identity> {
    if x.None? then Some(NOBODY)
    else if x.value.Whole? && ValidIdentity(x.value.value) then Some(x.value.value)
    else None
  }

  function WithId(v: Identity, id: string): Identity { if v.id == "" then v.(id := id) else v }

  /** The identity that a first start ends up with, and a later one keeps. */
  function Bootstrapped(v: Identity, id: string, token: string): Identity {
    var w := WithId(v, id);
    if w.token == "" then w.(token := token, pending := true) else w
  }

  /** The enrollment token a started agent has at hand. */
  function AtHand(v: Identity, configured: string): string { if v.pending then configured else "" }

  /** In the machine, bootstrap is the three events ChooseId, ChooseToken and Boot. */
  lemma BootstrapEvents(s: State, id: string, token: string, configured: string, first: bool, second: bool)
    requires s.memory.None? && id != "" && ValidDeviceToken(token) && Fresh(s, token)
    requires Bootstrapped(s.disk, id, token).pending ==> ValidEnrollmentToken(configured)
    ensures var t := Step(Step(Step(s, ChooseId(id, first)), ChooseToken(token, configured, second)), Boot(configured));
      && t.disk == Bootstrapped(s.disk, id, token) && t.memory == Some(t.disk)
      && t.enrollToken == AtHand(t.disk, configured)
      && (s.disk.token == "" ==> (Secured(t) <==> second))
  {
    var a := Step(s, ChooseId(id, first));
    assert a.disk == WithId(s.disk, id) && a == s.(disk := a.disk, fallback := a.fallback);
    assert Fresh(a, token);
    var b := Step(a, ChooseToken(token, configured, second));
    if s.disk.token == "" {
      assert b == Stored(a, Bootstrapped(s.disk, id, token), second);
    } else {
      assert b == a;
    }
  }

  /** The agent's state, its state file and the configured enrollment token. */
  class AgentIdentity {
    const cell: StateFile<Identity>
    var state: Identity
    var enrollToken: string

    ghost predicate Valid()
      reads this, cell
    {
      Settled(cell.dir) && ValidIdentity(state)
    }

    constructor (cell: StateFile<Identity>, configured: string)
      requires Settled(cell.dir)
      ensures Valid() && this.cell == cell && state == NOBODY && enrollToken == configured
    {
      this.cell, state, enrollToken := cell, NOBODY, configured;
    }

    /**
     main's bootstrap: `id` and `token` are freshly drawn. A token on file is never replaced, no token is
     drawn without an enrollment token to send along with it, and whenever the start is cut short the file
     holds what it held, that with an id, or the whole new identity.
     */
    method Bootstrap(id: string, token: string, first: SaveIo, second: SaveIo) returns (ok: bool)
      requires Valid() && ValidDeviceId(id) && ValidDeviceToken(token)
      modifies this, cell
      ensures Valid() && old(cell.seen) <= cell.seen
      ensures var v := Loaded(Read(old(cell.dir)));
        if v.None? then !ok && cell.dir == old(cell.dir) && cell.seen == old(cell.seen)
        else
          && (ok <==>
                && (v.value.id == "" ==> Works(first))
                && (v.value.token == "" ==> Works(second))
                && (Bootstrapped(v.value, id, token).pending ==> ValidEnrollmentToken(old(enrollToken))))
          && (ok ==>
                && state == Bootstrapped(v.value, id, token) && Loaded(Read(cell.dir)) == Some(state)
                && enrollToken == AtHand(state, old(enrollToken))
                && (v.value.token == "" && second.dirSynced ==> forall x :: MayRead(cell.dir, x) <==> x == Some(Whole(state))))
          && (Read(cell.dir) != Read(old(cell.dir)) ==>
                Read(cell.dir) in {Some(Whole(WithId(v.value, id))), Some(Whole(Bootstrapped(v.value, id, token)))})
          && (v.value.token == "" && !ValidEnrollmentToken(old(enrollToken)) ==>
                Loaded(Read(cell.dir)).Some? && Loaded(Read(cell.dir)).value.token == "")
          && (forall i | |old(cell.seen)| <= i < |cell.seen| ::
                Read(cell.seen[i]) in {Read(old(cell.dir)), Some(Whole(WithId(v.value, id))), Some(Whole(Bootstrapped(v.value, id, token)))})
    {
      var loaded := Loaded(Read(cell.dir));
      if loaded.None? {
        return false;
      }
      state := loaded.value;
      if state.id == "" {
        state := state.(id := id);
        var saved := cell.Save(state, first);
        if !saved {
          return false;
        }
      }
      if state.token == "" {
        if !ValidEnrollmentToken(enrollToken) {
          return false;
        }
        state := state.(token := token, pending := true);
        var saved := cell.Save(state, second);
        if !saved {
          return false;
        }
      }
      if state.pending && !ValidEnrollmentToken(enrollToken) {
        return false;
      }
      if !state.pending {
        enrollToken := "";
      }
      return true;
    }

    /** What run() does with the device token of hello_ack. */
    method ReceiveAck(given: string, io: SaveIo) returns (ok: bool)
      requires Valid()
      modifies this, cell
      ensures Valid()
      ensures var changes := old(state).pending || given != "";
        var accepted := given == "" || ValidDeviceToken(given);
        && ok == (accepted && (changes ==> Works(io)))
        && state == (if accepted && changes then Adopted(old(state), given) else old(state))
        && Read(cell.dir) == (if accepted && changes && Works(io) then Some(Whole(state)) else Read(old(cell.dir)))
        && enrollToken == (if accepted && changes && Works(io) then "" else old(enrollToken))
      ensures forall i | |old(cell.seen)| <= i < |cell.seen| ::
        Read(cell.seen[i]) in {Read(old(cell.dir)), Some(Whole(Adopted(old(state), given)))}
    {
      if given != "" && !ValidDeviceToken(given) {
        return false;
      }
      if state.pending || given != "" {
        if given != "" {
          state := state.(token := given);
        }
        state := state.(pending := false);
        var saved := cell.Save(state, io);
        if !saved {
          return false;
        }
        enrollToken := "";
      }
      return true;
    }
  }

  // ------------------------------------------------------------- the store itself

  /** EnrollDevice in place: a transaction on two tables, rolled back on every error. */
  class EnrollmentStore {
    const table: DeviceStore
    var grants: map<Hash, Grant>

    constructor (table: DeviceStore)
      ensures grants == map[] && this.table == table
    {
      this.table := table;
      grants := map[];
    }

    /** The flags say which database calls succeed; a transaction that is not committed is rolled back. */
    method EnrollDevice(now: int, token: string, id: string, row: Row, begun: bool, updated: bool, inserted: bool, committed: bool)
      returns (outcome: Outcome)
      modifies this, table
      ensures var works := begun && updated && (Usable(old(grants), token, now) ==> inserted && committed);
        if works || id == ""
        then (grants, table.devices, outcome) == Enrolled(old(grants), old(table.devices), now, token, id, row)
        else outcome == Failed && grants == old(grants) && table.devices == old(table.devices)
    {
      if id == "" || !begun {
        return Failed;
      }
      var saved, savedDevices := grants, table.devices;
      if !updated {
        return Failed;
      }
      if !Usable(grants, token, now) {
        return Denied;
      }
      var title := grants[Hash(token)].title;
      grants := grants[Hash(token) := grants[Hash(token)].(usedAt := now)];
      var stored := false;
      if inserted {
        stored := table.Insert(id, if title == "" then row else row.(name := title));
      }
      if !stored || !committed {
        grants := saved;
        table.devices := savedDevices;
        return Failed;
      }
      return Created;
    }
  }
}
