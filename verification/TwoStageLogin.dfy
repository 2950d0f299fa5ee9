/**
 Both login stages (internal/server/auth.go:36-189, 212-294, 462-525 and
 internal/server/store.go:587-670). A step of the machine is one critical section of authMu, one SQL
 transaction, or what one request computes in between, so a run is an arbitrary interleaving of any
 number of requests with lockouts, expiry, eviction and the account handlers. A sign-in is a request of
 the first stage from the moment its password has been found right.
 */
module TwoStageLogin {
  import opened Prelude
  import opened Throttle
  import opened Totp

  const MAX_PRE_AUTH := 32

  datatype PreAuth = PreAuth(expires: int, remember: bool, attempts: nat, busy: bool)

  /** Keyed by the hash of the pre-auth token. */
  type PreAuths = map<string, PreAuth>

  /** `code` is totpCode, a function of secret and step. */
  datatype Config = Config(maxAttempts: nat, ttl: int, limits: Limits, code: (string, int) -> string)

  /** What the configuration loader guarantees. */
  predicate ValidConfig(c: Config) { c.maxAttempts > 0 && c.ttl > 0 && ValidLimits(c.limits) }

  // ------------------------------------------------- critical sections of authMu

  /** cleanupPreAuthLocked */
  function Live(pre: PreAuths, now: int): PreAuths {
    map key | key in pre && now < pre[key].expires :: pre[key]
  }

  predicate IsOldest(pre: PreAuths, key: string) {
    key in pre && forall other | other in pre :: pre[key].expires <= pre[other].expires
  }

  /** createPreAuth; `victim` is the entry it evicts from a full table. */
  function AfterCreate(pre: PreAuths, key: string, victim: string, remember: bool, now: int, ttl: int): PreAuths {
    var live := Live(pre, now);
    (if |live| >= MAX_PRE_AUTH then live - {victim} else live)[key := PreAuth(now + ttl, remember, 0, false)]
  }

  /** bumpPreAuthAttempt; true when the entry is exhausted or gone. */
  function AfterBump(pre: PreAuths, key: string, maxAttempts: nat): (PreAuths, bool) {
    if key !in pre then (pre, true)
    else if pre[key].attempts + 1 >= maxAttempts then (pre - {key}, true)
    else (pre[key := pre[key].(attempts := pre[key].attempts + 1)], false)
  }

  predicate Claimable(pre: PreAuths, key: string, now: int, maxAttempts: nat) {
    key in pre && now < pre[key].expires && !pre[key].busy && pre[key].attempts < maxAttempts
  }

  /** claimPreAuth; an expired entry is dropped on the way. */
  function AfterClaim(pre: PreAuths, key: string, now: int, maxAttempts: nat): PreAuths {
    if Claimable(pre, key, now, maxAttempts) then pre[key := pre[key].(busy := true)]
    else if key in pre && now >= pre[key].expires then pre - {key}
    else pre
  }

  /** releasePreAuth */
  function AfterRelease(pre: PreAuths, key: string): PreAuths {
    if key in pre then pre[key := pre[key].(busy := false)] else pre
  }

  class PreAuthTable {
    var preAuth: PreAuths

    constructor ()
      ensures preAuth == map[]
    {
      preAuth := map[];
    }

    method Cleanup(now: int)
      modifies this
      ensures preAuth == Live(old(preAuth), now)
    {
      var keys := preAuth.Keys;
      while keys != {}
        invariant keys <= preAuth.Keys
        invariant forall key | key in preAuth :: key in old(preAuth) && preAuth[key] == old(preAuth)[key]
        invariant forall key | key in old(preAuth) && key !in keys :: key in preAuth <==> now < old(preAuth)[key].expires
        decreases |keys|
      {
        var key :| key in keys;
        keys := keys - {key};
        if now >= preAuth[key].expires {
          preAuth := preAuth - {key};
        }
      }
    }

    /** The search loop of createPreAuth. */
    method Oldest() returns (oldest: string)
      requires |preAuth| > 0
      ensures IsOldest(preAuth, oldest)
    {
      var found: Option<string> := None;
      var keys := preAuth.Keys;
      assert keys != {} by {
        assert |keys| == |preAuth|;
      }
      while keys != {}
        invariant keys <= preAuth.Keys
        invariant if found.None? then keys == preAuth.Keys else found.value in preAuth
        invariant found.Some? ==>
          forall other | other in preAuth && other !in keys :: preAuth[found.value].expires <= preAuth[other].expires
        decreases |keys|
      {
        var k :| k in keys;
        if found.None? || preAuth[k].expires < preAuth[found.value].expires {
          found := Some(k);
        }
        keys := keys - {k};
      }
      return found.value;
    }

    method Create(key: string, remember: bool, now: int, ttl: int) returns (ghost victim: string)
      modifies this
      ensures |Live(old(preAuth), now)| >= MAX_PRE_AUTH ==> IsOldest(Live(old(preAuth), now), victim)
      ensures preAuth == AfterCreate(old(preAuth), key, victim, remember, now, ttl)
    {
      victim := "";
      Cleanup(now);
      if |preAuth| >= MAX_PRE_AUTH {
        var oldest := Oldest();
        victim := oldest;
        preAuth := preAuth - {oldest};
      }
      preAuth := preAuth[key := PreAuth(now + ttl, remember, 0, false)];
    }

    method Bump(key: string, maxAttempts: nat) returns (exhausted: bool)
      modifies this
      ensures (preAuth, exhausted) == AfterBump(old(preAuth), key, maxAttempts)
    {
      if key !in preAuth {
        return true;
      }
      var p := preAuth[key];
      preAuth := preAuth[key := p.(attempts := p.attempts + 1)];
      if preAuth[key].attempts >= maxAttempts {
        preAuth := preAuth - {key};
        assert preAuth == old(preAuth) - {key};
        return true;
      }
      return false;
    }

    method Claim(key: string, now: int, maxAttempts: nat) returns (ok: bool)
      modifies this
      ensures ok <==> Claimable(old(preAuth), key, now, maxAttempts)
      ensures preAuth == AfterClaim(old(preAuth), key, now, maxAttempts)
    {
      if key !in preAuth || now >= preAuth[key].expires || preAuth[key].busy || preAuth[key].attempts >= maxAttempts {
        if key in preAuth && now >= preAuth[key].expires {
          preAuth := preAuth - {key};
        }
        return false;
      }
      preAuth := preAuth[key := preAuth[key].(busy := true)];
      return true;
    }

    method Release(key: string)
      modifies this
      ensures preAuth == AfterRelease(old(preAuth), key)
    {
      if key in preAuth {
        preAuth := preAuth[key := preAuth[key].(busy := false)];
      }
    }
  }

  // ------------------------------------------------------- the SQL transaction

  /** Sessions map a token to whether it is persistent. */
  type Sessions = map<string, bool>

  datatype Consumption = Consumed | Stale | Failed

  /** The tables after the transaction; a failure anywhere leaves both as they were. */
  function AfterConsume(lastStep: int, sessions: Sessions, step: int, token: string, persistent: bool, works: bool)
    : (int, Sessions, Consumption)
  {
    if !works then (lastStep, sessions, Failed)
    else if lastStep >= step then (lastStep, sessions, Stale)
    else if token in sessions then (lastStep, sessions, Failed)
    else (step, sessions[token := persistent], Consumed)
  }

  class LoginStore {
    var lastStep: int
    var sessions: Sessions

    constructor ()
      ensures lastStep == -1 && sessions == map[]
    {
      lastStep, sessions := -1, map[];
    }

    /** The flags say which database calls succeed; a transaction that is not committed is rolled back. */
    method ConsumeTOTPLoginStepAndCreateSession(step: int, token: string, persistent: bool,
                                                begun: bool, updated: bool, inserted: bool, committed: bool)
      returns (consumed: bool, failed: bool)
      modifies this
      ensures var works := begun && updated && (old(lastStep) >= step || (inserted && committed));
        (lastStep, sessions, if failed then Failed else if consumed then Consumed else Stale)
          == AfterConsume(old(lastStep), old(sessions), step, token, persistent, works)
      ensures !(consumed && failed)
    {
      if !begun {
        return false, true;
      }
      var lastStep0, sessions0 := lastStep, sessions;
      if !updated {
        return false, true;
      }
      if lastStep >= step {
        return false, false;
      }
      lastStep := step;
      if !inserted || token in sessions {
        lastStep := lastStep0;
        return false, true;
      }
      sessions := sessions[token := persistent];
      if !committed {
        lastStep, sessions := lastStep0, sessions0;
        return false, true;
      }
      return true, false;
    }
  }

  // --------------------------------------------------------------- the machine

  datatype Reply =
    Throttled | PreAuthExpired | AttemptsExceeded | PreAuthInvalid | InvalidTotp | DbError | SessionError | LoggedIn

  /** Where a request of handleLoginTOTP stands. */
  datatype Point =
    | Arrived
    | Found                             // its entry was there; about to read the secret
    | Unmatched
    | Failing(exhausted: bool)          // about to record a failure
    | Matched(step: int, secret: string)
    | Holding(step: int, secret: string)  // claimed its entry
    | Unstored                          // the transaction failed; about to release its entry
    | Stored(consumed: bool)            // about to delete its entry
    | Clearing                          // session stored, about to clear the failures
    | Ended(reply: Reply)

  /** `now` is the clock reading the code is matched against. */
  datatype Request = Request(key: string, code: string, now: int, remember: bool, point: Point)

  /** A session that was stored: the request it was for, the step it used up, and the secret's epoch. */
  datatype Login = Login(request: nat, key: string, now: int, step: int, epoch: nat, secret: string, code: string,
                         token: string, persistent: bool)

  /** Where a request of handleLogin stands; `storedIn` is the epoch in which its session was stored. */
  datatype Stage = Verified | Gated | Refused | Issued | Admitted(token: string, storedIn: nat) | Errored

  /** What a sign-in asked for, and the secret it read together with the password, in which epoch. */
  datatype SignIn = SignIn(remember: bool, secret: string, epoch: nat, stage: Stage)

  /**
   `issued` and `logins` record history; `epoch` counts the resets of the secret, and `revoked` is the
   epoch of the last reset that revoked every session.
   */
  datatype State = State(
    pre: PreAuths, failures: Failures, secret: string, lastStep: int, sessions: Sessions,
    requests: seq<Request>, issued: map<string, bool>, epoch: nat, logins: seq<Login>,
    signIns: seq<SignIn>, revoked: nat)

  const EMPTY := State(map[], CLEAR, "", -1, map[], [], map[], 0, [], [], 0)

  datatype Event =
    // sign-in p
    | Verify(remember: bool) | Gate(p: nat, at: int)
    | Create(p: nat, key: string, now: int, victim: string) | Admit(p: nat, token: string, works: bool)
    // account handlers and the like
    | Forget(key: string) | ForgetAll | ClearFailures
    | SetSecret(secret: string, revoke: bool) | Revoke | Expire(token: string)
    // request r
    | Begin(key: string, code: string, at: int)
    | Lookup(r: nat, now: int) | ReadSecret(r: nat, ok: bool) | Bump(r: nat) | Record(r: nat, at: int, later: int)
    | Claim(r: nat, now: int) | Store(r: nat, token: string, works: bool) | Release(r: nat) | Drop(r: nat) | Clear(r: nat)

  /** randomToken never repeats a session token. */
  predicate Fresh(s: State, token: string) {
    && (forall i | 0 <= i < |s.logins| :: s.logins[i].token != token)
    && (forall p | 0 <= p < |s.signIns| && s.signIns[p].stage.Admitted? :: s.signIns[p].stage.token != token)
  }

  predicate Enabled(s: State, e: Event) {
    match e
    case Gate(p, _) => p < |s.signIns| && s.signIns[p].stage.Verified? && s.signIns[p].secret != ""
    case Create(p, key, now, victim) =>
      && p < |s.signIns| && s.signIns[p].stage.Gated?
      && key !in s.issued && (|Live(s.pre, now)| >= MAX_PRE_AUTH ==> IsOldest(Live(s.pre, now), victim))
    case Admit(p, token, _) =>
      p < |s.signIns| && s.signIns[p].stage.Verified? && s.signIns[p].secret == "" && Fresh(s, token)
    case Lookup(r, _) => r < |s.requests| && s.requests[r].point.Arrived?
    case ReadSecret(r, _) => r < |s.requests| && s.requests[r].point.Found?
    case Bump(r) => r < |s.requests| && s.requests[r].point.Unmatched?
    case Record(r, at, later) => r < |s.requests| && s.requests[r].point.Failing? && at <= later
    case Claim(r, _) => r < |s.requests| && s.requests[r].point.Matched?
    case Store(r, token, _) => r < |s.requests| && s.requests[r].point.Holding? && Fresh(s, token)
    case Release(r) => r < |s.requests| && s.requests[r].point.Unstored?
    case Drop(r) => r < |s.requests| && s.requests[r].point.Stored?
    case Clear(r) => r < |s.requests| && s.requests[r].point.Clearing?
    case _ => true
  }

  function Goto(s: State, r: nat, point: Point): State
    requires r < |s.requests|
  {
    s.(requests := s.requests[r := s.requests[r].(point := point)])
  }

  function SetStage(s: State, p: nat, stage: Stage): State
    requires p < |s.signIns|
  {
    s.(signIns := s.signIns[p := s.signIns[p].(stage := stage)])
  }

  /** handleLogin with TOTP enabled: no entry is issued during a lockout. */
  function GateStep(c: Config, s: State, p: nat, at: int): State
    requires p < |s.signIns|
  {
    var failures := Reset(s.failures, at, c.limits.window);
    SetStage(s, p, if Locked(failures, at) then Refused else Gated).(failures := failures)
  }

  /** handleLogin without TOTP: CreateSession, with no look at what the secret is by now. */
  function AdmitStep(s: State, p: nat, token: string, works: bool): State
    requires p < |s.signIns|
  {
    if !works || token in s.sessions then SetStage(s, p, Errored)
    else SetStage(s, p, Admitted(token, s.epoch)).(sessions := s.sessions[token := s.signIns[p].remember])
  }

  function LookupStep(c: Config, s: State, r: nat, now: int): State
    requires r < |s.requests|
  {
    var key := s.requests[r].key;
    var live := Live(s.pre, now);
    if key !in live then Goto(s, r, Ended(PreAuthExpired)).(pre := live)
    else if live[key].attempts >= c.maxAttempts then Goto(s, r, Ended(AttemptsExceeded)).(pre := live - {key})
    else
      var found := s.requests[r].(now := now, remember := live[key].remember, point := Found);
      s.(pre := live, requests := s.requests[r := found])
  }

  /** totpCode for one secret. */
  function Codes(c: Config, secret: string): int -> string { step => c.code(secret, step) }

  function AfterMatch(c: Config, secret: string, q: Request): Point {
    var m := MatchedStep(Codes(c, secret), q.code, q.now);
    if m.None? then Unmatched else Matched(m.value, secret)
  }

  /** recordTOTPAuthFailure: a lockout wipes every entry. */
  function RecordStep(c: Config, s: State, r: nat, at: int, later: int): State
    requires r < |s.requests| && s.requests[r].point.Failing?
  {
    var locked := Retry(s.failures, at, later, c.limits) > 0;
    var reply := if locked then Throttled else if s.requests[r].point.exhausted then AttemptsExceeded else InvalidTotp;
    Goto(s, r, Ended(reply)).(failures := Recorded(s.failures, at, c.limits), pre := if locked then map[] else s.pre)
  }

  function StoreStep(s: State, r: nat, token: string, works: bool): State
    requires r < |s.requests| && s.requests[r].point.Holding?
  {
    var q := s.requests[r];
    var (lastStep, sessions, outcome) := AfterConsume(s.lastStep, s.sessions, q.point.step, token, q.remember, works);
    var next := s.(lastStep := lastStep, sessions := sessions);
    match outcome
    case Failed => Goto(next, r, Unstored)
    case Stale => Goto(next, r, Stored(false))
    case Consumed =>
      var login := Login(r, q.key, q.now, q.point.step, s.epoch, q.point.secret, q.code, token, q.remember);
      Goto(next, r, Stored(true)).(logins := s.logins + [login])
  }

  function Step(c: Config, s: State, e: Event): State {
    if !Enabled(s, e) then s else
    match e
    case Verify(remember) => s.(signIns := s.signIns + [SignIn(remember, s.secret, s.epoch, Verified)])
    case Gate(p, at) => GateStep(c, s, p, at)
    case Create(p, key, now, victim) =>
      var remember := s.signIns[p].remember;
      SetStage(s, p, Issued).(
        pre := AfterCreate(s.pre, key, victim, remember, now, c.ttl), issued := s.issued[key := remember])
    case Admit(p, token, works) => AdmitStep(s, p, token, works)
    case Forget(key) => s.(pre := s.pre - {key})
    case ForgetAll => s.(pre := map[])
    case ClearFailures => s.(failures := CLEAR)
    case SetSecret(secret, revoke) =>
      s.(secret := secret, lastStep := -1, epoch := s.epoch + 1, sessions := if revoke then map[] else s.sessions,
         revoked := if revoke then s.epoch + 1 else s.revoked)
    case Revoke => s.(sessions := map[])
    case Expire(token) => s.(sessions := s.sessions - {token})
    case Begin(key, code, at) =>
      var failures := Reset(s.failures, at, c.limits.window);
      var point := if Locked(failures, at) then Ended(Throttled) else Arrived;
      s.(failures := failures, requests := s.requests + [Request(key, code, 0, false, point)])
    case Lookup(r, now) => LookupStep(c, s, r, now)
    case ReadSecret(r, ok) => Goto(s, r, if ok then AfterMatch(c, s.secret, s.requests[r]) else Ended(DbError))
    case Bump(r) =>
      var (pre, exhausted) := AfterBump(s.pre, s.requests[r].key, c.maxAttempts);
      Goto(s, r, Failing(exhausted)).(pre := pre)
    case Record(r, at, later) => RecordStep(c, s, r, at, later)
    case Claim(r, now) =>
      var q := s.requests[r];
      var point := if Claimable(s.pre, q.key, now, c.maxAttempts) then Holding(q.point.step, q.point.secret) else Ended(PreAuthInvalid);
      Goto(s, r, point).(pre := AfterClaim(s.pre, q.key, now, c.maxAttempts))
    case Store(r, token, works) => StoreStep(s, r, token, works)
    case Release(r) => Goto(s, r, Ended(SessionError)).(pre := AfterRelease(s.pre, s.requests[r].key))
    case Drop(r) =>
      var next := if s.requests[r].point.consumed then Clearing else Failing(false);
      Goto(s, r, next).(pre := s.pre - {s.requests[r].key})
    case Clear(r) => Goto(s, r, Ended(LoggedIn)).(failures := CLEAR)
  }

  function After(c: Config, run: seq<Event>): State {
    if run == [] then EMPTY else Step(c, After(c, run[..|run| - 1]), run[|run| - 1])
  }

  // ---------------------------------------------------------------- invariant

  /** Every entry was issued, remembers what its login asked for, and has attempts left. */
  predicate Entries(c: Config, pre: PreAuths, issued: map<string, bool>) {
    && |pre| <= MAX_PRE_AUTH
    && forall key | key in pre :: key in issued && pre[key].remember == issued[key] && pre[key].attempts < c.maxAttempts
  }

  /** The request has its entry's data, and has not given it up. */
  predicate HasEntryData(p: Point) { !p.Arrived? && !p.Ended? }

  predicate GoodMatch(c: Config, now: int, code: string, step: int, secret: string) {
    StepOf(now) - 1 <= step <= StepOf(now) + 1 && c.code(secret, step) == Trimmed(code)
  }

  predicate GoodRequest(c: Config, q: Request, issued: map<string, bool>) {
    && (HasEntryData(q.point) ==> q.key in issued && q.remember == issued[q.key])
    && (q.point.Matched? ==> GoodMatch(c, q.now, q.code, q.point.step, q.point.secret))
    && (q.point.Holding? ==> GoodMatch(c, q.now, q.code, q.point.step, q.point.secret))
  }

  predicate Requests(c: Config, requests: seq<Request>, issued: map<string, bool>) {
    forall i | 0 <= i < |requests| :: GoodRequest(c, requests[i], issued)
  }

  /** The request has claimed its entry and neither released nor deleted it yet. */
  predicate Holds(p: Point) { p.Holding? || p.Unstored? || p.Stored? }

  predicate HeldBy(requests: seq<Request>, i: nat, key: string) {
    i < |requests| && Holds(requests[i].point) && requests[i].key == key
  }

  /** An entry is busy exactly while one request holds it. */
  ghost predicate Exclusive(pre: PreAuths, requests: seq<Request>) {
    && (forall i, j | 0 <= i < |requests| && 0 <= j < |requests| && i != j && Holds(requests[i].point) && Holds(requests[j].point) ::
          requests[i].key != requests[j].key)
    && (forall i | 0 <= i < |requests| && Holds(requests[i].point) && requests[i].key in pre :: pre[requests[i].key].busy)
    && (forall key | key in pre && pre[key].busy :: exists i :: HeldBy(requests, i, key))
  }

  /** The request has stored a session. */
  predicate HasLoggedIn(p: Point) { p == Stored(true) || p.Clearing? || p == Ended(LoggedIn) }

  /** Nobody but its own request can still get at an entry that led to a session. */
  predicate Spent(pre: PreAuths, requests: seq<Request>, login: Login) {
    && login.request < |requests| && requests[login.request].key == login.key && HasLoggedIn(requests[login.request].point)
    && (login.key in pre ==> pre[login.key].busy)
    && (forall i | 0 <= i < |requests| && requests[i].key == login.key && Holds(requests[i].point) :: i == login.request)
  }

  predicate AllSpent(pre: PreAuths, requests: seq<Request>, logins: seq<Login>) {
    forall i | 0 <= i < |logins| :: Spent(pre, requests, logins[i])
  }

  predicate LoginOf(logins: seq<Login>, i: nat, r: nat) { i < |logins| && logins[i].request == r }

  ghost predicate Once(requests: seq<Request>, logins: seq<Login>) {
    && (forall i, j | 0 <= i < j < |logins| :: logins[i].key != logins[j].key)
    && (forall r: nat | r < |requests| && HasLoggedIn(requests[r].point) :: exists i :: LoginOf(logins, i, r))
  }

  predicate Genuine(c: Config, issued: map<string, bool>, login: Login) {
    && GoodMatch(c, login.now, login.code, login.step, login.secret)
    && login.key in issued && login.persistent == issued[login.key]
  }

  predicate Backs(logins: seq<Login>, i: nat, token: string, persistent: bool) {
    i < |logins| && logins[i].token == token && logins[i].persistent == persistent
  }

  predicate UsesUp(logins: seq<Login>, i: nat, epoch: nat, step: int) {
    i < |logins| && logins[i].epoch == epoch && logins[i].step == step
  }

  /** Steps only grow between resets of the secret, and none is used up without a login. */
  ghost predicate Ledger(c: Config, s: State) {
    && (forall i | 0 <= i < |s.logins| ::
          && Genuine(c, s.issued, s.logins[i]) && s.logins[i].epoch <= s.epoch
          && (s.logins[i].epoch == s.epoch ==> s.logins[i].step <= s.lastStep))
    && (forall i, j | 0 <= i < j < |s.logins| && s.logins[i].epoch == s.logins[j].epoch :: s.logins[i].step < s.logins[j].step)
    && s.lastStep >= -1
    && (s.lastStep != -1 ==> exists i :: UsesUp(s.logins, i, s.epoch, s.lastStep))
  }

  predicate GoodSignIn(s: State, q: SignIn) {
    && q.epoch <= s.epoch
    && (q.epoch == s.epoch ==> q.secret == s.secret)
    && (q.stage.Gated? || q.stage.Issued? ==> q.secret != "")
    && (q.stage.Admitted? ==> q.secret == "" && q.epoch <= q.stage.storedIn <= s.epoch)
  }

  /** Sign-in p has stored this session, and no reset since has revoked it. */
  predicate Admits(signIns: seq<SignIn>, revoked: nat, p: nat, token: string, persistent: bool) {
    && p < |signIns| && signIns[p].stage.Admitted? && signIns[p].stage.token == token
    && signIns[p].remember == persistent && signIns[p].stage.storedIn >= revoked
  }

  ghost predicate HasStep(s: State, token: string, persistent: bool) {
    exists i :: Backs(s.logins, i, token, persistent)
  }

  ghost predicate HasSignIn(s: State, token: string, persistent: bool) {
    exists p :: Admits(s.signIns, s.revoked, p, token, persistent)
  }

  /** Every live session comes from a login or from a sign-in, and no token from both. */
  ghost predicate Accounted(s: State) {
    && s.revoked <= s.epoch
    && (forall p | 0 <= p < |s.signIns| :: GoodSignIn(s, s.signIns[p]))
    && (forall token | token in s.sessions :: HasStep(s, token, s.sessions[token]) || HasSignIn(s, token, s.sessions[token]))
    && (forall i, p | 0 <= i < |s.logins| && 0 <= p < |s.signIns| && s.signIns[p].stage.Admitted? ::
          s.logins[i].token != s.signIns[p].stage.token)
  }

  ghost predicate Inv(c: Config, s: State) {
    && Entries(c, s.pre, s.issued)
    && Requests(c, s.requests, s.issued)
    && Exclusive(s.pre, s.requests)
    && AllSpent(s.pre, s.requests, s.logins)
    && Once(s.requests, s.logins)
    && Ledger(c, s)
    && Accounted(s)
  }

  // ------------------------------------------------ the invariant is inductive

  lemma FewerKeys<K, V>(a: map<K, V>, b: map<K, V>)
    requires a.Keys <= b.Keys
    ensures |a| <= |b|
  {
    if a.Keys < b.Keys {
      var rest := b.Keys - a.Keys;
      assert b.Keys == a.Keys + rest;
    } else {
      assert a.Keys == b.Keys;
    }
  }

  lemma EntriesCreate(c: Config, pre: PreAuths, issued: map<string, bool>, key: string, victim: string, remember: bool, now: int)
    requires ValidConfig(c) && Entries(c, pre, issued) && key !in issued
    requires |Live(pre, now)| >= MAX_PRE_AUTH ==> IsOldest(Live(pre, now), victim)
    ensures Entries(c, AfterCreate(pre, key, victim, remember, now, c.ttl), issued[key := remember])
  {
    var live := Live(pre, now);
    var next := AfterCreate(pre, key, victim, remember, now, c.ttl);
    assert |next| <= MAX_PRE_AUTH by {
      FewerKeys(live, pre);
      RoomForOne(live, key, victim, next[key]);
    }
  }

  lemma RoomForOne(live: PreAuths, key: string, victim: string, added: PreAuth)
    requires |live| <= MAX_PRE_AUTH && (|live| >= MAX_PRE_AUTH ==> victim in live)
    ensures |(if |live| >= MAX_PRE_AUTH then live - {victim} else live)[key := added]| <= MAX_PRE_AUTH
  {
    var kept := if |live| >= MAX_PRE_AUTH then live - {victim} else live;
    if |live| >= MAX_PRE_AUTH {
      assert live.Keys == kept.Keys + {victim};
    }
    assert kept[key := added].Keys == kept.Keys + {key};
  }

  predicate OfRequest(e: Event) {
    || e.Lookup? || e.ReadSecret? || e.Bump? || e.Record? || e.Claim? || e.Store? || e.Release? || e.Drop? || e.Clear?
  }

  /** The other operations add no entry and raise only the attempts they check. */
  predicate Shrunk(pre: PreAuths, next: PreAuths, maxAttempts: nat) {
    && next.Keys <= pre.Keys
    && forall key | key in next :: next[key].remember == pre[key].remember && next[key].attempts < maxAttempts
  }

  lemma EntriesLookup(c: Config, s: State, e: Event)
    requires Entries(c, s.pre, s.issued) && Enabled(s, e) && e.Lookup?
    ensures Shrunk(s.pre, Step(c, s, e).pre, c.maxAttempts) && Step(c, s, e).issued == s.issued
  {}

  lemma EntriesAttempt(c: Config, s: State, e: Event)
    requires Entries(c, s.pre, s.issued) && Enabled(s, e) && (e.Bump? || e.Claim?)
    ensures Shrunk(s.pre, Step(c, s, e).pre, c.maxAttempts) && Step(c, s, e).issued == s.issued
  {}

  lemma EntriesKept(c: Config, s: State, e: Event)
    requires Entries(c, s.pre, s.issued) && Enabled(s, e) && (e.ReadSecret? || e.Store? || e.Clear?)
    ensures Step(c, s, e).pre == s.pre && Step(c, s, e).issued == s.issued
    ensures Shrunk(s.pre, Step(c, s, e).pre, c.maxAttempts)
  {}

  lemma EntriesRest(c: Config, s: State, e: Event)
    requires Entries(c, s.pre, s.issued) && Enabled(s, e) && (e.Record? || e.Release? || e.Drop?)
    ensures Shrunk(s.pre, Step(c, s, e).pre, c.maxAttempts) && Step(c, s, e).issued == s.issued
  {}

  lemma EntriesForget(c: Config, s: State, e: Event)
    requires Entries(c, s.pre, s.issued) && (e.Forget? || e.ForgetAll?)
    ensures Shrunk(s.pre, Step(c, s, e).pre, c.maxAttempts) && Step(c, s, e).issued == s.issued
  {}

  lemma EntriesOthers(c: Config, s: State, e: Event)
    requires Enabled(s, e) && !OfRequest(e) && !(e.Create? || e.Forget? || e.ForgetAll?)
    ensures Step(c, s, e).pre == s.pre && Step(c, s, e).issued == s.issued
  {}

  lemma EntriesOfRequest(c: Config, s: State, e: Event)
    requires Entries(c, s.pre, s.issued) && Enabled(s, e) && OfRequest(e)
    ensures Shrunk(s.pre, Step(c, s, e).pre, c.maxAttempts) && Step(c, s, e).issued == s.issued
  {
    if e.Lookup? {
      EntriesLookup(c, s, e);
    } else if e.Bump? || e.Claim? {
      EntriesAttempt(c, s, e);
    } else if e.ReadSecret? || e.Store? || e.Clear? {
      EntriesKept(c, s, e);
    } else {
      EntriesRest(c, s, e);
    }
  }

  lemma EntriesShrink(c: Config, pre: PreAuths, next: PreAuths, issued: map<string, bool>)
    requires Entries(c, pre, issued) && Shrunk(pre, next, c.maxAttempts)
    ensures Entries(c, next, issued)
  {
    FewerKeys(next, pre);
  }

  lemma EntriesStep(c: Config, s: State, e: Event)
    requires ValidConfig(c) && Entries(c, s.pre, s.issued) && Enabled(s, e)
    ensures Entries(c, Step(c, s, e).pre, Step(c, s, e).issued)
  {
    if e.Create? {
      EntriesCreate(c, s.pre, s.issued, e.key, e.victim, s.signIns[e.p].remember, e.now);
    } else if OfRequest(e) {
      EntriesOfRequest(c, s, e);
      EntriesShrink(c, s.pre, Step(c, s, e).pre, s.issued);
    } else if e.Forget? || e.ForgetAll? {
      EntriesForget(c, s, e);
      EntriesShrink(c, s.pre, Step(c, s, e).pre, s.issued);
    } else {
      EntriesOthers(c, s, e);
    }
  }

  lemma RequestsRead(c: Config, s: State, r: nat)
    requires Requests(c, s.requests, s.issued) && r < |s.requests| && s.requests[r].point.Found?
    ensures GoodRequest(c, s.requests[r].(point := AfterMatch(c, s.secret, s.requests[r])), s.issued)
  {
    MatchIsNear(Codes(c, s.secret), s.requests[r].code, s.requests[r].now);
  }

  /** Steps that neither look an entry up nor match a code take nothing new from anywhere. */
  lemma RequestsMove(c: Config, s: State, e: Event)
    requires Enabled(s, e) && (e.Bump? || e.Record? || e.Release? || e.Drop? || e.Clear?)
    requires GoodRequest(c, s.requests[e.r], s.issued)
    ensures var t := Step(c, s, e); e.r < |t.requests| && GoodRequest(c, t.requests[e.r], s.issued)
  {}

  lemma RequestsClaim(c: Config, s: State, r: nat, now: int)
    requires r < |s.requests| && s.requests[r].point.Matched? && GoodRequest(c, s.requests[r], s.issued)
    ensures var t := Step(c, s, Claim(r, now)); r < |t.requests| && GoodRequest(c, t.requests[r], s.issued)
  {}

  lemma RequestsStore(c: Config, s: State, r: nat, token: string, works: bool)
    requires r < |s.requests| && s.requests[r].point.Holding? && GoodRequest(c, s.requests[r], s.issued)
    ensures var t := StoreStep(s, r, token, works); r < |t.requests| && GoodRequest(c, t.requests[r], s.issued)
  {}

  lemma RequestsLookup(c: Config, s: State, r: nat, now: int)
    requires Entries(c, s.pre, s.issued) && r < |s.requests|
    ensures GoodRequest(c, LookupStep(c, s, r, now).requests[r], s.issued)
  {}

  /**
   How one request may move on while it changes its own entry: it becomes a holder only of an entry
   that is not busy, and stops holding by making the entry free, or by deleting it after a login.
   */
  predicate Handover(pre: PreAuths, next: PreAuths, key: string, before: Point, after: Point) {
    && (forall k | k in next && k != key :: k in pre && next[k].busy == pre[k].busy)
    && (HasLoggedIn(before) ==> HasLoggedIn(after))
    && if Holds(after) then (Holds(before) || (key in pre && !pre[key].busy)) && (key in next ==> next[key].busy)
       else if Holds(before) then key in next ==> !next[key].busy && !HasLoggedIn(before)
       else key in next ==> key in pre && next[key].busy == pre[key].busy
  }

  /** Request r moves on alone, and gets its login when it stores its session. */
  predicate Moves(s: State, t: State, r: nat) {
    && r < |s.requests| && |t.requests| == |s.requests|
    && t.requests == s.requests[r := t.requests[r]] && t.requests[r].key == s.requests[r].key
    && t.issued == s.issued
    && Handover(s.pre, t.pre, s.requests[r].key, s.requests[r].point, t.requests[r].point)
    && if s.requests[r].point.Holding? && t.requests[r].point == Stored(true)
       then |t.logins| == |s.logins| + 1 && t.logins == s.logins + [t.logins[|s.logins|]]
            && t.logins[|s.logins|].request == r && t.logins[|s.logins|].key == s.requests[r].key
       else t.logins == s.logins && (HasLoggedIn(t.requests[r].point) ==> HasLoggedIn(s.requests[r].point))
  }

  lemma MovesLookup(c: Config, s: State, r: nat, now: int)
    requires Exclusive(s.pre, s.requests) && r < |s.requests| && s.requests[r].point.Arrived?
    ensures Moves(s, LookupStep(c, s, r, now), r)
  {
    var t := LookupStep(c, s, r, now);
    assert t.requests == s.requests[r := t.requests[r]] && !t.requests[r].point.Holding?;
  }

  lemma MovesAttempt(c: Config, s: State, e: Event)
    requires Exclusive(s.pre, s.requests) && Enabled(s, e) && (e.Bump? || e.Claim?)
    ensures Moves(s, Step(c, s, e), e.r)
  {}

  lemma MovesReply(c: Config, s: State, e: Event)
    requires Exclusive(s.pre, s.requests) && Enabled(s, e) && (e.ReadSecret? || e.Record?)
    ensures Moves(s, Step(c, s, e), e.r)
  {}

  lemma MovesStore(s: State, r: nat, token: string, works: bool)
    requires Exclusive(s.pre, s.requests) && r < |s.requests| && s.requests[r].point.Holding?
    ensures Moves(s, StoreStep(s, r, token, works), r)
  {}

  lemma MovesHolder(c: Config, s: State, e: Event)
    requires Exclusive(s.pre, s.requests) && Enabled(s, e) && (e.Release? || e.Drop? || e.Clear?)
    ensures Moves(s, Step(c, s, e), e.r)
  {}

  lemma ExclusiveHandover(pre: PreAuths, next: PreAuths, requests: seq<Request>, r: nat, q: Request)
    requires Exclusive(pre, requests) && r < |requests| && q.key == requests[r].key
    requires Handover(pre, next, q.key, requests[r].point, q.point)
    ensures Exclusive(next, requests[r := q])
  {
    var moved := requests[r := q];
    forall key | key in next && next[key].busy
      ensures exists i :: HeldBy(moved, i, key)
    {
      if key == q.key && Holds(q.point) {
        assert HeldBy(moved, r, key);
      } else {
        var i :| HeldBy(requests, i, key);
        assert HeldBy(moved, i, key);
      }
    }
  }

  lemma SpentHandover(pre: PreAuths, next: PreAuths, requests: seq<Request>, r: nat, q: Request, login: Login)
    requires Exclusive(pre, requests) && r < |requests| && q.key == requests[r].key
    requires Handover(pre, next, q.key, requests[r].point, q.point)
    requires Spent(pre, requests, login)
    ensures Spent(next, requests[r := q], login)
  {}

  /** Other handlers drop entries, or add one under a key that nobody has seen. */
  predicate Unclaimed(pre: PreAuths, next: PreAuths, issued: map<string, bool>) {
    forall key | key in next :: if key in pre then next[key].busy == pre[key].busy else key !in issued && !next[key].busy
  }

  predicate Grown(requests: seq<Request>, next: seq<Request>) {
    && |requests| <= |next|
    && (forall i | 0 <= i < |requests| :: next[i] == requests[i])
    && (forall i | |requests| <= i < |next| :: !Holds(next[i].point) && !HasLoggedIn(next[i].point))
  }

  lemma OthersStandBack(c: Config, s: State, e: Event)
    requires Enabled(s, e) && !OfRequest(e) && !e.Create? && !e.Begin?
    ensures var t := Step(c, s, e);
      t.requests == s.requests && t.logins == s.logins && t.issued == s.issued && Unclaimed(s.pre, t.pre, s.issued)
  {}

  lemma BeginStandsBack(c: Config, s: State, e: Event)
    requires e.Begin?
    ensures var t := Step(c, s, e);
      && t.pre == s.pre && t.logins == s.logins && t.issued == s.issued
      && Grown(s.requests, t.requests)
      && (Requests(c, s.requests, s.issued) ==> Requests(c, t.requests, t.issued))
  {}

  lemma CreateStandsBack(c: Config, s: State, key: string, remember: bool, now: int, victim: string)
    requires Entries(c, s.pre, s.issued) && key !in s.issued
    ensures Unclaimed(s.pre, AfterCreate(s.pre, key, victim, remember, now, c.ttl), s.issued)
  {}

  lemma ExclusiveUnclaimed(c: Config, pre: PreAuths, next: PreAuths, requests: seq<Request>, more: seq<Request>, issued: map<string, bool>)
    requires Exclusive(pre, requests) && Requests(c, requests, issued) && Unclaimed(pre, next, issued) && Grown(requests, more)
    ensures Exclusive(next, more)
  {
    forall key | key in next && next[key].busy
      ensures exists i :: HeldBy(more, i, key)
    {
      var i :| HeldBy(requests, i, key);
      assert HeldBy(more, i, key);
    }
  }

  lemma SpentUnclaimed(pre: PreAuths, next: PreAuths, requests: seq<Request>, more: seq<Request>, issued: map<string, bool>, login: Login)
    requires Spent(pre, requests, login) && Unclaimed(pre, next, issued) && Grown(requests, more) && login.key in issued
    ensures Spent(next, more, login)
  {}

  /** A request that stores a session finds no earlier login for its entry, and spends it. */
  lemma NewLogin(next: PreAuths, pre: PreAuths, requests: seq<Request>, logins: seq<Login>, r: nat, q: Request, login: Login)
    requires Exclusive(pre, requests) && AllSpent(pre, requests, logins) && Once(requests, logins)
    requires r < |requests| && requests[r].point.Holding? && q.key == requests[r].key && q.point == Stored(true)
    requires login.request == r && login.key == q.key && Handover(pre, next, q.key, requests[r].point, q.point)
    ensures Spent(next, requests[r := q], login) && Once(requests[r := q], logins + [login])
  {
    forall i | 0 <= i < |logins|
      ensures logins[i].key != login.key
    {
      assert Spent(pre, requests, logins[i]);
    }
    var moved, more := requests[r := q], logins + [login];
    forall k: nat | k < |moved| && HasLoggedIn(moved[k].point)
      ensures exists i :: LoginOf(more, i, k)
    {
      if k == r {
        assert LoginOf(more, |logins|, k);
      } else {
        var i :| LoginOf(logins, i, k);
        assert LoginOf(more, i, k);
      }
    }
  }

  lemma OnceGrows(requests: seq<Request>, next: seq<Request>, logins: seq<Login>)
    requires Once(requests, logins)
    requires forall r | 0 <= r < |next| && HasLoggedIn(next[r].point) :: r < |requests| && HasLoggedIn(requests[r].point)
    ensures Once(next, logins)
  {
    forall k: nat | k < |next| && HasLoggedIn(next[k].point)
      ensures exists i :: LoginOf(logins, i, k)
    {
      var i :| LoginOf(logins, i, k);
    }
  }

  /** The parts of the invariant that tie entries, requests and logins together. */
  ghost predicate Tied(s: State) {
    Exclusive(s.pre, s.requests) && AllSpent(s.pre, s.requests, s.logins) && Once(s.requests, s.logins)
  }

  lemma TiedOthers(c: Config, s: State, t: State)
    requires Tied(s) && Requests(c, s.requests, s.issued) && Ledger(c, s)
    requires Unclaimed(s.pre, t.pre, s.issued) && t.logins == s.logins && Grown(s.requests, t.requests)
    ensures Tied(t)
  {
    ExclusiveUnclaimed(c, s.pre, t.pre, s.requests, t.requests, s.issued);
    forall i | 0 <= i < |s.logins|
      ensures Spent(t.pre, t.requests, s.logins[i])
    {
      SpentUnclaimed(s.pre, t.pre, s.requests, t.requests, s.issued, s.logins[i]);
    }
    OnceGrows(s.requests, t.requests, s.logins);
  }

  lemma TiedRequest(s: State, t: State, r: nat)
    requires Tied(s) && Moves(s, t, r)
    ensures Tied(t)
  {
    var q := t.requests[r];
    ExclusiveHandover(s.pre, t.pre, s.requests, r, q);
    forall i | 0 <= i < |s.logins|
      ensures Spent(t.pre, t.requests, s.logins[i])
    {
      SpentHandover(s.pre, t.pre, s.requests, r, q, s.logins[i]);
    }
    if t.logins == s.logins {
      OnceGrows(s.requests, t.requests, s.logins);
    } else {
      NewLogin(t.pre, s.pre, s.requests, s.logins, r, q, t.logins[|s.logins|]);
    }
  }

  lemma LedgerStore(c: Config, s: State, r: nat, token: string, works: bool)
    requires Ledger(c, s) && r < |s.requests| && s.requests[r].point.Holding? && GoodRequest(c, s.requests[r], s.issued)
    ensures Ledger(c, StoreStep(s, r, token, works))
  {
    var t := StoreStep(s, r, token, works);
    if t.logins != s.logins {
      var login := t.logins[|s.logins|];
      assert t.logins == s.logins + [login] && Genuine(c, s.issued, login);
      assert login.step == t.lastStep > s.lastStep && login.epoch == s.epoch == t.epoch;
      assert UsesUp(t.logins, |s.logins|, t.epoch, t.lastStep);
    }
  }

  /** No login is added, and only a new epoch forgets the last step. */
  predicate Idle(s: State, t: State) {
    && t.logins == s.logins
    && (forall key | key in s.issued :: key in t.issued && t.issued[key] == s.issued[key])
    && ((t.epoch == s.epoch && t.lastStep == s.lastStep) || (t.epoch == s.epoch + 1 && t.lastStep == -1))
  }

  lemma OthersAreIdle(c: Config, s: State, e: Event)
    requires Enabled(s, e) && !OfRequest(e)
    ensures Idle(s, Step(c, s, e))
  {}

  lemma RequestsAreIdle(c: Config, s: State, e: Event)
    requires Enabled(s, e) && OfRequest(e) && !e.Store?
    ensures Idle(s, Step(c, s, e))
  {}

  lemma LedgerRest(c: Config, s: State, t: State)
    requires Ledger(c, s) && Idle(s, t)
    ensures Ledger(c, t)
  {}

  lemma LedgerStep(c: Config, s: State, e: Event)
    requires Ledger(c, s) && Requests(c, s.requests, s.issued) && Enabled(s, e)
    ensures Ledger(c, Step(c, s, e))
  {
    if e.Store? {
      LedgerStore(c, s, e.r, e.token, e.works);
    } else {
      if OfRequest(e) {
        RequestsAreIdle(c, s, e);
      } else {
        OthersAreIdle(c, s, e);
      }
      LedgerRest(c, s, Step(c, s, e));
    }
  }

  /** Sessions may go; whatever accounts for them stays, but for the progress of sign-ins without a session. */
  predicate Calm(s: State, t: State) {
    && t.logins == s.logins && t.secret == s.secret && t.epoch == s.epoch && t.revoked == s.revoked
    && (forall token | token in t.sessions :: token in s.sessions && t.sessions[token] == s.sessions[token])
    && |s.signIns| <= |t.signIns|
    && (forall p | 0 <= p < |s.signIns| && s.signIns[p].stage.Admitted? :: t.signIns[p] == s.signIns[p])
    && (forall p | 0 <= p < |t.signIns| && t.signIns[p].stage.Admitted? :: p < |s.signIns| && t.signIns[p] == s.signIns[p])
    && (forall p | 0 <= p < |t.signIns| && GoodSignInBefore(s, p) :: GoodSignIn(s, t.signIns[p]))
  }

  predicate GoodSignInBefore(s: State, p: nat) { p < |s.signIns| ==> GoodSignIn(s, s.signIns[p]) }

  lemma SignInsAreCalm(c: Config, s: State, e: Event)
    requires Enabled(s, e) && (e.Verify? || e.Gate? || e.Create?)
    ensures Calm(s, Step(c, s, e))
  {}

  lemma OthersAreCalm(c: Config, s: State, e: Event)
    requires Enabled(s, e) && (e.Forget? || e.ForgetAll? || e.ClearFailures? || e.Revoke? || e.Expire? || e.Begin?)
    ensures Calm(s, Step(c, s, e))
  {}

  /** The second stage never touches sign-ins, secret or epochs. */
  predicate SameAccounts(s: State, t: State) {
    && t.logins == s.logins && t.secret == s.secret && t.epoch == s.epoch && t.revoked == s.revoked
    && t.sessions == s.sessions && t.signIns == s.signIns
  }

  lemma AttemptsKeepAccounts(c: Config, s: State, e: Event)
    requires Enabled(s, e) && (e.Lookup? || e.ReadSecret? || e.Bump? || e.Record? || e.Claim?)
    ensures SameAccounts(s, Step(c, s, e))
  {}

  lemma HoldersKeepAccounts(c: Config, s: State, e: Event)
    requires Enabled(s, e) && (e.Release? || e.Drop? || e.Clear?)
    ensures SameAccounts(s, Step(c, s, e))
  {}

  lemma RequestsAreCalm(c: Config, s: State, e: Event)
    requires Enabled(s, e) && OfRequest(e) && !e.Store?
    ensures Calm(s, Step(c, s, e))
  {
    if e.Release? || e.Drop? || e.Clear? {
      HoldersKeepAccounts(c, s, e);
    } else {
      AttemptsKeepAccounts(c, s, e);
    }
  }

  lemma AccountedCalm(s: State, t: State)
    requires Accounted(s) && Calm(s, t)
    ensures Accounted(t)
  {
    forall p | 0 <= p < |t.signIns|
      ensures GoodSignIn(t, t.signIns[p])
    {
      assert GoodSignInBefore(s, p);
    }
    forall token | token in t.sessions
      ensures HasStep(t, token, t.sessions[token]) || HasSignIn(t, token, t.sessions[token])
    {
      if HasStep(s, token, s.sessions[token]) {
        var i :| Backs(s.logins, i, token, s.sessions[token]);
        assert Backs(t.logins, i, token, t.sessions[token]);
      } else {
        var p :| Admits(s.signIns, s.revoked, p, token, s.sessions[token]);
        assert Admits(t.signIns, t.revoked, p, token, t.sessions[token]);
      }
    }
  }

  lemma AccountedSecret(c: Config, s: State, secret: string, revoke: bool)
    requires Accounted(s)
    ensures Accounted(Step(c, s, SetSecret(secret, revoke)))
  {
    var t := Step(c, s, SetSecret(secret, revoke));
    forall token | token in t.sessions
      ensures HasStep(t, token, t.sessions[token]) || HasSignIn(t, token, t.sessions[token])
    {
      assert HasStep(s, token, t.sessions[token]) || HasSignIn(s, token, t.sessions[token]);
    }
  }

  /** The transaction's new session is backed by the login that is recorded with it. */
  lemma AccountedStore(s: State, r: nat, token: string, works: bool)
    requires Accounted(s) && r < |s.requests| && s.requests[r].point.Holding? && Fresh(s, token)
    ensures Accounted(StoreStep(s, r, token, works))
  {
    var t := StoreStep(s, r, token, works);
    forall live | live in t.sessions
      ensures HasStep(t, live, t.sessions[live]) || HasSignIn(t, live, t.sessions[live])
    {
      if live !in s.sessions {
        assert Backs(t.logins, |s.logins|, live, t.sessions[live]);
      } else if HasStep(s, live, s.sessions[live]) {
        var i :| Backs(s.logins, i, live, s.sessions[live]);
        assert Backs(t.logins, i, live, t.sessions[live]);
      }
    }
  }

  /** A sign-in's new session is backed by its own record. */
  lemma AccountedAdmit(s: State, p: nat, token: string, works: bool)
    requires Accounted(s) && Enabled(s, Admit(p, token, works))
    ensures Accounted(AdmitStep(s, p, token, works))
  {
    var t := AdmitStep(s, p, token, works);
    forall live | live in t.sessions
      ensures HasStep(t, live, t.sessions[live]) || HasSignIn(t, live, t.sessions[live])
    {
      if live !in s.sessions {
        assert Admits(t.signIns, t.revoked, p, live, t.sessions[live]);
      } else if !HasStep(s, live, s.sessions[live]) {
        var q :| Admits(s.signIns, s.revoked, q, live, s.sessions[live]);
        assert Admits(t.signIns, t.revoked, q, live, t.sessions[live]);
      }
    }
  }

  lemma AccountedStep(c: Config, s: State, e: Event)
    requires Accounted(s) && Enabled(s, e)
    ensures Accounted(Step(c, s, e))
  {
    if e.SetSecret? {
      AccountedSecret(c, s, e.secret, e.revoke);
    } else if e.Store? {
      AccountedStore(s, e.r, e.token, e.works);
    } else if e.Admit? {
      AccountedAdmit(s, e.p, e.token, e.works);
    } else {
      if OfRequest(e) {
        RequestsAreCalm(c, s, e);
      } else if e.Verify? || e.Gate? || e.Create? {
        SignInsAreCalm(c, s, e);
      } else {
        OthersAreCalm(c, s, e);
      }
      AccountedCalm(s, Step(c, s, e));
    }
  }

  lemma RequestMoves(c: Config, s: State, e: Event)
    requires Exclusive(s.pre, s.requests) && Enabled(s, e) && OfRequest(e)
    ensures Moves(s, Step(c, s, e), e.r)
  {
    if e.Lookup? {
      MovesLookup(c, s, e.r, e.now);
    } else if e.Bump? || e.Claim? {
      MovesAttempt(c, s, e);
    } else if e.ReadSecret? || e.Record? {
      MovesReply(c, s, e);
    } else if e.Store? {
      MovesStore(s, e.r, e.token, e.works);
    } else {
      MovesHolder(c, s, e);
    }
  }

  lemma RequestsStep(c: Config, s: State, e: Event)
    requires Entries(c, s.pre, s.issued) && Requests(c, s.requests, s.issued) && Enabled(s, e) && OfRequest(e)
    ensures var t := Step(c, s, e); e.r < |t.requests| && GoodRequest(c, t.requests[e.r], s.issued)
  {
    if e.Lookup? {
      RequestsLookup(c, s, e.r, e.now);
    } else if e.ReadSecret? {
      RequestsRead(c, s, e.r);
    } else if e.Claim? {
      RequestsClaim(c, s, e.r, e.now);
    } else if e.Store? {
      RequestsStore(c, s, e.r, e.token, e.works);
    } else {
      RequestsMove(c, s, e);
    }
  }

  lemma InvOfRequest(c: Config, s: State, e: Event)
    requires Inv(c, s) && Enabled(s, e) && OfRequest(e)
    ensures var t := Step(c, s, e); Requests(c, t.requests, t.issued) && Tied(t)
  {
    RequestMoves(c, s, e);
    RequestsStep(c, s, e);
    TiedRequest(s, Step(c, s, e), e.r);
  }

  lemma InvOthers(c: Config, s: State, e: Event)
    requires Inv(c, s) && Enabled(s, e) && !OfRequest(e)
    ensures var t := Step(c, s, e); Requests(c, t.requests, t.issued) && Tied(t)
  {
    if e.Create? {
      CreateStandsBack(c, s, e.key, s.signIns[e.p].remember, e.now, e.victim);
    } else if e.Begin? {
      BeginStandsBack(c, s, e);
    } else {
      OthersStandBack(c, s, e);
    }
    TiedOthers(c, s, Step(c, s, e));
  }

  lemma InvStep(c: Config, s: State, e: Event)
    requires ValidConfig(c) && Inv(c, s)
    ensures Inv(c, Step(c, s, e))
  {
    if Enabled(s, e) {
      EntriesStep(c, s, e);
      LedgerStep(c, s, e);
      AccountedStep(c, s, e);
      if OfRequest(e) {
        InvOfRequest(c, s, e);
      } else {
        InvOthers(c, s, e);
      }
    }
  }

  lemma {:induction false} InvRun(c: Config, run: seq<Event>)
    requires ValidConfig(c)
    ensures Inv(c, After(c, run))
  {
    if run != [] {
      InvRun(c, run[..|run| - 1]);
      InvStep(c, After(c, run[..|run| - 1]), run[|run| - 1]);
    }
  }

  // ------------------------------------------------------------ main results

  /**
   However requests, expiry, eviction, lockouts and failed transactions interleave, one pre-auth entry
   yields at most one session, and that session is persistent exactly as its password stage asked.
   */
  lemma {:induction false} OneSessionPerPreAuth(c: Config, run: seq<Event>)
    requires ValidConfig(c)
    ensures var s := After(c, run);
      && (forall i, j | 0 <= i < j < |s.logins| :: s.logins[i].key != s.logins[j].key)
      && (forall i | 0 <= i < |s.logins| ::
            s.logins[i].key in s.issued && s.logins[i].persistent == s.issued[s.logins[i].key])
  {
    InvRun(c, run);
  }

  /**
   A request of the second stage is answered ok only for the one session it stored. Every live session has
   a consumed step behind it, unless, and only unless, a sign-in stored it that had read an empty secret.
   */
  lemma {:induction false} SessionsHaveTheirLogin(c: Config, run: seq<Event>)
    requires ValidConfig(c)
    ensures var s := After(c, run);
      && (forall r: nat | r < |s.requests| && s.requests[r].point == Ended(LoggedIn) :: exists i :: LoginOf(s.logins, i, r))
      && (forall i, j | 0 <= i < j < |s.logins| :: s.logins[i].request != s.logins[j].request)
      && (forall i | 0 <= i < |s.logins| ::
            s.logins[i].request < |s.requests| && HasLoggedIn(s.requests[s.logins[i].request].point))
      && (forall token | token in s.sessions ::
            HasStep(s, token, s.sessions[token]) <==> !HasSignIn(s, token, s.sessions[token]))
      && (forall p | 0 <= p < |s.signIns| && s.signIns[p].stage.Admitted? :: s.signIns[p].secret == "")
  {
    var s := After(c, run);
    InvRun(c, run);
    forall i | 0 <= i < |s.logins|
      ensures Spent(s.pre, s.requests, s.logins[i])
    {}
    forall p | 0 <= p < |s.signIns| && s.signIns[p].stage.Admitted?
      ensures s.signIns[p].secret == ""
    {
      assert GoodSignIn(s, s.signIns[p]);
    }
  }

  // ------------------------------------- sessions without a step while a secret is set

  /** Two-step verification is on, and a live session has not been through it. */
  ghost predicate Exposed(s: State) {
    s.secret != "" && exists token | token in s.sessions :: !HasStep(s, token, s.sessions[token])
  }

  /** Such a session exists after three steps: a sign-in without TOTP is overtaken by its being enabled. */
  lemma SignInOvertaken(c: Config, secret: string)
    requires secret != ""
    ensures var run := [Verify(true), SetSecret(secret, true), Admit(0, "token", true)];
      Exposed(After(c, run)) && After(c, run).sessions == map["token" := true]
  {
    var a, b, d := Verify(true), SetSecret(secret, true), Admit(0, "token", true);
    assert [a, b, d][..2] == [a, b] && [a, b][..1] == [a] && [a][..0] == [];
    var s := Step(c, Step(c, EMPTY, a), b);
    assert After(c, [a]) == Step(c, EMPTY, a);
    assert After(c, [a, b]) == s;
    var run := [a, b, d];
    assert run[..|run| - 1] == [a, b] && After(c, run) == Step(c, After(c, run[..|run| - 1]), d);
    assert Enabled(s, d);
    assert "token" in Step(c, s, d).sessions && !HasStep(Step(c, s, d), "token", true);
  }

  /**
   The exact condition, step by step: sessions without a step come to live beside a secret exactly when a
   sign-in that read none stores its session although one is set by then, or when a secret is set without
   revoking sessions while there is a session without a step.
   */
  lemma {:induction false} ExposedExactly(c: Config, run: seq<Event>, e: Event)
    requires ValidConfig(c) && !Exposed(After(c, run))
    ensures var s := After(c, run);
      Exposed(Step(c, s, e)) <==>
        || (e.Admit? && Enabled(s, e) && e.works && s.secret != "")
        || (e.SetSecret? && !e.revoke && e.secret != ""
            && exists token | token in s.sessions :: !HasStep(s, token, s.sessions[token]))
  {
    var s := After(c, run);
    InvRun(c, run);
    if Enabled(s, e) {
      if e.Admit? {
        AdmitExposes(s, e.p, e.token, e.works);
      } else if e.Store? {
        StoreExposesNothing(s, e.r, e.token, e.works);
      } else if e.SetSecret? {
        SecretExposes(c, s, e.secret, e.revoke);
      } else {
        if OfRequest(e) {
          RequestsAreCalm(c, s, e);
        } else if e.Verify? || e.Gate? || e.Create? {
          SignInsAreCalm(c, s, e);
        } else {
          OthersAreCalm(c, s, e);
        }
        CalmExposesNothing(s, Step(c, s, e));
      }
    }
  }

  lemma FreshIsNew(s: State, token: string)
    requires Accounted(s) && Fresh(s, token)
    ensures token !in s.sessions
  {
    forall live | live in s.sessions
      ensures live != token
    {
      if HasStep(s, live, s.sessions[live]) {
        var i :| Backs(s.logins, i, live, s.sessions[live]);
      } else {
        var q :| Admits(s.signIns, s.revoked, q, live, s.sessions[live]);
      }
    }
  }

  lemma AdmitExposes(s: State, p: nat, token: string, works: bool)
    requires Accounted(s) && Enabled(s, Admit(p, token, works)) && !Exposed(s)
    ensures Exposed(AdmitStep(s, p, token, works)) <==> works && s.secret != ""
  {
    var t := AdmitStep(s, p, token, works);
    FreshIsNew(s, token);
    if works && s.secret != "" {
      assert token in t.sessions && !HasStep(t, token, t.sessions[token]);
    }
  }

  lemma StoreExposesNothing(s: State, r: nat, token: string, works: bool)
    requires r < |s.requests| && s.requests[r].point.Holding? && !Exposed(s)
    ensures !Exposed(StoreStep(s, r, token, works))
  {
    var t := StoreStep(s, r, token, works);
    forall live | t.secret != "" && live in t.sessions
      ensures HasStep(t, live, t.sessions[live])
    {
      if live in s.sessions && t.sessions[live] == s.sessions[live] {
        var i :| Backs(s.logins, i, live, s.sessions[live]);
        assert Backs(t.logins, i, live, t.sessions[live]);
      } else {
        assert Backs(t.logins, |s.logins|, live, t.sessions[live]);
      }
    }
  }

  lemma SecretExposes(c: Config, s: State, secret: string, revoke: bool)
    ensures Exposed(Step(c, s, SetSecret(secret, revoke))) <==>
      !revoke && secret != "" && exists token | token in s.sessions :: !HasStep(s, token, s.sessions[token])
  {
    var t := Step(c, s, SetSecret(secret, revoke));
    assert forall token, persistent :: HasStep(t, token, persistent) <==> HasStep(s, token, persistent);
  }

  lemma CalmExposesNothing(s: State, t: State)
    requires Calm(s, t) && !Exposed(s)
    ensures !Exposed(t)
  {
    forall live | t.secret != "" && live in t.sessions
      ensures HasStep(t, live, t.sessions[live])
    {
      assert HasStep(s, live, s.sessions[live]);
    }
  }

  /** A sign-in that read no secret stores its session although one is set by then. */
  predicate Overtaken(s: State, e: Event) { e.Admit? && Enabled(s, e) && e.works && s.secret != "" }

  /** Every secret that is set revokes all sessions, as enabling two-step verification does. */
  predicate Revoking(run: seq<Event>) {
    forall i | 0 <= i < |run| && run[i].SetSecret? && run[i].secret != "" :: run[i].revoke
  }

  /** At no moment of the run is a session without a step live beside a secret. */
  ghost predicate NeverExposed(c: Config, run: seq<Event>) {
    !Exposed(After(c, run)) && (run == [] || NeverExposed(c, run[..|run| - 1]))
  }

  /** No sign-in of the run is overtaken. */
  predicate NoneOvertaken(c: Config, run: seq<Event>) {
    run == [] || (NoneOvertaken(c, run[..|run| - 1]) && !Overtaken(After(c, run[..|run| - 1]), run[|run| - 1]))
  }

  /**
   The exact condition, run by run: where setting a secret revokes the sessions, two-step verification
   covers every live session at every moment if and only if no sign-in stores its session beside a secret
   that was set after it had read none.
   */
  lemma {:induction false} NeverExposedExactly(c: Config, run: seq<Event>)
    requires ValidConfig(c) && Revoking(run)
    ensures NeverExposed(c, run) <==> NoneOvertaken(c, run)
  {
    if run != [] {
      var before := run[..|run| - 1];
      assert forall i | 0 <= i < |before| :: before[i] == run[i];
      NeverExposedExactly(c, before);
      if NeverExposed(c, before) {
        assert !Exposed(After(c, before));
        ExposedExactly(c, before, run[|run| - 1]);
      }
    }
  }

  /** An overtaken sign-in is one that read the secret in an earlier epoch than the one its session outlives. */
  lemma {:induction false} OvertakenReadEarlier(c: Config, run: seq<Event>, p: nat, token: string)
    requires ValidConfig(c)
    requires var s := After(c, run);
      s.secret != "" && token in s.sessions && Admits(s.signIns, s.revoked, p, token, s.sessions[token])
    ensures var s := After(c, run); s.signIns[p].epoch < s.epoch && !HasStep(s, token, s.sessions[token])
  {
    InvRun(c, run);
    assert GoodSignIn(After(c, run), After(c, run).signIns[p]);
  }

  /** Whenever authMu is free: at most 32 entries, all with attempts left, busy exactly while a request holds them. */
  lemma {:induction false} PreAuthIsBounded(c: Config, run: seq<Event>)
    requires ValidConfig(c)
    ensures var s := After(c, run);
      && |s.pre| <= MAX_PRE_AUTH
      && (forall key | key in s.pre :: s.pre[key].attempts < c.maxAttempts)
      && (forall key | key in s.pre :: s.pre[key].busy <==> exists i :: HeldBy(s.requests, i, key))
  {
    InvRun(c, run);
  }

  /** Once its entry has led to a session, no request for it can claim it again. */
  lemma {:induction false} SpentEntriesStayClosed(c: Config, run: seq<Event>, i: nat, now: int)
    requires ValidConfig(c) && i < |After(c, run).logins|
    ensures !Claimable(After(c, run).pre, After(c, run).logins[i].key, now, c.maxAttempts)
  {
    InvRun(c, run);
    assert Spent(After(c, run).pre, After(c, run).requests, After(c, run).logins[i]);
  }

  /**
   Between two resets of the secret the consumed steps strictly increase, none is consumed without a login,
   and each is the step of a code that matched a secret within one step of the request's clock reading.
   */
  lemma {:induction false} StepsIncrease(c: Config, run: seq<Event>, i: nat, j: nat)
    requires ValidConfig(c) && i < j < |After(c, run).logins|
    ensures var s := After(c, run);
      && (s.logins[i].epoch == s.logins[j].epoch ==> s.logins[i].step < s.logins[j].step)
      && (s.logins[j].epoch == s.epoch ==> s.logins[j].step <= s.lastStep)
      && (s.lastStep != -1 ==> exists k :: UsesUp(s.logins, k, s.epoch, s.lastStep))
      && GoodMatch(c, s.logins[j].now, s.logins[j].code, s.logins[j].step, s.logins[j].secret)
  {
    InvRun(c, run);
  }

  /** Logins of one epoch whose codes were matched at clock readings in [lo, hi]. */
  function LoginsIn(logins: seq<Login>, epoch: nat, lo: int, hi: int): nat {
    if logins == [] then 0
    else
      var last := logins[|logins| - 1];
      LoginsIn(logins[..|logins| - 1], epoch, lo, hi) + if last.epoch == epoch && lo <= last.now <= hi then 1 else 0
  }

  /** Distinct increasing steps up to `top`, each within one step of [lo, hi]. */
  lemma {:induction false} IncreasingStepsAreFew(c: Config, logins: seq<Login>, epoch: nat, lo: int, hi: int, top: int)
    requires lo <= hi && StepOf(lo) - 2 <= top <= StepOf(hi) + 1
    requires forall i, j | 0 <= i < j < |logins| && logins[i].epoch == logins[j].epoch :: logins[i].step < logins[j].step
    requires forall i | 0 <= i < |logins| :: GoodMatch(c, logins[i].now, logins[i].code, logins[i].step, logins[i].secret)
    requires forall i | 0 <= i < |logins| && logins[i].epoch == epoch && lo <= logins[i].now <= hi :: logins[i].step <= top
    ensures LoginsIn(logins, epoch, lo, hi) <= top - StepOf(lo) + 2
  {
    if logins != [] {
      var last := logins[|logins| - 1];
      if last.epoch == epoch && lo <= last.now <= hi {
        StepOfIsMonotone(lo, last.now);
        IncreasingStepsAreFew(c, logins[..|logins| - 1], epoch, lo, hi, last.step - 1);
      } else {
        IncreasingStepsAreFew(c, logins[..|logins| - 1], epoch, lo, hi, top);
      }
    }
  }

  /** Between two resets of the secret, few logins succeed at clock readings in any interval. */
  lemma {:induction false} LoginsAreBounded(c: Config, run: seq<Event>, epoch: nat, lo: int, hi: int)
    requires ValidConfig(c) && lo <= hi
    ensures LoginsIn(After(c, run).logins, epoch, lo, hi) <= StepOf(hi) - StepOf(lo) + 3
  {
    var s := After(c, run);
    InvRun(c, run);
    StepOfIsMonotone(lo, hi);
    forall i | 0 <= i < |s.logins| && lo <= s.logins[i].now <= hi
      ensures s.logins[i].step <= StepOf(hi) + 1
    {
      assert Genuine(c, s.issued, s.logins[i]);
      StepOfIsMonotone(s.logins[i].now, hi);
    }
    IncreasingStepsAreFew(c, s.logins, epoch, lo, hi, StepOf(hi) + 1);
  }
}
