/**
 Account pairing (internal/fivegencare/provider.go): the persisted pairing state, the email code and its lifetime,
 and the last good camera list. The lock is held over every operation, so operations are atomic; what the account
 server, the store and the clock answer is a parameter of each.
 */
module PairingProvider {
  import opened Wrappers
  import opened Sorting
  import opened HostPorts
  import opened Sequences

  datatype Challenge = Challenge(userID: int, domain: string)

  datatype Session = Session(userID: int, sessionToken: string, masterToken: string, sessionID: string, domain: string)

  datatype Device = Device(id: nat, udid: string, model: string, name: string, deviceToken: string, sid: string)

  /** The state file. A challenge without a date was written before challenges were dated. */
  datatype Stored = Stored(uuid: string, challenge: Option<Challenge>, challengeAt: Option<int>,
      session: Option<Session>, email: string)

  datatype Credentials = Credentials(
    deviceID: nat, udid: string, name: string, model: string, sid: string, deviceToken: string,
    controlHost: string, controlPort: int, targetPort: int, apiHost: string, apiPort: int,
    accessToken: string, rtspUser: string, rtspPass: string)

  datatype Error =
    | EmailRequired | CodeRequired | NoClient | NoStore | StoreFailed | UuidFailed
    | PairingRequired | NoChallenge | OtpFailed | LoginFailed | SessionRejected | DevicesFailed | NoCamera

  /** `space` says what trimming removes, `access` derives the access token of a device token. */
  datatype Config = Config(
    client: bool, store: bool, email: string, code: string, relayHost: string, autoRequest: bool,
    space: char -> bool, access: string -> string)

  /** What the account server was asked: codes sent, logins tried, lists fetched. */
  datatype Call =
    | Otp(email: string, answer: Option<Challenge>, dated: int)
    | Login(challenge: Challenge, challengeAt: Option<int>, checked: int, email: string, code: string,
        granted: Option<Session>)
    | List(session: Session)

  const CHALLENGE_TTL := 900
  const CONTROL_PORT := 8800
  const TARGET_PORT := 6667
  const DEVICE_API_PORT := 2288
  const DEFAULT_HOST := "primary.moto.5gencare.com"

  datatype Account = Account(disk: Stored, lastGood: seq<Credentials>, calls: seq<Call>)

  // ---- pieces ----

  /** challengeRemaining: how long the stored challenge is still worth trying, if it is. */
  function Remaining(s: Stored, now: int): (r: Option<int>)
    ensures r.Some? ==> s.challenge.Some? && r.value > 0
    ensures r.Some? <==> s.challenge.Some? && (s.challengeAt.Some? ==> now < s.challengeAt.value + CHALLENGE_TTL)
  {
    if s.challenge.None? then None
    else if s.challengeAt.None? then Some(CHALLENGE_TTL)
    else if CHALLENGE_TTL - (now - s.challengeAt.value) <= 0 then None
    else Some(CHALLENGE_TTL - (now - s.challengeAt.value))
  }

  function EmailOf(config: Config, s: Stored): string { if config.email != "" then config.email else s.email }

  function Trim(space: char -> bool, s: string): string
    decreases |s|
  {
    if s != "" && space(s[0]) then Trim(space, s[1..])
    else if s != "" && space(s[|s| - 1]) then Trim(space, s[..|s| - 1])
    else s
  }

  predicate Compatible(d: Device) { d.id != 0 && d.udid != "" && d.sid != "" && d.deviceToken != "" }

  function CameraOf(config: Config, session: Session, d: Device): Credentials {
    Credentials(d.id, d.udid, d.name, d.model, d.sid, d.deviceToken, config.relayHost, CONTROL_PORT, TARGET_PORT,
                if session.domain == "" then DEFAULT_HOST else session.domain, DEVICE_API_PORT,
                config.access(d.deviceToken), "Pascal", "5GenCare.com")
  }

  /** The compatible devices, in the order the server lists them. */
  function Cameras(config: Config, session: Session, devices: seq<Device>): seq<Credentials> {
    if devices == [] then []
    else
      var last := devices[|devices| - 1];
      Cameras(config, session, devices[..|devices| - 1])
          + (if Compatible(last) then [CameraOf(config, session, last)] else [])
  }

  const BY_UDID: (Credentials, Credentials) -> bool := (a: Credentials, b: Credentials) => TextLe(a.udid, b.udid)

  // ---- the operations ----

  /** An operation under way: the state it works on, the state on disk, what was asked, and how it failed. */
  datatype Flow = Flow(state: Stored, disk: Stored, calls: seq<Call>, error: Option<Error>)

  function Saved(f: Flow, saves: bool): Flow {
    if saves then f.(disk := f.state) else f.(error := Some(StoreFailed))
  }

  function Failing(f: Flow, error: Error): Flow { if f.error.Some? then f else f.(error := Some(error)) }

  /** What pairing meets: when it looks at the challenge, when a new code is dated, and the answers. */
  datatype PairAnswers = PairAnswers(looked: int, dated: int, otp: Option<Challenge>, login: Option<Session>,
      saves: bool)

  function Sent(f: Flow, email: string, answer: Option<Challenge>, dated: int): Flow {
    var asked := f.(calls := f.calls + [Otp(email, answer, dated)]);
    if answer.None? then Failing(asked, OtpFailed)
    else asked.(state := f.state.(challenge := answer, challengeAt := Some(dated), email := email))
  }

  function LoggedIn(f: Flow, email: string, code: string, looked: int, answer: Option<Session>): Flow
    requires f.state.challenge.Some?
  {
    var login := Login(f.state.challenge.value, f.state.challengeAt, looked, email, code, answer);
    var asked := f.(calls := f.calls + [login]);
    if answer.None? then Failing(asked, LoginFailed)
    else asked.(state := f.state.(session := answer, challenge := None, challengeAt := None))
  }

  function Pair(config: Config, f: Flow, a: PairAnswers): Flow
    requires f.error.None?
  {
    var email := EmailOf(config, f.state);
    if email == "" then Failing(Saved(f, a.saves), PairingRequired)
    else if Remaining(f.state, a.looked).None? then
      var dropped := f.(state := f.state.(challenge := None, challengeAt := None));
      if !config.autoRequest then Failing(Saved(dropped, a.saves), PairingRequired)
      else
        var sent := Sent(dropped, email, a.otp, a.dated);
        if sent.error.Some? then sent else Failing(Saved(sent, a.saves), PairingRequired)
    else if config.code == "" then Failing(f, PairingRequired)
    else
      var tried := LoggedIn(f, email, config.code, a.looked, a.login);
      if tried.error.Some? then tried else Saved(tried.(state := tried.state.(email := email)), a.saves)
  }

  datatype DevicesAnswer = Listed(devices: seq<Device>) | Rejected | Failed

  /** What a restore meets; `again` is for pairing anew after the session was rejected. */
  datatype Answers = Answers(loads: bool, uuid: Option<string>, pair: PairAnswers, devices: DevicesAnswer,
      again: PairAnswers)

  datatype Outcome = Outcome(account: Account, result: Result<seq<Credentials>, Error>)

  function Ended(p: Account, f: Flow, error: Error): Outcome {
    Outcome(p.(disk := f.disk, calls := f.calls), Err(if f.error.Some? then f.error.value else error))
  }

  function WithUuid(s: Stored, uuid: Option<string>): Option<Stored> {
    if s.uuid != "" then Some(s) else if uuid.None? then None else Some(s.(uuid := uuid.value))
  }

  function Restored(config: Config, p: Account, a: Answers): Outcome {
    var begun := Flow(p.disk, p.disk, p.calls, None);
    if !config.client then Ended(p, begun, NoClient)
    else if !config.store then Ended(p, begun, NoStore)
    else if !a.loads then Ended(p, begun, StoreFailed)
    else if WithUuid(p.disk, a.uuid).None? then Ended(p, begun, UuidFailed)
    else
      var loaded := begun.(state := WithUuid(p.disk, a.uuid).value);
      var paired := if loaded.state.session.None? then Pair(config, loaded, a.pair) else loaded;
      if paired.error.Some? || paired.state.session.None? then Ended(p, paired, PairingRequired)
      else ListDevices(config, p, paired, a)
  }

  /** The rest of a restore, with a session. */
  function ListDevices(config: Config, p: Account, f: Flow, a: Answers): Outcome
    requires f.error.None? && f.state.session.Some?
  {
    var session := f.state.session.value;
    var asked := f.(calls := f.calls + [List(session)]);
    match a.devices
    case Failed => Ended(p, asked, DevicesFailed)
    case Rejected =>
      var cleared := asked.(state := f.state.(session := None, challenge := None, challengeAt := None));
      Ended(p, Pair(config, cleared, a.again), SessionRejected)
    case Listed(devices) =>
      var cameras := Sort(BY_UDID, Cameras(config, session, devices));
      if cameras == [] then Ended(p, asked, NoCamera)
      else Outcome(p.(disk := asked.disk, calls := asked.calls, lastGood := cameras), Ok(cameras))
  }

  /** What a refresh gives its caller: the list, and the error beside it. */
  function Refreshed(config: Config, p: Account, a: Answers): (Account, seq<Credentials>, Option<Error>) {
    var outcome := Restored(config, p, a);
    if outcome.result.Ok? then (outcome.account, outcome.result.value, None)
    else (outcome.account, outcome.account.lastGood, Some(outcome.result.error))
  }

  datatype CodeAnswers = CodeAnswers(loads: bool, uuid: Option<string>, otp: Option<Challenge>, dated: int, saves: bool)

  function Requested(config: Config, p: Account, text: string, a: CodeAnswers): (Account, Option<Error>) {
    var email := Trim(config.space, text);
    if email == "" then (p, Some(EmailRequired))
    else if !a.loads then (p, Some(StoreFailed))
    else if WithUuid(p.disk, a.uuid).None? then (p, Some(UuidFailed))
    else
      var loaded := Flow(WithUuid(p.disk, a.uuid).value, p.disk, p.calls, None);
      var sent := Sent(loaded, email, a.otp, a.dated);
      var f := if sent.error.Some? then sent else Saved(sent, a.saves);
      (p.(disk := f.disk, calls := f.calls), f.error)
  }

  datatype SubmitAnswers = SubmitAnswers(loads: bool, looked: int, login: Option<Session>, saves: bool)

  function Submitted(config: Config, p: Account, text: string, a: SubmitAnswers): (Account, Option<Error>) {
    var code := Trim(config.space, text);
    if code == "" then (p, Some(CodeRequired))
    else if !a.loads then (p, Some(StoreFailed))
    else if Remaining(p.disk, a.looked).None? then (p, Some(NoChallenge))
    else
      var tried := LoggedIn(Flow(p.disk, p.disk, p.calls, None), EmailOf(config, p.disk), code, a.looked, a.login);
      var f := if tried.error.Some? then tried else Saved(tried, a.saves);
      (p.(disk := f.disk, calls := f.calls), f.error)
  }

  datatype Operation =
    | RequestCode(email: string, code: CodeAnswers)
    | SubmitCode(text: string, submit: SubmitAnswers)
    | Restore(answers: Answers)

  function Apply(config: Config, p: Account, op: Operation): Account {
    match op
    case RequestCode(email, a) => Requested(config, p, email, a).0
    case SubmitCode(text, a) => Submitted(config, p, text, a).0
    case Restore(a) => Restored(config, p, a).account
  }

  predicate Run(config: Config, p: Account, ops: seq<Operation>, end: Account)
    decreases |ops|
  {
    if ops == [] then p == end
    else Run(config, Apply(config, p, ops[0]), ops[1..], end)
  }

  // ---- every login is with a code that is still alive ----

  /** The challenge was there with this date at the start, or the server sent it then. */
  predicate Known(initial: Stored, calls: seq<Call>, challenge: Challenge, at: Option<int>) {
    || (initial.challenge == Some(challenge) && initial.challengeAt == at)
    || (at.Some?
        && exists i ::
             0 <= i < |calls| && calls[i].Otp? && calls[i].answer == Some(challenge) && calls[i].dated == at.value)
  }

  /** A login used a challenge known from the calls before it, undated or younger than the lifetime. */
  predicate LoginGood(initial: Stored, before: seq<Call>, call: Call) {
    call.Login? ==>
      && Known(initial, before, call.challenge, call.challengeAt)
      && (call.challengeAt.Some? ==> call.checked < call.challengeAt.value + CHALLENGE_TTL)
  }

  predicate CallsGood(initial: Stored, calls: seq<Call>) {
    forall i :: 0 <= i < |calls| ==> LoginGood(initial, calls[..i], calls[i])
  }

  predicate StoredGood(initial: Stored, calls: seq<Call>, s: Stored) {
    s.challenge.Some? ==> Known(initial, calls, s.challenge.value, s.challengeAt)
  }

  lemma KnownGrows(initial: Stored, calls: seq<Call>, call: Call, challenge: Challenge, at: Option<int>)
    requires Known(initial, calls, challenge, at)
    ensures Known(initial, calls + [call], challenge, at)
  {
    if !(initial.challenge == Some(challenge) && initial.challengeAt == at) {
      var i :| 0 <= i < |calls| && calls[i].Otp? && calls[i].answer == Some(challenge) && calls[i].dated == at.value;
      assert (calls + [call])[i] == calls[i];
    }
  }

  lemma CallsGrow(initial: Stored, calls: seq<Call>, call: Call)
    requires CallsGood(initial, calls) && LoginGood(initial, calls, call)
    ensures CallsGood(initial, calls + [call])
  {
    var more := calls + [call];
    forall i | 0 <= i < |more| ensures LoginGood(initial, more[..i], more[i]) {
      if i < |calls| {
        assert more[..i] == calls[..i];
      } else {
        assert more[..i] == calls;
      }
    }
  }

  predicate FlowGood(initial: Stored, f: Flow) {
    CallsGood(initial, f.calls) && StoredGood(initial, f.calls, f.state) && StoredGood(initial, f.calls, f.disk)
  }

  lemma SentGood(initial: Stored, f: Flow, email: string, answer: Option<Challenge>, dated: int)
    requires FlowGood(initial, f)
    ensures FlowGood(initial, Sent(f, email, answer, dated))
  {
    var call := Otp(email, answer, dated);
    CallsGrow(initial, f.calls, call);
    if f.state.challenge.Some? { KnownGrows(initial, f.calls, call, f.state.challenge.value, f.state.challengeAt); }
    if f.disk.challenge.Some? { KnownGrows(initial, f.calls, call, f.disk.challenge.value, f.disk.challengeAt); }
    if answer.Some? {
      assert (f.calls + [call])[|f.calls|] == call;
      assert Known(initial, f.calls + [call], answer.value, Some(dated));
    }
    hide CallsGood, Known;
  }

  lemma LoggedInGood(initial: Stored, f: Flow, email: string, code: string, looked: int, answer: Option<Session>)
    requires FlowGood(initial, f) && Remaining(f.state, looked).Some?
    ensures FlowGood(initial, LoggedIn(f, email, code, looked, answer))
  {
    var call := Login(f.state.challenge.value, f.state.challengeAt, looked, email, code, answer);
    CallsGrow(initial, f.calls, call);
    KnownGrows(initial, f.calls, call, f.state.challenge.value, f.state.challengeAt);
    if f.disk.challenge.Some? { KnownGrows(initial, f.calls, call, f.disk.challenge.value, f.disk.challengeAt); }
    hide CallsGood, Known;
  }

  lemma ListGood(initial: Stored, f: Flow, session: Session)
    requires FlowGood(initial, f)
    ensures FlowGood(initial, f.(calls := f.calls + [List(session)]))
  {
    CallsGrow(initial, f.calls, List(session));
    if f.state.challenge.Some? {
      KnownGrows(initial, f.calls, List(session), f.state.challenge.value, f.state.challengeAt);
    }
    if f.disk.challenge.Some? {
      KnownGrows(initial, f.calls, List(session), f.disk.challenge.value, f.disk.challengeAt);
    }
  }

  lemma PairGood(config: Config, initial: Stored, f: Flow, a: PairAnswers)
    requires FlowGood(initial, f) && f.error.None?
    ensures FlowGood(initial, Pair(config, f, a))
  {
    hide CallsGood, Known, Sent, LoggedIn;
    var email := EmailOf(config, f.state);
    if email != "" {
      if Remaining(f.state, a.looked).None? {
        SentGood(initial, f.(state := f.state.(challenge := None, challengeAt := None)), email, a.otp, a.dated);
      } else {
        LoggedInGood(initial, f, email, config.code, a.looked, a.login);
      }
    }
  }

  predicate AccountGood(initial: Stored, p: Account) { FlowGood(initial, Flow(p.disk, p.disk, p.calls, None)) }

  lemma RestoredGood(config: Config, initial: Stored, p: Account, a: Answers)
    requires AccountGood(initial, p)
    ensures AccountGood(initial, Restored(config, p, a).account)
  {
    hide CallsGood, Known, Pair, ListDevices;
    if config.client && config.store && a.loads && WithUuid(p.disk, a.uuid).Some? {
      var loaded := Flow(WithUuid(p.disk, a.uuid).value, p.disk, p.calls, None);
      if loaded.state.session.None? { PairGood(config, initial, loaded, a.pair); }
      var paired := if loaded.state.session.None? then Pair(config, loaded, a.pair) else loaded;
      if paired.error.None? && paired.state.session.Some? { ListDevicesGood(config, initial, p, paired, a); }
    }
  }

  lemma ListDevicesGood(config: Config, initial: Stored, p: Account, f: Flow, a: Answers)
    requires FlowGood(initial, f) && f.error.None? && f.state.session.Some?
    ensures AccountGood(initial, ListDevices(config, p, f, a).account)
  {
    hide CallsGood, Known, Pair, Cameras, Sort;
    var session := f.state.session.value;
    ListGood(initial, f, session);
    if a.devices.Rejected? {
      var cleared := f.state.(session := None, challenge := None, challengeAt := None);
      PairGood(config, initial, f.(calls := f.calls + [List(session)], state := cleared), a.again);
    }
  }

  lemma ApplyGood(config: Config, initial: Stored, p: Account, op: Operation)
    requires AccountGood(initial, p)
    ensures AccountGood(initial, Apply(config, p, op))
  {
    hide CallsGood, Known, Restored, Sent, LoggedIn, Trim;
    match op
    case RequestCode(text, a) =>
      if WithUuid(p.disk, a.uuid).Some? {
        var f := Flow(WithUuid(p.disk, a.uuid).value, p.disk, p.calls, None);
        SentGood(initial, f, Trim(config.space, text), a.otp, a.dated);
      }
    case SubmitCode(text, a) =>
      if Remaining(p.disk, a.looked).Some? {
        var f := Flow(p.disk, p.disk, p.calls, None);
        LoggedInGood(initial, f, EmailOf(config, p.disk), Trim(config.space, text), a.looked, a.login);
      }
    case Restore(a) => RestoredGood(config, initial, p, a);
  }

  lemma {:induction false} RunGood(config: Config, initial: Stored, p: Account, ops: seq<Operation>, end: Account)
    requires AccountGood(initial, p) && Run(config, p, ops, end)
    ensures AccountGood(initial, end)
    decreases |ops|
  {
    hide AccountGood, Apply;
    if ops == [] {
    } else {
      ApplyGood(config, initial, p, ops[0]);
      RunGood(config, initial, Apply(config, p, ops[0]), ops[1..], end);
    }
  }

  /**
   In every run, every login uses a challenge that was stored at the start or that the server had sent before it,
   and one that carries a date is younger than its lifetime when it is tried.
   */
  lemma LoginsUseLiveCodes(config: Config, initial: Stored, ops: seq<Operation>, end: Account, i: nat)
    requires Run(config, Account(initial, [], []), ops, end)
    requires i < |end.calls| && end.calls[i].Login?
    ensures Known(initial, end.calls[..i], end.calls[i].challenge, end.calls[i].challengeAt)
    ensures end.calls[i].challengeAt.Some? ==> end.calls[i].checked < end.calls[i].challengeAt.value + CHALLENGE_TTL
  {
    RunGood(config, initial, Account(initial, [], []), ops, end);
    assert LoginGood(initial, end.calls[..i], end.calls[i]);
  }

  // ---- codes ----

  /** A code is accepted exactly when there is one, its challenge is alive, the server takes it and it is saved. */
  lemma SubmitSucceedsExactly(config: Config, p: Account, text: string, a: SubmitAnswers)
    ensures Submitted(config, p, text, a).1.None? <==>
              Trim(config.space, text) != "" && a.loads && a.login.Some? && a.saves
              && p.disk.challenge.Some?
              && (p.disk.challengeAt.Some? ==> a.looked < p.disk.challengeAt.value + CHALLENGE_TTL)
    ensures Submitted(config, p, text, a).1.None? ==>
              Submitted(config, p, text, a).0.disk
                  == p.disk.(session := a.login, challenge := None, challengeAt := None)
  {
  }

  /** A code that is not accepted leaves the stored state as it was, so a typo costs a retry and not a new code. */
  lemma RejectedCodeChangesNothing(config: Config, p: Account, text: string, a: SubmitAnswers)
    requires Submitted(config, p, text, a).1.Some?
    ensures Submitted(config, p, text, a).0.disk == p.disk && Submitted(config, p, text, a).0.lastGood == p.lastGood
  {
  }

  /** Codes that were submitted and not accepted. */
  predicate Typos(config: Config, p: Account, ops: seq<Operation>)
    decreases |ops|
  {
    ops == [] ||
    (&& ops[0].SubmitCode? && Submitted(config, p, ops[0].text, ops[0].submit).1.Some?
     && Typos(config, Apply(config, p, ops[0]), ops[1..]))
  }

  lemma {:induction false} TyposChangeNothing(config: Config, p: Account, ops: seq<Operation>, end: Account)
    requires Run(config, p, ops, end) && Typos(config, p, ops)
    ensures end.disk == p.disk
    decreases |ops|
  {
    hide Submitted;
    if ops == [] {
    } else {
      RejectedCodeChangesNothing(config, p, ops[0].text, ops[0].submit);
      TyposChangeNothing(config, Apply(config, p, ops[0]), ops[1..], end);
    }
  }

  /**
   After a code was sent and saved, and after any number of codes that were not accepted, a code pairs exactly when it
   is not blank, the server takes it, the state can be loaded and saved, and the sent code is younger than its lifetime.
   */
  lemma SentCodePairsInTime(
      config: Config, p: Account, text: string, a: CodeAnswers, typos: seq<Operation>, q: Account, code: string,
      b: SubmitAnswers)
    requires Requested(config, p, text, a).1.None?
    requires Run(config, Requested(config, p, text, a).0, typos, q)
    requires Typos(config, Requested(config, p, text, a).0, typos)
    ensures var (after, error) := Submitted(config, q, code, b);
            && (error.None? <==>
                Trim(config.space, code) != "" && b.loads && b.login.Some? && b.saves
                && b.looked < a.dated + CHALLENGE_TTL)
            && (error.None? ==>
                  && after.disk.session == b.login && after.disk.challenge.None?
                  && after.disk.email == Trim(config.space, text)
                  && |after.calls| == |q.calls| + 1 && after.calls[|q.calls|].Login?
                  && after.calls[|q.calls|].challenge == a.otp.value)
  {
    var sent := Requested(config, p, text, a).0;
    assert sent.disk.challenge == a.otp && sent.disk.challengeAt == Some(a.dated)
        && sent.disk.email == Trim(config.space, text);
    TyposChangeNothing(config, sent, typos, q);
    SubmitSucceedsExactly(config, q, code, b);
    hide Trim, Requested, Run, Typos;
  }

  /** What a restore asks of the server beyond what was asked before. */
  function NewCalls(p: Account, after: Account): seq<Call>
    requires |p.calls| <= |after.calls|
  {
    after.calls[|p.calls|..]
  }

  predicate Sends(calls: seq<Call>) { exists i :: 0 <= i < |calls| && calls[i].Otp? }

  predicate LogsIn(calls: seq<Call>) { exists i :: 0 <= i < |calls| && calls[i].Login? }

  lemma PairCalls(config: Config, f: Flow, a: PairAnswers)
    requires f.error.None?
    ensures f.calls <= Pair(config, f, a).calls
    ensures |Pair(config, f, a).calls| <= |f.calls| + 1
    ensures !config.autoRequest && |Pair(config, f, a).calls| > |f.calls| ==> Pair(config, f, a).calls[|f.calls|].Login?
    ensures Remaining(f.state, a.looked).None? && |Pair(config, f, a).calls| > |f.calls| ==>
          Pair(config, f, a).calls[|f.calls|].Otp?
    ensures Pair(config, f, a).error.None? ==>
          Remaining(f.state, a.looked).Some? && Pair(config, f, a).state.session.Some?
  {
  }

  /** Where the Web UI owns pairing, a restore never sends a code by itself. */
  lemma NoCodeUnasked(config: Config, p: Account, a: Answers)
    requires !config.autoRequest
    ensures p.calls <= Restored(config, p, a).account.calls && !Sends(NewCalls(p, Restored(config, p, a).account))
  {
    RestoredCalls(config, p, a);
  }

  /** A stored session that the server accepts needs no code: nothing is sent and nothing tried. */
  lemma SessionNeedsNoCode(config: Config, p: Account, a: Answers)
    requires p.disk.session.Some? && !a.devices.Rejected?
    ensures p.calls <= Restored(config, p, a).account.calls
    ensures var after := Restored(config, p, a).account;
            && after.disk == p.disk
            && forall i :: |p.calls| <= i < |after.calls| ==> after.calls[i] == List(p.disk.session.value)
  {
    hide Pair, Cameras, Sort;
  }

  /** A run in which no restore meets a rejection. */
  predicate Peaceful(ops: seq<Operation>) {
    forall op :: op in ops && op.Restore? ==> !op.answers.devices.Rejected?
  }

  /** From the call with number `from` on, lists with this session, and codes if some may be sent. */
  predicate ListsOnly(calls: seq<Call>, from: nat, session: Session, codes: bool) {
    forall i :: from <= i < |calls| ==> calls[i] == List(session) || (codes && calls[i].Otp?)
  }

  lemma RequestKeepsSession(config: Config, p: Account, text: string, a: CodeAnswers)
    ensures var after := Requested(config, p, text, a).0;
            after.disk.session == p.disk.session && p.calls <= after.calls
            && forall i :: |p.calls| <= i < |after.calls| ==> after.calls[i].Otp?
  {
    hide Trim;
  }

  lemma SubmitKeepsPaired(config: Config, p: Account, text: string, a: SubmitAnswers)
    ensures var after := Submitted(config, p, text, a).0;
            p.calls <= after.calls && (p.disk.session.Some? ==> after.disk.session.Some?)
  {
    hide Trim;
  }

  lemma PeacefulStep(config: Config, p: Account, op: Operation)
    requires p.disk.session.Some? && (op.Restore? ==> !op.answers.devices.Rejected?)
    ensures var q := Apply(config, p, op);
            && q.disk.session.Some? && p.calls <= q.calls
            && (!op.SubmitCode? ==>
                  && q.disk.session == p.disk.session
                  && ListsOnly(q.calls, |p.calls|, p.disk.session.value, op.RequestCode?))
            && (op.Restore? ==> q.disk == p.disk)
  {
    hide Restored, Requested, Submitted;
    match op
    case RequestCode(text, a) => RequestKeepsSession(config, p, text, a);
    case SubmitCode(text, a) => SubmitKeepsPaired(config, p, text, a);
    case Restore(a) => SessionNeedsNoCode(config, p, a);
  }

  /**
   While no session is rejected a paired account stays paired. Codes requested meanwhile change nothing about its
   session, and no login is tried; only a code submitted can replace it. Restores alone change nothing that is stored.
   */
  lemma {:induction false} PairedStaysPaired(config: Config, p: Account, ops: seq<Operation>, end: Account)
    requires p.disk.session.Some? && Run(config, p, ops, end) && Peaceful(ops)
    ensures end.disk.session.Some? && p.calls <= end.calls
    ensures (forall op :: op in ops ==> !op.SubmitCode?) ==>
              end.disk.session == p.disk.session && ListsOnly(end.calls, |p.calls|, p.disk.session.value, true)
    ensures (forall op :: op in ops ==> op.Restore?) ==>
              end.disk == p.disk && ListsOnly(end.calls, |p.calls|, p.disk.session.value, false)
    decreases |ops|
  {
    if ops == [] {
    } else {
      hide Apply;
      assert ops[0] in ops;
      var next := Apply(config, p, ops[0]);
      PeacefulStep(config, p, ops[0]);
      PairedStaysPaired(config, next, ops[1..], end);
      assert forall i :: |p.calls| <= i < |next.calls| ==> end.calls[i] == next.calls[i];
    }
  }

  /** What pairing anew stores after a rejection: everything but a code that could not be sent. */
  predicate RejectionIsStored(config: Config, p: Account, again: PairAnswers) {
    again.saves && (EmailOf(config, p.disk) != "" && config.autoRequest ==> again.otp.Some?)
  }

  /**
   A session the server rejected is answered with what pairing needs. It is off the disk exactly when the outcome
   could be saved and a code that had to be sent was; otherwise everything stored is as it was. Where it is gone the
   next restore lists cameras with a session only if it has just logged in for it.
   */
  lemma RejectedSessionIsGone(config: Config, p: Account, a: Answers, b: Answers)
    requires p.disk.session.Some? && a.devices.Rejected? && config.client && config.store && a.loads
    requires WithUuid(p.disk, a.uuid).Some?
    ensures var (after, result) := (Restored(config, p, a).account, Restored(config, p, a).result);
            && result.Err? && result.error in {PairingRequired, StoreFailed, OtpFailed}
            && (result.error == PairingRequired <==> RejectionIsStored(config, p, a.again))
            && (after.disk.session.None? <==> RejectionIsStored(config, p, a.again))
            && (after.disk.session.Some? ==> after.disk == p.disk)
    ensures var after := Restored(config, p, a).account;
            after.disk.session.None? ==>
              var calls := Restored(config, after, b).account.calls;
              forall i :: |after.calls| <= i < |calls| && calls[i].List? ==>
                i > |after.calls| && calls[i - 1].Login? && calls[i - 1].granted == Some(calls[i].session)
  {
    hide Cameras, Sort;
    RejectionIsAnswered(config, p, a);
    hide ListDevices;
    if Restored(config, p, a).account.disk.session.None? {
      NextListsAfterLogin(config, Restored(config, p, a).account, b);
    }
  }

  lemma RejectionIsAnswered(config: Config, p: Account, a: Answers)
    requires p.disk.session.Some? && a.devices.Rejected? && config.client && config.store && a.loads
    requires WithUuid(p.disk, a.uuid).Some?
    ensures var (after, result) := (Restored(config, p, a).account, Restored(config, p, a).result);
            && result.Err? && result.error in {PairingRequired, StoreFailed, OtpFailed}
            && (result.error == PairingRequired <==> RejectionIsStored(config, p, a.again))
            && (after.disk.session.None? <==> RejectionIsStored(config, p, a.again))
            && (after.disk.session.Some? ==> after.disk == p.disk)
  {
    hide Cameras, Sort;
  }

  lemma NextListsAfterLogin(config: Config, p: Account, b: Answers)
    requires p.disk.session.None?
    ensures var calls := Restored(config, p, b).account.calls;
            forall i :: |p.calls| <= i < |calls| && calls[i].List? ==>
              i > |p.calls| && calls[i - 1].Login? && calls[i - 1].granted == Some(calls[i].session)
  {
    hide Pair, ListDevices;
    if config.client && config.store && b.loads && WithUuid(p.disk, b.uuid).Some? {
      var loaded := Flow(WithUuid(p.disk, b.uuid).value, p.disk, p.calls, None);
      PairGrants(config, loaded, b.pair);
      var paired := Pair(config, loaded, b.pair);
      if paired.error.None? && paired.state.session.Some? { ListsOnce(config, p, paired, b); }
    }
  }

  lemma PairGrants(config: Config, f: Flow, a: PairAnswers)
    requires f.error.None? && f.state.session.None?
    ensures f.calls <= Pair(config, f, a).calls
    ensures forall i :: |f.calls| <= i < |Pair(config, f, a).calls| ==> !Pair(config, f, a).calls[i].List?
    ensures Pair(config, f, a).error.None? ==>
              && |Pair(config, f, a).calls| == |f.calls| + 1 && Pair(config, f, a).calls[|f.calls|].Login?
              && Pair(config, f, a).calls[|f.calls|].granted == Pair(config, f, a).state.session
  {
  }

  lemma ListsOnce(config: Config, p: Account, f: Flow, a: Answers)
    requires f.error.None? && f.state.session.Some?
    ensures var calls := ListDevices(config, p, f, a).account.calls;
            && f.calls <= calls && |calls| > |f.calls| && calls[|f.calls|] == List(f.state.session.value)
            && forall i :: |f.calls| < i < |calls| ==> !calls[i].List?
  {
    hide Pair, Cameras, Sort;
    var asked := f.(calls := f.calls + [List(f.state.session.value)]);
    PairGrants(config, asked.(state := f.state.(session := None, challenge := None, challengeAt := None)), a.again);
  }

  lemma RestoredCalls(config: Config, p: Account, a: Answers)
    ensures p.calls <= Restored(config, p, a).account.calls
    ensures !config.autoRequest ==> forall i :: |p.calls| <= i < |Restored(config, p, a).account.calls| ==>
          !Restored(config, p, a).account.calls[i].Otp?
    ensures p.disk.session.None? && Remaining(p.disk, a.pair.looked).None? ==>
              forall i :: |p.calls| <= i < |Restored(config, p, a).account.calls| ==>
                  !Restored(config, p, a).account.calls[i].Login?
  {
    hide Pair, ListDevices;
    if config.client && config.store && a.loads && WithUuid(p.disk, a.uuid).Some? {
      var loaded := Flow(WithUuid(p.disk, a.uuid).value, p.disk, p.calls, None);
      if loaded.state.session.None? { PairCalls(config, loaded, a.pair); }
      var paired := if loaded.state.session.None? then Pair(config, loaded, a.pair) else loaded;
      if paired.error.None? && paired.state.session.Some? { ListDevicesCalls(config, p, paired, a); }
    }
  }

  lemma ListDevicesCalls(config: Config, p: Account, f: Flow, a: Answers)
    requires f.error.None? && f.state.session.Some?
    ensures var calls := ListDevices(config, p, f, a).account.calls;
            && f.calls <= calls
            && (!config.autoRequest ==> forall i :: |f.calls| <= i < |calls| ==> !calls[i].Otp?)
            && forall i :: |f.calls| <= i < |calls| ==> !calls[i].Login?
  {
    hide Pair, Cameras, Sort;
    var asked := f.(calls := f.calls + [List(f.state.session.value)]);
    PairCalls(config, asked.(state := f.state.(session := None, challenge := None, challengeAt := None)), a.again);
  }

  /**
   A challenge that has aged out is never tried by a restore. Where an address is known it is off the disk once
   anything was saved; without one it stays there, as dead as it is.
   */
  lemma DeadCodeIsDropped(config: Config, p: Account, a: Answers)
    requires p.disk.session.None? && p.disk.challenge.Some? && Remaining(p.disk, a.pair.looked).None?
    ensures p.calls <= Restored(config, p, a).account.calls && !LogsIn(NewCalls(p, Restored(config, p, a).account))
    ensures var after := Restored(config, p, a).account;
            if EmailOf(config, p.disk) == "" then
              after.disk.challenge == p.disk.challenge && after.disk.challengeAt == p.disk.challengeAt
            else
              after.disk == p.disk || after.disk.challenge.None? || after.disk.challengeAt == Some(a.pair.dated)
  {
    RestoredCalls(config, p, a);
    hide Cameras, Sort;
  }

  // ---- what an unpaired account does ----

  function AddressOf(config: Config, s: Stored): string { if config.email == "" then s.email else config.email }

  /** A challenge is stored that is undated or was sent less than fifteen minutes ago. */
  predicate Live(s: Stored, now: int) {
    s.challenge.Some? && (s.challengeAt.None? || now - s.challengeAt.value < 15 * 60)
  }

  /** What a restore of an unpaired account has to do first. */
  datatype Need = NeedsAddress | NeedsCode | SendsCode | NeedsEntry | LogsItIn

  function NeedOf(config: Config, s: Stored, now: int): Need {
    if AddressOf(config, s) == "" then NeedsAddress
    else if Live(s, now) then (if config.code == "" then NeedsEntry else LogsItIn)
    else if config.autoRequest then SendsCode
    else NeedsCode
  }

  /** Nothing was asked of the server, and the error is that of pairing, or of the store if it could not save. */
  predicate OnlyTells(p: Account, outcome: Outcome, saved: bool) {
    outcome.account.calls == p.calls && outcome.account.disk.session.None?
    && outcome.result == Err(if saved then PairingRequired else StoreFailed)
  }

  /**
   A restore of an unpaired account, by what it has to do: without an address or a live code it only says what pairing
   needs, or sends a code itself where that is set; with a live code it waits for its entry or logs in with the set
   one, and lists devices exactly if the login was granted and saved.
   */
  lemma UnpairedRestoreDecides(config: Config, p: Account, a: Answers)
    requires config.client && config.store && a.loads && (p.disk.uuid != "" || a.uuid.Some?) && p.disk.session.None?
    ensures var outcome := Restored(config, p, a);
            var email := AddressOf(config, p.disk);
            var n := |p.calls|;
            match NeedOf(config, p.disk, a.pair.looked)
            case NeedsAddress => OnlyTells(p, outcome, a.pair.saves)
            case NeedsCode => OnlyTells(p, outcome, a.pair.saves)
            case NeedsEntry => OnlyTells(p, outcome, true) && outcome.account.disk == p.disk
            case SendsCode =>
              && outcome.account.calls == p.calls + [Otp(email, a.pair.otp, a.pair.dated)]
              && outcome.account.disk.session.None?
              && outcome.result == Err(if a.pair.otp.None? then OtpFailed
                                       else if a.pair.saves then PairingRequired else StoreFailed)
              && (a.pair.otp.Some? && a.pair.saves ==>
                    && outcome.account.disk.challenge == a.pair.otp && outcome.account.disk.email == email
                    && outcome.account.disk.challengeAt == Some(a.pair.dated))
            case LogsItIn =>
              && n < |outcome.account.calls| && outcome.account.calls[..n] == p.calls
              && outcome.account.calls[n]
                 == Login(p.disk.challenge.value, p.disk.challengeAt, a.pair.looked, email, config.code, a.pair.login)
              && (if a.pair.login.Some? && a.pair.saves
                  then n + 1 < |outcome.account.calls| && outcome.account.calls[n + 1] == List(a.pair.login.value)
                  else (|outcome.account.calls| == n + 1 && outcome.account.disk == p.disk
                        && outcome.result == Err(if a.pair.login.None? then LoginFailed else StoreFailed)))
              && (a.pair.login.Some? && a.pair.saves && !a.devices.Rejected? ==>
                    && outcome.account.disk.session == a.pair.login && outcome.account.disk.challenge.None?
                    && outcome.account.disk.challengeAt.None? && outcome.account.disk.email == email)
  {
    hide Cameras, Sort, Pair, ListDevices, AddressOf, Live;
    var loaded := Flow(WithUuid(p.disk, a.uuid).value, p.disk, p.calls, None);
    SameNeed(config, p.disk, loaded.state, a.pair.looked);
    if NeedOf(config, p.disk, a.pair.looked).LogsItIn? {
      if a.pair.login.Some? && a.pair.saves {
        LogsItInThen(config, p, loaded, a);
      } else {
        LoginFails(config, loaded, a.pair);
      }
    } else {
      PairTells(config, loaded, a.pair);
    }
  }

  /** The identifier of this device has nothing to do with what is needed. */
  lemma SameNeed(config: Config, s: Stored, t: Stored, now: int)
    requires t == s.(uuid := t.uuid)
    ensures NeedOf(config, t, now) == NeedOf(config, s, now) && AddressOf(config, t) == AddressOf(config, s)
  {
  }

  lemma PairTells(config: Config, f: Flow, a: PairAnswers)
    requires f.error.None? && f.state.session.None? && f.disk.session.None?
    requires !NeedOf(config, f.state, a.looked).LogsItIn?
    ensures var g := Pair(config, f, a);
            var email := AddressOf(config, f.state);
            && g.disk.session.None? && g.error.Some?
            && (match NeedOf(config, f.state, a.looked)
                case NeedsEntry => g.calls == f.calls && g.error == Some(PairingRequired) && g.disk == f.disk
                case SendsCode =>
                  && g.calls == f.calls + [Otp(email, a.otp, a.dated)]
                  && g.error == Some(if a.otp.None? then OtpFailed
                                     else if a.saves then PairingRequired else StoreFailed)
                  && (a.otp.Some? && a.saves ==>
                        g.disk.challenge == a.otp && g.disk.email == email && g.disk.challengeAt == Some(a.dated))
                case _ => g.calls == f.calls && g.error == Some(if a.saves then PairingRequired else StoreFailed))
  {
  }

  lemma LoginFails(config: Config, f: Flow, a: PairAnswers)
    requires f.error.None? && NeedOf(config, f.state, a.looked).LogsItIn? && !(a.login.Some? && a.saves)
    ensures var g := Pair(config, f, a);
            && g.disk == f.disk && g.error == Some(if a.login.None? then LoginFailed else StoreFailed)
            && g.calls == f.calls + [Login(f.state.challenge.value, f.state.challengeAt, a.looked,
                                           AddressOf(config, f.state), config.code, a.login)]
  {
  }

  lemma LogsItInThen(config: Config, p: Account, loaded: Flow, a: Answers)
    requires loaded.error.None? && NeedOf(config, loaded.state, a.pair.looked).LogsItIn?
    requires a.pair.login.Some? && a.pair.saves
    ensures var paired := Pair(config, loaded, a.pair);
            var outcome := ListDevices(config, p, paired, a);
            var n := |loaded.calls|;
            && paired.error.None? && paired.state.session == a.pair.login
            && n + 1 < |outcome.account.calls| && outcome.account.calls[..n] == loaded.calls
            && outcome.account.calls[n] == Login(loaded.state.challenge.value, loaded.state.challengeAt, a.pair.looked,
                                                 AddressOf(config, loaded.state), config.code, a.pair.login)
            && outcome.account.calls[n + 1] == List(a.pair.login.value)
            && (!a.devices.Rejected? ==>
                  && outcome.account.disk.session == a.pair.login && outcome.account.disk.challenge.None?
                  && outcome.account.disk.challengeAt.None?
                  && outcome.account.disk.email == AddressOf(config, loaded.state))
  {
    hide Cameras, Sort;
    var paired := Pair(config, loaded, a.pair);
    hide Pair;
    ListsFirst(config, p, paired, a);
  }

  lemma ListsFirst(config: Config, p: Account, f: Flow, a: Answers)
    requires f.error.None? && f.state.session.Some?
    ensures var outcome := ListDevices(config, p, f, a);
            && f.calls + [List(f.state.session.value)] <= outcome.account.calls
            && (!a.devices.Rejected? ==> outcome.account.disk == f.disk)
  {
    hide Cameras, Sort, Pair;
    ListsOnce(config, p, f, a);
  }

  // ---- the identifier of this device ----

  lemma StepKeepsUuid(config: Config, p: Account, op: Operation)
    requires p.disk.uuid != ""
    ensures Apply(config, p, op).disk.uuid == p.disk.uuid
    ensures op.RequestCode? ==> Requested(config, p, op.email, op.code).1 != Some(UuidFailed)
    ensures op.Restore? && Restored(config, p, op.answers).result.Err? ==>
              Restored(config, p, op.answers).result.error != UuidFailed
  {
    hide Cameras, Sort, Trim, Pair;
    match op
    case Restore(a) => RestoreKeepsUuid(config, p, a);
    case _ =>
  }

  lemma PairKeepsUuid(config: Config, f: Flow, a: PairAnswers)
    requires f.error.None?
    ensures var g := Pair(config, f, a);
            && g.state.uuid == f.state.uuid && (g.disk.uuid == f.state.uuid || g.disk == f.disk)
            && g.error != Some(UuidFailed)
  {
  }

  lemma RestoreKeepsUuid(config: Config, p: Account, a: Answers)
    requires p.disk.uuid != ""
    ensures Restored(config, p, a).account.disk.uuid == p.disk.uuid
    ensures Restored(config, p, a).result.Err? ==> Restored(config, p, a).result.error != UuidFailed
  {
    hide Cameras, Sort, Pair;
    var loaded := Flow(p.disk, p.disk, p.calls, None);
    PairKeepsUuid(config, loaded, a.pair);
    var paired := if loaded.state.session.None? then Pair(config, loaded, a.pair) else loaded;
    if paired.error.None? && paired.state.session.Some? {
      var asked := paired.(calls := paired.calls + [List(paired.state.session.value)],
                           state := paired.state.(session := None, challenge := None, challengeAt := None));
      PairKeepsUuid(config, asked, a.again);
    }
  }

  /** The identifier of this device, once stored, never changes and is never missed. */
  lemma {:induction false} UuidStays(config: Config, p: Account, ops: seq<Operation>, end: Account)
    requires p.disk.uuid != "" && Run(config, p, ops, end)
    ensures end.disk.uuid == p.disk.uuid
    decreases |ops|
  {
    hide Apply;
    if ops == [] {
    } else {
      StepKeepsUuid(config, p, ops[0]);
      UuidStays(config, Apply(config, p, ops[0]), ops[1..], end);
    }
  }

  /** Where there is none one is made, and without one nothing is done. */
  lemma UuidIsNeeded(config: Config, p: Account, a: Answers, text: string, b: CodeAnswers)
    requires p.disk.uuid == "" && config.client && config.store && a.loads && b.loads
    ensures a.uuid.None? ==> Restored(config, p, a) == Outcome(p, Err(UuidFailed))
    ensures Trim(config.space, text) != "" && b.uuid.None? ==>
              Requested(config, p, text, b) == (p, Some(UuidFailed))
    ensures a.uuid.Some? && Restored(config, p, a).account.disk != p.disk ==>
              Restored(config, p, a).account.disk.uuid == a.uuid.value
    ensures b.uuid.Some? && Requested(config, p, text, b).1.None? ==>
              Requested(config, p, text, b).0.disk.uuid == b.uuid.value
  {
    hide Cameras, Sort, Trim;
  }

  // ---- what the server is asked ----

  predicate AllSpace(space: char -> bool, s: string) { forall i :: 0 <= i < |s| ==> space(s[i]) }

  /** Trimming takes off exactly the space at both ends. */
  lemma {:induction false} TrimsTheEnds(space: char -> bool, s: string) returns (head: string, tail: string)
    ensures s == head + Trim(space, s) + tail && AllSpace(space, head) && AllSpace(space, tail)
    ensures var core := Trim(space, s); core != "" ==> !space(core[0]) && !space(core[|core| - 1])
    decreases |s|
  {
    var core := Trim(space, s);
    if s != "" && space(s[0]) {
      var rest;
      rest, tail := TrimsTheEnds(space, s[1..]);
      head := [s[0]] + rest;
      hide Trim;
      assert s == [s[0]] + s[1..];
      JoinedBefore([s[0]], rest, core, tail);
    } else if s != "" && space(s[|s| - 1]) {
      var rest;
      head, rest := TrimsTheEnds(space, s[..|s| - 1]);
      tail := rest + [s[|s| - 1]];
      hide Trim;
      assert s == s[..|s| - 1] + [s[|s| - 1]];
      JoinedBehind(head, core, rest, [s[|s| - 1]]);
    } else {
      head, tail := "", "";
      assert s == "" + s + "";
    }
  }

  /** From the call with number `from` on, codes go to this address, and logins are from it and with this code. */
  predicate CallsFor(calls: seq<Call>, from: nat, email: string, code: string) {
    forall i :: from <= i < |calls| ==>
      && (calls[i].Otp? ==> calls[i].email == email)
      && (calls[i].Login? ==> calls[i].email == email && calls[i].code == code)
  }

  lemma PairAsks(config: Config, f: Flow, a: PairAnswers)
    requires f.error.None?
    ensures f.calls <= Pair(config, f, a).calls
    ensures CallsFor(Pair(config, f, a).calls, |f.calls|,
                     if config.email != "" then config.email else f.state.email, config.code)
  {
  }

  /** A restore sends codes to the configured address, or the stored one, and logs in from it with the set code. */
  lemma RestoreAsksForTheAddress(config: Config, p: Account, a: Answers)
    ensures p.calls <= Restored(config, p, a).account.calls
    ensures CallsFor(Restored(config, p, a).account.calls, |p.calls|,
                     if config.email != "" then config.email else p.disk.email, config.code)
  {
    hide Pair, Cameras, Sort;
    if config.client && config.store && a.loads && WithUuid(p.disk, a.uuid).Some? {
      var loaded := Flow(WithUuid(p.disk, a.uuid).value, p.disk, p.calls, None);
      PairAsks(config, loaded, a.pair);
      var paired := if loaded.state.session.None? then Pair(config, loaded, a.pair) else loaded;
      if paired.error.None? && paired.state.session.Some? {
        var asked := paired.(calls := paired.calls + [List(paired.state.session.value)],
                             state := paired.state.(session := None, challenge := None, challengeAt := None));
        if loaded.state.session.None? { PairKeepsAddress(config, loaded, a.pair); }
        PairAsks(config, asked, a.again);
      }
    }
  }

  lemma PairKeepsAddress(config: Config, f: Flow, a: PairAnswers)
    requires f.error.None? && Pair(config, f, a).error.None?
    ensures config.email == "" ==> Pair(config, f, a).state.email == f.state.email
  {
  }

  /**
   A request succeeds exactly with an address, a state that loads and saves, an identifier of this device and a code
   that was sent; it says what is missing first, asks the server only when nothing else is, and stores only a success.
   */
  lemma RequestSucceedsIff(config: Config, p: Account, text: string, a: CodeAnswers)
    ensures var (after, error) := Requested(config, p, text, a);
            var identified := p.disk.uuid != "" || a.uuid.Some?;
            && (error == Some(EmailRequired) <==> Trim(config.space, text) == "")
            && (error == Some(UuidFailed) <==> Trim(config.space, text) != "" && a.loads && !identified)
            && (error == Some(OtpFailed) <==> Trim(config.space, text) != "" && a.loads && identified && a.otp.None?)
            && (error.None? <==> Trim(config.space, text) != "" && a.loads && identified && a.otp.Some? && a.saves)
            && |after.calls| == |p.calls| + (if Trim(config.space, text) != "" && a.loads && identified then 1 else 0)
            && (error.Some? ==> after.disk == p.disk)
            && (error.None? ==> after.disk.challenge == a.otp && after.disk.challengeAt == Some(a.dated))
  {
    hide Trim;
  }

  /** A requested code goes to the address given, which is stored with it. */
  lemma RequestedForTheAddress(config: Config, p: Account, text: string, a: CodeAnswers)
    ensures p.calls <= Requested(config, p, text, a).0.calls
    ensures CallsFor(Requested(config, p, text, a).0.calls, |p.calls|, Trim(config.space, text), "")
    ensures Requested(config, p, text, a).1.None? ==>
              var disk := Requested(config, p, text, a).0.disk;
              disk.email == Trim(config.space, text) && disk.session == p.disk.session
  {
    hide Trim;
  }

  /** A submitted code that is not accepted is answered with the first thing that stood in its way. */
  lemma SubmitSaysWhy(config: Config, p: Account, text: string, a: SubmitAnswers)
    ensures var error := Submitted(config, p, text, a).1;
            var coded, live := Trim(config.space, text) != "", Live(p.disk, a.looked);
            && (error == Some(CodeRequired) <==> !coded)
            && (error == Some(NoChallenge) <==> coded && a.loads && !live)
            && (error == Some(LoginFailed) <==> coded && a.loads && live && a.login.None?)
            && (error == Some(StoreFailed) <==> coded && (!a.loads || (live && a.login.Some? && !a.saves)))
            && (error.None? <==> coded && a.loads && live && a.login.Some? && a.saves)
  {
    hide Trim;
  }

  /** A submitted code is tried from the configured address, or the stored one. */
  lemma SubmittedForTheAddress(config: Config, p: Account, text: string, a: SubmitAnswers)
    ensures p.calls <= Submitted(config, p, text, a).0.calls
    ensures CallsFor(Submitted(config, p, text, a).0.calls, |p.calls|,
                     if config.email != "" then config.email else p.disk.email, Trim(config.space, text))
  {
    hide Trim;
  }

  // ---- cameras ----

  /** The camera is this device: its own fields under their own names, the account's hosts, and the fixed numbers. */
  predicate IsCameraOf(config: Config, session: Session, d: Device, c: Credentials) {
    && c.deviceID == d.id && c.udid == d.udid && c.name == d.name && c.model == d.model && c.sid == d.sid
    && c.deviceToken == d.deviceToken && c.accessToken == config.access(d.deviceToken)
    && c.controlHost == config.relayHost && c.controlPort == 8800 && c.targetPort == 6667
    && c.apiHost == (if session.domain != "" then session.domain else "primary.moto.5gencare.com") && c.apiPort == 2288
    && c.rtspUser == "Pascal" && c.rtspPass == "5GenCare.com"
  }

  /** A device can be used when it has a number, an identifier, a session and a token. */
  predicate CanBeUsed(d: Device) { d.id != 0 && d.udid != "" && d.sid != "" && d.deviceToken != "" }

  /** The cameras are exactly the devices that can be used, one for one. */
  lemma {:induction false} CamerasAreTheDevices(config: Config, session: Session, devices: seq<Device>)
    returns (used: seq<Device>)
    ensures forall d :: multiset(used)[d] == if CanBeUsed(d) then multiset(devices)[d] else 0
    ensures |Cameras(config, session, devices)| == |used|
    ensures forall i :: 0 <= i < |used| ==> IsCameraOf(config, session, used[i], Cameras(config, session, devices)[i])
  {
    if devices == [] {
      used := [];
    } else {
      var rest, last := devices[..|devices| - 1], devices[|devices| - 1];
      var before := CamerasAreTheDevices(config, session, rest);
      assert devices == rest + [last];
      used := if CanBeUsed(last) then before + [last] else before;
    }
  }

  lemma {:induction false} CamerasAreCompatible(config: Config, session: Session, devices: seq<Device>)
    ensures forall c :: c in Cameras(config, session, devices) <==>
          exists d :: d in devices && Compatible(d) && c == CameraOf(config, session, d)
  {
    hide Compatible, CameraOf;
    if devices == [] {
    } else {
      var rest, last := devices[..|devices| - 1], devices[|devices| - 1];
      CamerasAreCompatible(config, session, rest);
      assert devices == rest + [last];
    }
  }

  lemma ByUDIDIsPreorder()
    ensures TotalPreorder(BY_UDID)
  {
    forall a, b ensures BY_UDID(a, b) || BY_UDID(b, a) { TextTotal(a.udid, b.udid); }
    forall a, b, c | BY_UDID(a, b) && BY_UDID(b, c) ensures BY_UDID(a, c) { TextTransitive(a.udid, b.udid, c.udid); }
  }

  predicate GoodList(cameras: seq<Credentials>) {
    cameras == [] || (Sorted(BY_UDID, cameras) && forall c :: c in cameras ==>
        c.deviceID != 0 && c.udid != "" && c.sid != "" && c.deviceToken != "")
  }

  /** A restore that succeeds gives exactly the compatible devices, sorted by identifier, and keeps them. */
  lemma RestoreGivesTheDevices(config: Config, p: Account, a: Answers)
    requires Restored(config, p, a).result.Ok?
    ensures var (after, cameras) := (Restored(config, p, a).account, Restored(config, p, a).result.value);
            && cameras != [] && GoodList(cameras) && after.lastGood == cameras && a.devices.Listed?
            && after.disk.session.Some?
            && multiset(cameras) == multiset(Cameras(config, after.disk.session.value, a.devices.devices))
  {
    hide Pair, Sort, Cameras;
    var loaded := Flow(WithUuid(p.disk, a.uuid).value, p.disk, p.calls, None);
    if loaded.state.session.None? { PairSaves(config, loaded, a.pair); }
    var paired := if loaded.state.session.None? then Pair(config, loaded, a.pair) else loaded;
    ListIsGood(config, paired.state.session.value, a.devices.devices);
  }

  lemma PairSaves(config: Config, f: Flow, a: PairAnswers)
    requires f.error.None? && Pair(config, f, a).error.None?
    ensures Pair(config, f, a).disk == Pair(config, f, a).state && Pair(config, f, a).state.session.Some?
  {
  }

  lemma ListIsGood(config: Config, session: Session, devices: seq<Device>)
    ensures GoodList(Sort(BY_UDID, Cameras(config, session, devices)))
    ensures multiset(Sort(BY_UDID, Cameras(config, session, devices))) == multiset(Cameras(config, session, devices))
  {
    hide Sort, Cameras, TextLe;
    var cameras := Cameras(config, session, devices);
    ByUDIDIsPreorder();
    SortSorts(BY_UDID, cameras);
    SortKeepsElements(BY_UDID, cameras);
    SortPermutes(BY_UDID, cameras);
    CamerasAreCompatible(config, session, devices);
  }

  /** A paired account gets its list exactly if the server lists a device that can be used. */
  lemma PairedRestoreSucceedsIff(config: Config, p: Account, a: Answers)
    requires config.client && config.store && a.loads && p.disk.session.Some? && (p.disk.uuid != "" || a.uuid.Some?)
    ensures Restored(config, p, a).result.Ok? <==>
              a.devices.Listed? && exists d :: d in a.devices.devices && CanBeUsed(d)
    ensures a.devices.Failed? ==> Restored(config, p, a).result == Err(DevicesFailed)
    ensures a.devices.Listed? && Restored(config, p, a).result.Err? ==> Restored(config, p, a).result == Err(NoCamera)
    ensures |p.calls| < |Restored(config, p, a).account.calls|
    ensures Restored(config, p, a).account.calls[|p.calls|] == List(p.disk.session.value)
  {
    hide Pair, Cameras, Sort;
    var loaded := Flow(WithUuid(p.disk, a.uuid).value, p.disk, p.calls, None);
    ListsOnce(config, p, loaded, a);
    hide CanBeUsed;
    if a.devices.Listed? { SomeCameraIff(config, p.disk.session.value, a.devices.devices); }
  }

  lemma SomeCameraIff(config: Config, session: Session, devices: seq<Device>)
    ensures Sort(BY_UDID, Cameras(config, session, devices)) != [] <==> exists d :: d in devices && CanBeUsed(d)
  {
    hide Cameras, Sort, CanBeUsed, IsCameraOf;
    var used := CamerasAreTheDevices(config, session, devices);
    SortPermutes(BY_UDID, Cameras(config, session, devices));
    SameSize(Sort(BY_UDID, Cameras(config, session, devices)), Cameras(config, session, devices));
    if d :| d in devices && CanBeUsed(d) { assert multiset(used)[d] > 0; }
    if used != [] { assert multiset(used)[used[0]] > 0 && multiset(devices)[used[0]] > 0; }
  }

  lemma SameSize(a: seq<Credentials>, b: seq<Credentials>)
    requires multiset(a) == multiset(b)
    ensures |a| == |b|
  {
    assert |multiset(a)| == |a| && |multiset(b)| == |b|;
  }

  /** What a restore needs before it can do anything. */
  lemma RestoreNeeds(config: Config, p: Account, a: Answers)
    ensures !config.client ==> Restored(config, p, a) == Outcome(p, Err(NoClient))
    ensures config.client && !config.store ==> Restored(config, p, a) == Outcome(p, Err(NoStore))
    ensures config.client && config.store && !a.loads ==> Restored(config, p, a) == Outcome(p, Err(StoreFailed))
  {
    hide Pair, Cameras, Sort;
  }

  /** The lists of the restores that succeeded, in order. */
  function Successes(config: Config, p: Account, ops: seq<Operation>): seq<seq<Credentials>>
    decreases |ops|
  {
    if ops == [] then []
    else
      (if ops[0].Restore? && Restored(config, p, ops[0].answers).result.Ok?
       then [Restored(config, p, ops[0].answers).result.value] else [])
      + Successes(config, Apply(config, p, ops[0]), ops[1..])
  }

  lemma StepLastGood(config: Config, p: Account, op: Operation)
    ensures Apply(config, p, op).lastGood
         == if op.Restore? && Restored(config, p, op.answers).result.Ok?
            then Restored(config, p, op.answers).result.value else p.lastGood
  {
    hide Pair, Sort, Cameras, Trim;
  }

  /** What the provider falls back to is the list of the last restore that succeeded. */
  lemma {:induction false} LastGoodIsTheLast(config: Config, p: Account, ops: seq<Operation>, end: Account)
    requires Run(config, p, ops, end)
    ensures var lists := Successes(config, p, ops);
            end.lastGood == if lists == [] then p.lastGood else lists[|lists| - 1]
    decreases |ops|
  {
    hide Apply, Restored;
    if ops == [] {
    } else {
      StepLastGood(config, p, ops[0]);
      LastGoodIsTheLast(config, Apply(config, p, ops[0]), ops[1..], end);
    }
  }

  lemma {:induction false} LastGoodStaysGood(config: Config, p: Account, ops: seq<Operation>, end: Account)
    requires GoodList(p.lastGood) && Run(config, p, ops, end)
    ensures GoodList(end.lastGood)
    decreases |ops|
  {
    hide Apply, Restored, GoodList;
    if ops == [] {
    } else {
      StepLastGood(config, p, ops[0]);
      if ops[0].Restore? && Restored(config, p, ops[0].answers).result.Ok? {
        RestoreGivesTheDevices(config, p, ops[0].answers);
      }
      LastGoodStaysGood(config, Apply(config, p, ops[0]), ops[1..], end);
    }
  }

  /** After any run, a refresh that fails gives the list of the last restore that succeeded, sorted, with its error. */
  lemma FailedRefreshGivesTheLastGoodList(
      config: Config, initial: Stored, ops: seq<Operation>, p: Account, a: Answers)
    requires Run(config, Account(initial, [], []), ops, p) && Restored(config, p, a).result.Err?
    ensures var (after, cameras, error) := Refreshed(config, p, a);
            var lists := Successes(config, Account(initial, [], []), ops);
            && error == Some(Restored(config, p, a).result.error) && after.lastGood == cameras && GoodList(cameras)
            && cameras == if lists == [] then [] else lists[|lists| - 1]
  {
    StepLastGood(config, p, Restore(a));
    LastGoodIsTheLast(config, Account(initial, [], []), ops, p);
    LastGoodStaysGood(config, Account(initial, [], []), ops, p);
    hide Restored, Successes, Run, GoodList;
  }

  // ---- the object ----

  /** The Provider with its last good list; `disk` is its store's file and `calls` what its client was asked. */
  class Provider {
    const config: Config
    var disk: Stored
    var lastGood: seq<Credentials>
    var calls: seq<Call>

    constructor (config: Config, disk: Stored)
      ensures this.config == config && View() == Account(disk, [], [])
    {
      this.config, this.disk, lastGood, calls := config, disk, [], [];
    }

    function View(): Account
      reads this
    {
      Account(disk, lastGood, calls)
    }

    method RequestCode(text: string, a: CodeAnswers) returns (error: Option<Error>)
      modifies this`disk, this`calls
      ensures (View(), error) == Requested(config, old(View()), text, a)
    {
      var email := Trim(config.space, text);
      if email == "" { return Some(EmailRequired); }
      if !a.loads { return Some(StoreFailed); }
      var state := disk;
      if state.uuid == "" {
        if a.uuid.None? { return Some(UuidFailed); }
        state := state.(uuid := a.uuid.value);
      }
      calls := calls + [Otp(email, a.otp, a.dated)];
      if a.otp.None? { return Some(OtpFailed); }
      state := state.(challenge := a.otp, challengeAt := Some(a.dated), email := email);
      if !a.saves { return Some(StoreFailed); }
      disk := state;
      return None;
    }

    method SubmitCode(text: string, a: SubmitAnswers) returns (error: Option<Error>)
      modifies this`disk, this`calls
      ensures (View(), error) == Submitted(config, old(View()), text, a)
    {
      var code := Trim(config.space, text);
      if code == "" { return Some(CodeRequired); }
      if !a.loads { return Some(StoreFailed); }
      var state := disk;
      if Remaining(state, a.looked).None? { return Some(NoChallenge); }
      calls := calls
        + [Login(state.challenge.value, state.challengeAt, a.looked, EmailOf(config, state), code, a.login)];
      if a.login.None? { return Some(LoginFailed); }
      state := state.(session := a.login, challenge := None, challengeAt := None);
      if !a.saves { return Some(StoreFailed); }
      disk := state;
      return None;
    }

    /** pair, on the state a restore has loaded. */
    method PairState(loaded: Stored, a: PairAnswers) returns (state: Stored, error: Option<Error>)
      modifies this`disk, this`calls
      ensures Flow(state, disk, calls, error) == Pair(config, Flow(loaded, old(disk), old(calls), None), a)
    {
      state := loaded;
      var email := EmailOf(config, state);
      if email == "" {
        if !a.saves { return state, Some(StoreFailed); }
        disk := state;
        return state, Some(PairingRequired);
      }
      if Remaining(state, a.looked).None? {
        state := state.(challenge := None, challengeAt := None);
        if !config.autoRequest {
          if !a.saves { return state, Some(StoreFailed); }
          disk := state;
          return state, Some(PairingRequired);
        }
        calls := calls + [Otp(email, a.otp, a.dated)];
        if a.otp.None? { return state, Some(OtpFailed); }
        state := state.(challenge := a.otp, challengeAt := Some(a.dated), email := email);
        if !a.saves { return state, Some(StoreFailed); }
        disk := state;
        return state, Some(PairingRequired);
      }
      if config.code == "" { return state, Some(PairingRequired); }
      calls := calls + [Login(state.challenge.value, state.challengeAt, a.looked, email, config.code, a.login)];
      if a.login.None? { return state, Some(LoginFailed); }
      state := state.(session := a.login, challenge := None, challengeAt := None, email := email);
      if !a.saves { return state, Some(StoreFailed); }
      disk := state;
      return state, None;
    }

    method CompatibleCameras(session: Session, devices: seq<Device>) returns (cameras: seq<Credentials>)
      ensures cameras == Cameras(config, session, devices)
    {
      cameras := [];
      for i := 0 to |devices|
        invariant cameras == Cameras(config, session, devices[..i])
      {
        assert devices[..i + 1][..i] == devices[..i];
        var device := devices[i];
        if device.id == 0 || device.udid == "" || device.sid == "" || device.deviceToken == "" { continue; }
        cameras := cameras + [CameraOf(config, session, device)];
      }
      assert devices[..|devices|] == devices;
    }

    method Restore(a: Answers) returns (result: Result<seq<Credentials>, Error>)
      modifies this
      ensures Outcome(View(), result) == Restored(config, old(View()), a)
    {
      hide Pair, Cameras, Sort;
      if !config.client { return Err(NoClient); }
      if !config.store { return Err(NoStore); }
      if !a.loads { return Err(StoreFailed); }
      var state := disk;
      if state.uuid == "" {
        if a.uuid.None? { return Err(UuidFailed); }
        state := state.(uuid := a.uuid.value);
      }
      var error: Option<Error> := None;
      if state.session.None? {
        state, error := PairState(state, a.pair);
        if error.Some? { return Err(error.value); }
        if state.session.None? { return Err(PairingRequired); }
      }
      var session := state.session.value;
      calls := calls + [List(session)];
      match a.devices {
        case Failed => return Err(DevicesFailed);
        case Rejected =>
          state, error := PairState(state.(session := None, challenge := None, challengeAt := None), a.again);
          return Err(if error.Some? then error.value else SessionRejected);
        case Listed(devices) =>
          var listed := CompatibleCameras(session, devices);
          var cameras := Sort(BY_UDID, listed);
          if |cameras| == 0 { return Err(NoCamera); }
          lastGood := cameras;
          return Ok(cameras);
      }
    }

    method Refresh(a: Answers) returns (cameras: seq<Credentials>, error: Option<Error>)
      modifies this
      ensures (View(), cameras, error) == Refreshed(config, old(View()), a)
    {
      var result := Restore(a);
      if result.Ok? { return result.value, None; }
      return lastGood, Some(result.error);
    }
  }
}
