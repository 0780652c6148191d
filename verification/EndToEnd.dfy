/** Exec against the fake server (client.go, kasapitest/server.go), the client's steps and the server's
    answers run together: Exec returns what the handler itself answers, retries included. */
module EndToEnd {
  import opened Text
  import opened Printer
  import opened Soap
  import opened Caller
  import CallerLaws
  import opened FakeServer

  /** The client's configuration, the server's, the PIN the user gives, the handler, and what the server
      echoes for parameters. */
  datatype Site = Site(cfg: Config, setup: Setup, pin: string, handler: Handler, echo: Params -> seq<Entry>)

  /** The client, and how often the handler was called. */
  datatype Joint = Joint(run: Run, handled: nat)

  /** The server's answer to a request. */
  function Respond(site: Site, request: Request, handled: nat): Reply {
    match request
    case AuthRequest(authType, authData, pin, _) => ReplyTo(ServeAuth(site.setup, authType, authData, pin))
    case ApiRequest(token, action, params) =>
      ReplyTo(ServeApi(site.setup, token, action, site.echo(params), site.handler(handled, action, params)))
  }

  /** The request in flight is the last event. */
  function InFlight(run: Run): Request
    requires run.hist != [] && run.hist[|run.hist| - 1].Sent?
  {
    run.hist[|run.hist| - 1].request
  }

  predicate Flying(run: Run) {
    && (run.me.pc.AuthFlight? || run.me.pc.ApiFlight?)
    && run.hist != [] && run.hist[|run.hist| - 1].Sent?
  }

  /** What the client meets next: nothing fails and no context ends. */
  function Meets(site: Site, j: Joint): Input {
    if Flying(j.run) then Arrived(Respond(site, InFlight(j.run), j.handled))
    else if j.run.me.pc.AskPin? then Pin(site.pin)
    else Go
  }

  predicate Handles(site: Site, run: Run) {
    Flying(run) && InFlight(run).ApiRequest? && InFlight(run).token == site.setup.token
  }

  function JointStep(site: Site, j: Joint, now: int): Joint {
    var out := Step(site.cfg, j.run.core, j.run.me, now, Meets(site, j));
    Joint(Run(out.core, out.me, j.run.hist + Heard(out.said)), j.handled + if Handles(site, j.run) then 1 else 0)
  }

  /** A joined run of a call, with its steps at the given times. */
  ghost predicate IsJoined(site: Site, js: seq<Joint>, times: seq<int>) {
    && |js| == |times| + 1
    && js[0] == Joint(Run(js[0].run.core, Begin(js[0].run.me.op), []), 0)
    && forall i | 0 <= i < |times| :: js[i + 1] == JointStep(site, js[i], times[i])
  }

  predicate AcceptsPassword(site: Site, password: string) {
    Accepts(site.setup, site.cfg.authType, AuthData(site.cfg, password))
  }

  /** With the same injective digest on both sides the password is accepted exactly if it is the server's,
      however it is sent. */
  lemma SamePassword(site: Site, password: string)
    requires site.cfg.digest == site.setup.digest
    requires forall a: string, b: string :: site.cfg.digest(a) == site.cfg.digest(b) ==> a == b
    ensures AcceptsPassword(site, password) <==> password == site.setup.password
  {
  }

  /** The credentials match: the password as sent, the PIN if one is asked for, and a token that reaches the
      client as it is, being trimmed and without markup. */
  predicate Matching(site: Site, password: string) {
    && AcceptsPassword(site, password)
    && (site.cfg.twoFactor ==> site.pin != "")
    && (site.setup.otp != "" ==> site.cfg.twoFactor && site.pin == site.setup.otp)
    && PlainToken(site.setup)
  }

  // ----- what the handler says -----

  /** The n-th answer of the handler, to the action and the parameters of the call. */
  function Seen(site: Site, op: Op, n: nat): FakeServer.Seen
    requires op.Exec?
  {
    See(site.setup, op.action, site.handler(n, op.action, op.params))
  }

  function ResultOf(seen: FakeServer.Seen): Result {
    match seen
    case Value(v) => Ok(v)
    case Refusal(code) => Failed(ApiError(code))
  }

  /** How a call ends, and after how many calls of the handler. */
  datatype Outcome = Outcome(result: Result, handled: nat)

  /** The outcome from the n-th answer on. A stale token is one the server never issued. */
  function Expect(site: Site, op: Op, n: nat, stale: bool, reauthed: bool, flood: nat): Outcome
    requires op.Exec?
    requires flood <= MAX_FLOOD_RETRIES
    decreases (if reauthed then 0 else 1) + MAX_FLOOD_RETRIES - flood, 1
  {
    if stale then AfterFault(site, op, "session_expired", n, reauthed, flood)
    else match Seen(site, op, n)
      case Value(v) => Outcome(Ok(v), n + 1)
      case Refusal(code) => AfterFault(site, op, code, n + 1, reauthed, flood)
  }

  function AfterFault(site: Site, op: Op, code: string, n: nat, reauthed: bool, flood: nat): Outcome
    requires op.Exec?
    requires flood <= MAX_FLOOD_RETRIES
    decreases (if reauthed then 0 else 1) + MAX_FLOOD_RETRIES - flood, 0
  {
    if code == FLOOD_PROTECTION then
      if flood < MAX_FLOOD_RETRIES then Expect(site, op, n, false, reauthed, flood + 1)
      else Outcome(Failed(ApiError(code)), n)
    else if IsSessionError(code) && !reauthed then Expect(site, op, n, false, true, flood)
    else Outcome(Failed(ApiError(code)), n)
  }

  // ----- the run -----

  /** The call is on the way to an outcome, the handler having been called n times. */
  predicate OnTheWay(site: Site, core: Core, me: Local, n: nat, end: Outcome) {
    && me.op.Exec? && me.flood <= MAX_FLOOD_RETRIES && Matching(site, core.password)
    && var token, server := core.token, site.setup.token;
       match me.pc
       case Ensure | Recheck => (token == "" || token == server) && Expect(site, me.op, n, false, me.reauthed, me.flood) == end
       case AskPin => site.cfg.twoFactor && Expect(site, me.op, n, false, me.reauthed, me.flood) == end
       case AuthWindow(pin) => pin == SentPin(site) && Expect(site, me.op, n, false, me.reauthed, me.flood) == end
       case AuthReady(pin) => pin == SentPin(site) && Expect(site, me.op, n, false, me.reauthed, me.flood) == end
       case AuthFlight => Expect(site, me.op, n, false, me.reauthed, me.flood) == end
       case AuthStore(t) => t == server && Expect(site, me.op, n, false, me.reauthed, me.flood) == end
       case ApiWindow | ApiReady | ApiFlight => Expect(site, me.op, n, token != server, me.reauthed, me.flood) == end
       case ApiFlood(ret) => end.result.Ok? && Outcome(ResponseResult(ret), n) == end
       case ApiExtend(info) => Outcome(Ok(info), n) == end
       case Returned(r) =>
         if r.Ok? then Outcome(r, n) == end
         else r.error.ApiError? && (token == server || EndsSession(r.error.code))
              && AfterFault(site, me.op, r.error.code, n, me.reauthed, me.flood) == end
       case Unlock(r) => Outcome(r, n) == end
       case Leaving(r) => Outcome(r, n) == end
       case Done(r) => Outcome(r, n) == end
       case _ => false
  }

  predicate EndsSession(code: string) {
    code != FLOOD_PROTECTION && IsSessionError(code)
  }

  function SentPin(site: Site): string {
    if site.cfg.twoFactor then site.pin else ""
  }

  function SentAuth(site: Site, core: Core): Request {
    AuthCall(site.cfg, core.password, SentPin(site))
  }

  /** The request in flight is the client's own. */
  predicate FlightKept(site: Site, run: Run) {
    && (run.me.pc.AuthFlight? || run.me.pc.ApiFlight? ==> Flying(run))
    && (run.me.pc.AuthFlight? ==> InFlight(run) == SentAuth(site, run.core))
    && (run.me.pc.ApiFlight? ==> InFlight(run) == ApiCall(run.core, run.me.op))
  }

  predicate Good(site: Site, j: Joint, end: Outcome) {
    OnTheWay(site, j.run.core, j.run.me, j.handled, end) && FlightKept(site, j.run)
  }

  /** What one step does to the client and to the count. */
  function After(site: Site, j: Joint, now: int): Out {
    Step(site.cfg, j.run.core, j.run.me, now, Meets(site, j))
  }

  predicate KeepsTo(site: Site, j: Joint, out: Out, end: Outcome) {
    && OnTheWay(site, out.core, out.me, j.handled + (if Handles(site, j.run) then 1 else 0), end)
    && (out.me.pc.AuthFlight? ==>
          out.said.Says? && out.said.event.Sent? && out.said.event.request == SentAuth(site, out.core))
    && (out.me.pc.ApiFlight? ==>
          out.said.Says? && out.said.event.Sent? && out.said.event.request == ApiCall(out.core, out.me.op))
  }

  lemma EnsureKeeps(site: Site, j: Joint, now: int, end: Outcome)
    requires Good(site, j, end)
    requires j.run.me.pc.Recheck? || j.run.me.pc.Ensure?
    ensures KeepsTo(site, j, After(site, j, now), end)
  {
    hide Expect, Matching;
  }

  lemma PinKeeps(site: Site, j: Joint, now: int, end: Outcome)
    requires Good(site, j, end)
    requires j.run.me.pc.AskPin?
    ensures KeepsTo(site, j, After(site, j, now), end)
  {
    hide Expect, PlainToken, AcceptsPassword;
  }

  lemma WindowKeeps(site: Site, j: Joint, now: int, end: Outcome)
    requires Good(site, j, end)
    requires j.run.me.pc.AuthWindow? || j.run.me.pc.ApiWindow?
    ensures KeepsTo(site, j, After(site, j, now), end)
  {
    hide Expect, Matching;
  }

  lemma ReadyKeeps(site: Site, j: Joint, now: int, end: Outcome)
    requires Good(site, j, end)
    requires j.run.me.pc.AuthReady? || j.run.me.pc.ApiReady?
    ensures KeepsTo(site, j, After(site, j, now), end)
  {
    hide Expect, Matching;
  }

  lemma StoreKeeps(site: Site, j: Joint, now: int, end: Outcome)
    requires Good(site, j, end)
    requires j.run.me.pc.AuthStore?
    ensures KeepsTo(site, j, After(site, j, now), end)
  {
    hide Expect, Matching;
  }

  lemma LeaveKeeps(site: Site, j: Joint, now: int, end: Outcome)
    requires Good(site, j, end)
    requires j.run.me.pc.Unlock? || j.run.me.pc.Leaving? || j.run.me.pc.Done?
    ensures KeepsTo(site, j, After(site, j, now), end)
  {
    hide Expect, Matching;
  }

  lemma AuthFlightKeeps(site: Site, j: Joint, now: int, end: Outcome)
    requires Good(site, j, end) && j.run.me.pc.AuthFlight?
    ensures KeepsTo(site, j, After(site, j, now), end)
  {
    hide ReplyTo, ServeAuth, Trim, Expect;
    PlainTokenArrives(site.setup);
    AuthReply(site.setup, site.cfg.authType, AuthData(site.cfg, j.run.core.password), SentPin(site));
  }

  lemma RespondApi(site: Site, core: Core, op: Op, n: nat)
    requires op.Exec?
    ensures var reply := Respond(site, ApiCall(core, op), n);
      if core.token != site.setup.token then reply == Fault("session_expired")
      else match Seen(site, op, n)
        case Refusal(code) => reply == Fault(code)
        case Value(v) => reply.Decoded? && ResponseResult(reply.value) == Ok(v)
    ensures EndsSession("session_expired")
  {
    hide ReplyTo, ServeApi, ResponseResult, DelaySeconds, Trim, See;
    ApiReply(site.cfg, site.setup, core.token, op.action, site.echo(op.params), site.handler(n, op.action, op.params));
  }

  lemma ApiFlightKeeps(site: Site, j: Joint, now: int, end: Outcome)
    requires Good(site, j, end) && j.run.me.pc.ApiFlight?
    ensures KeepsTo(site, j, After(site, j, now), end)
  {
    hide Respond, ResponseResult, Seen, EndsSession, AfterFault, ApiCall, Matching;
    assert ApiCall(j.run.core, j.run.me.op).ApiRequest? && ApiCall(j.run.core, j.run.me.op).token == j.run.core.token by {
      TokenSent(j.run.core, j.run.me.op);
    }
    RespondApi(site, j.run.core, j.run.me.op, j.handled);
  }

  lemma TokenSent(core: Core, op: Op)
    ensures ApiCall(core, op).ApiRequest? && ApiCall(core, op).token == core.token
  {
  }

  lemma AnswerKeeps(site: Site, j: Joint, now: int, end: Outcome)
    requires Good(site, j, end)
    requires j.run.me.pc.ApiFlood? || j.run.me.pc.ApiExtend?
    ensures KeepsTo(site, j, After(site, j, now), end)
  {
    hide Matching, Expect, AfterFault, Delay;
  }

  lemma SettleKeeps(site: Site, j: Joint, now: int, end: Outcome)
    requires Good(site, j, end) && j.run.me.pc.Returned?
    ensures KeepsTo(site, j, After(site, j, now), end)
  {
    hide Matching, Expect, IsSessionError;
  }

  lemma Keeps(site: Site, j: Joint, now: int, end: Outcome)
    requires Good(site, j, end)
    ensures KeepsTo(site, j, After(site, j, now), end)
  {
    hide KeepsTo, After, Matching, Expect, AfterFault;
    match j.run.me.pc
    case Ensure | Recheck => EnsureKeeps(site, j, now, end);
    case AskPin => PinKeeps(site, j, now, end);
    case AuthWindow(_) | ApiWindow => WindowKeeps(site, j, now, end);
    case AuthReady(_) | ApiReady => ReadyKeeps(site, j, now, end);
    case AuthFlight => AuthFlightKeeps(site, j, now, end);
    case AuthStore(_) => StoreKeeps(site, j, now, end);
    case ApiFlight => ApiFlightKeeps(site, j, now, end);
    case ApiFlood(_) | ApiExtend(_) => AnswerKeeps(site, j, now, end);
    case Returned(_) => SettleKeeps(site, j, now, end);
    case Unlock(_) | Leaving(_) | Done(_) => LeaveKeeps(site, j, now, end);
  }

  lemma StepGood(site: Site, j: Joint, now: int, end: Outcome)
    ensures Good(site, j, end) ==> Good(site, JointStep(site, j, now), end)
  {
    hide Step, Meets, OnTheWay;
    if Good(site, j, end) {
      Keeps(site, j, now, end);
    }
  }

  /** The token the call starts with is not the server's and is still trusted. */
  predicate Stale(site: Site, core: Core, now: int) {
    core.token != "" && core.token != site.setup.token && now < core.tokenExp
  }

  /** A call that can start: credentials that match, an action, and a free slot. */
  predicate Startable(site: Site, run: Run) {
    run.me.op.Exec? && run.me.op.action != "" && !run.core.busy && Matching(site, run.core.password)
  }

  /** What the handler's answers decide for a joined run of at least three steps. */
  function EndOf(site: Site, js: seq<Joint>, times: seq<int>): Outcome
    requires |js| >= 3 && |times| >= 3 && js[0].run.me.op.Exec?
  {
    Expect(site, js[0].run.me.op, 0, Stale(site, js[0].run.core, times[2]), false, 0)
  }

  lemma {:induction false} OnTrack(site: Site, js: seq<Joint>, times: seq<int>, k: nat)
    requires IsJoined(site, js, times) && Startable(site, js[0].run) && 3 <= k < |js|
    ensures Good(site, js[k], EndOf(site, js, times))
  {
    hide Good, JointStep, Expect, Stale, Matching;
    if k == 3 {
      Entered(site, js, times);
      FirstGood(site, js[0].run.core, js[0].run.me.op, times[2]);
    } else {
      OnTrack(site, js, times, k - 1);
      StepGood(site, js[k - 1], times[k - 1], EndOf(site, js, times));
    }
  }

  /** The first two steps take the slot. */
  lemma Entered(site: Site, js: seq<Joint>, times: seq<int>)
    requires IsJoined(site, js, times) && |js| > 2
    requires js[0].run.me.op.Exec? && js[0].run.me.op.action != "" && !js[0].run.core.busy
    ensures js[1].run.me.pc.Lock?
    ensures js[2] == Joint(Run(js[0].run.core.(busy := true), Begin(js[0].run.me.op).(pc := Ensure), []), 0)
  {
    assert js[0 + 1] == JointStep(site, js[0], times[0]) && js[1 + 1] == JointStep(site, js[1], times[1]);
  }

  lemma FirstGood(site: Site, core: Core, op: Op, now: int)
    requires op.Exec? && Matching(site, core.password)
    ensures var j := Joint(Run(core.(busy := true), Begin(op).(pc := Ensure), []), 0);
      Good(site, JointStep(site, j, now), Expect(site, op, 0, Stale(site, core, now), false, 0))
  {
    hide Expect, AfterFault, Matching;
  }

  // ----- what the handler's answers alone decide -----

  predicate IsFlood(seen: FakeServer.Seen) {
    seen == Refusal(FLOOD_PROTECTION)
  }

  predicate IsSession(seen: FakeServer.Seen) {
    seen.Refusal? && EndsSession(seen.code)
  }

  /** The flood faults among the first n answers. */
  function Floods(site: Site, op: Op, n: nat): nat
    requires op.Exec?
  {
    if n == 0 then 0 else Floods(site, op, n - 1) + if IsFlood(Seen(site, op, n - 1)) then 1 else 0
  }

  /** The session faults among the first n answers. */
  function Sessions(site: Site, op: Op, n: nat): nat
    requires op.Exec?
  {
    if n == 0 then 0 else Sessions(site, op, n - 1) + if IsSession(Seen(site, op, n - 1)) then 1 else 0
  }

  /** The n-th answer is one the client tries again after: one of the first three flood faults, or the
      first session fault, which a stale token has already used up. */
  predicate Retried(site: Site, op: Op, stale: bool, n: nat)
    requires op.Exec?
  {
    || (IsFlood(Seen(site, op, n)) && Floods(site, op, n) < MAX_FLOOD_RETRIES)
    || (IsSession(Seen(site, op, n)) && !stale && Sessions(site, op, n) == 0)
  }

  /** The n-th answer is the first that is not tried again. */
  predicate Settles(site: Site, op: Op, stale: bool, n: nat)
    requires op.Exec?
  {
    !Retried(site, op, stale, n) && forall k | 0 <= k < n :: Retried(site, op, stale, k)
  }

  lemma ExpectStep(site: Site, op: Op, n: nat, reauthed: bool, flood: nat)
    requires op.Exec?
    requires flood <= MAX_FLOOD_RETRIES
    ensures Expect(site, op, n, false, reauthed, flood) ==
      if IsFlood(Seen(site, op, n)) && flood < MAX_FLOOD_RETRIES then Expect(site, op, n + 1, false, reauthed, flood + 1)
      else if IsSession(Seen(site, op, n)) && !reauthed then Expect(site, op, n + 1, false, true, flood)
      else Outcome(ResultOf(Seen(site, op, n)), n + 1)
    ensures !(IsFlood(Seen(site, op, n)) && IsSession(Seen(site, op, n)))
  {
    hide Seen, IsSessionError;
  }

  lemma {:induction false} SettledFrom(site: Site, op: Op, stale: bool, n: nat, reauthed: bool, flood: nat) returns (m: nat)
    requires op.Exec?
    requires flood <= MAX_FLOOD_RETRIES && flood == Floods(site, op, n)
    requires reauthed <==> stale || Sessions(site, op, n) > 0
    requires n == flood + Sessions(site, op, n) && Sessions(site, op, n) <= (if stale then 0 else 1)
    requires forall k | 0 <= k < n :: Retried(site, op, stale, k)
    ensures m <= (if stale then 3 else 4) && Settles(site, op, stale, m)
    ensures Expect(site, op, n, false, reauthed, flood) == Outcome(ResultOf(Seen(site, op, m)), m + 1)
    decreases (if reauthed then 0 else 1) + MAX_FLOOD_RETRIES - flood
  {
    hide Seen, IsFlood, IsSession, ResultOf, Expect, AfterFault;
    m := n;
    ExpectStep(site, op, n, reauthed, flood);
    if Retried(site, op, stale, n) {
      if IsFlood(Seen(site, op, n)) {
        m := SettledFrom(site, op, stale, n + 1, reauthed, flood + 1);
      } else {
        m := SettledFrom(site, op, stale, n + 1, true, flood);
      }
    }
  }

  lemma SettledFromStart(site: Site, op: Op, stale: bool) returns (n: nat)
    requires op.Exec?
    ensures n <= 4 && Settles(site, op, stale, n)
    ensures Expect(site, op, 0, stale, false, 0) == Outcome(ResultOf(Seen(site, op, n)), n + 1)
  {
    hide Seen, IsFlood, IsSession, ResultOf, Retried;
    n := SettledFrom(site, op, stale, 0, stale, 0);
  }

  lemma NotYet(site: Site, js: seq<Joint>, times: seq<int>, k: nat)
    requires IsJoined(site, js, times) && k < |js| && k < 3
    requires js[0].run.me.op.Exec? && js[0].run.me.op.action != "" && !js[0].run.core.busy
    ensures !js[k].run.me.pc.Done?
  {
    if k == 1 {
      assert js[0 + 1] == JointStep(site, js[0], times[0]);
    } else if k == 2 {
      Entered(site, js, times);
    }
  }

  /** End to end: with credentials that match, and for every state the client starts in, every handler,
      every echo and all times, a finished Exec has returned the first answer of the handler that is not
      tried again, and the handler was called for that answer and those before it and never after. */
  lemma ExecIsTheHandler(site: Site, js: seq<Joint>, times: seq<int>, k: nat) returns (n: nat)
    requires IsJoined(site, js, times) && k < |js|
    requires Startable(site, js[0].run) && js[k].run.me.pc.Done?
    ensures |times| >= 3
    ensures Settles(site, js[0].run.me.op, Stale(site, js[0].run.core, times[2]), n) && n <= 4
    ensures js[k].run.me.pc == Done(ResultOf(Seen(site, js[0].run.me.op, n)))
    ensures js[k].handled == n + 1
  {
    hide Matching, JointStep, Retried, Floods, Sessions, Seen, ResultOf, Expect, Stale;
    if k < 3 {
      NotYet(site, js, times, k);
    }
    OnTrack(site, js, times, k);
    n := SettledFromStart(site, js[0].run.me.op, Stale(site, js[0].run.core, times[2]));
  }

  lemma {:induction false} CountsGrow(site: Site, op: Op, m: nat, n: nat)
    requires op.Exec?
    requires m <= n
    ensures Floods(site, op, m) <= Floods(site, op, n) && Sessions(site, op, m) <= Sessions(site, op, n)
  {
    hide Seen, IsFlood, IsSession;
    if m < n {
      CountsGrow(site, op, m, n - 1);
    }
  }

  lemma {:induction false} FewRetried(site: Site, op: Op, stale: bool, n: nat)
    requires op.Exec?
    requires forall k | 0 <= k < n :: Retried(site, op, stale, k)
    ensures Floods(site, op, n) <= 3 && Sessions(site, op, n) <= 1
    ensures stale ==> Sessions(site, op, n) == 0
  {
    hide Seen, IsFlood, IsSession;
    if n > 0 {
      FewRetried(site, op, stale, n - 1);
      assert Retried(site, op, stale, n - 1);
      ExpectStep(site, op, n - 1, false, 0);
    }
  }

  /** The n-th answer is the first that is neither a session nor a flood fault. */
  predicate FirstReal(site: Site, op: Op, n: nat)
    requires op.Exec?
  {
    && !IsFlood(Seen(site, op, n)) && !IsSession(Seen(site, op, n))
    && forall k | 0 <= k < n :: IsFlood(Seen(site, op, k)) || IsSession(Seen(site, op, k))
  }

  lemma SettledOnReal(site: Site, op: Op, stale: bool, m: nat, n: nat)
    requires op.Exec?
    ensures Settles(site, op, stale, m) && FirstReal(site, op, n) ==>
      (ResultOf(Seen(site, op, m)) == ResultOf(Seen(site, op, n)) <==>
        Floods(site, op, n) <= 3 && Sessions(site, op, n) + (if stale then 1 else 0) <= 1)
  {
    hide Seen, IsFlood, IsSession, ResultOf;
    if Settles(site, op, stale, m) && FirstReal(site, op, n) {
      assert n < m ==> Retried(site, op, stale, n);
      if m < n {
        RefusedIsOther(Seen(site, op, m), Seen(site, op, n));
        CountsGrow(site, op, m + 1, n);
        ExpectStep(site, op, m, false, 0);
      } else {
        FewRetried(site, op, stale, n);
      }
    }
  }

  /** Exec returns the handler's first answer that is neither a session nor a flood fault exactly when
      at most one session fault, a stale token included, and at most three flood faults come before it. */
  lemma FirstRealAnswer(site: Site, js: seq<Joint>, times: seq<int>, k: nat, n: nat)
    requires IsJoined(site, js, times) && k < |js|
    requires Startable(site, js[0].run) && js[k].run.me.pc.Done?
    requires FirstReal(site, js[0].run.me.op, n)
    ensures |times| >= 3
    ensures js[k].run.me.pc == Done(ResultOf(Seen(site, js[0].run.me.op, n))) <==>
      Floods(site, js[0].run.me.op, n) <= 3 && Sessions(site, js[0].run.me.op, n) + (if Stale(site, js[0].run.core, times[2]) then 1 else 0) <= 1
  {
    hide Matching, JointStep, Seen, FirstReal, ResultOf, Stale, Settles, Floods, Sessions;
    var m := ExecIsTheHandler(site, js, times, k);
    SettledOnReal(site, js[0].run.me.op, Stale(site, js[0].run.core, times[2]), m, n);
  }

  lemma RefusedIsOther(a: FakeServer.Seen, b: FakeServer.Seen)
    requires IsFlood(a) || IsSession(a)
    requires !IsFlood(b) && !IsSession(b)
    ensures ResultOf(a) != ResultOf(b)
  {
    hide EndsSession;
  }

  /** A value the handler answers in the printed form of a document reaches the client as a value, and as
      that very value exactly if the document is clean, unless the echoed action or the flood delay brings
      a <Fault> of its own. */
  lemma PrintedAnswer(s: Setup, action: string, answer: Answer, d: Doc)
    requires answer.fault == "" && s.raw(answer.info) == Print(d) && WellFormed(d)
    ensures See(s, action, answer).Value? <==> NoFault(s.raw(action)) && NoFault(s.raw(s.floodDelay))
    ensures See(s, action, answer).Value? ==> (See(s, action, answer) == FakeServer.Value(Denote(d)) <==> Clean(d))
  {
    PrintedNames(d, "Fault");
    SeenValue(s, action, answer);
    RoundTrip(d, "value");
  }

  // ----- the call ends -----

  lemma Moves(site: Site, j: Joint, now: int, end: Outcome)
    requires Good(site, j, end) && !j.run.me.pc.Done? && now >= j.run.core.notBefore
    ensures After(site, j, now).me.pc != j.run.me.pc
  {
    hide Expect, AfterFault, Matching, Respond, ResponseResult, Delay, Seen, ApiCall, EndsSession, RetryOf;
  }

  /** A step of a joined run is progress, unless it is before the flood window opens. */
  lemma Advances(site: Site, j: Joint, now: int, end: Outcome)
    requires Good(site, j, end) && !j.run.me.pc.Done? && now >= j.run.core.notBefore
    ensures 0 <= CallerLaws.Rank(JointStep(site, j, now).run.me) < CallerLaws.Rank(j.run.me)
  {
    hide Step, Meets, CallerLaws.Rank;
    CallerLaws.StepForward(site.cfg, j.run.core, j.run.me, now, Meets(site, j));
    Moves(site, j, now, end);
  }

  /** A joined run goes on, from some time on with progress. */
  lemma {:induction false} Continues(site: Site, js: seq<Joint>, times: seq<int>, from: int)
    returns (js': seq<Joint>, times': seq<int>)
    requires IsJoined(site, js, times) && Startable(site, js[0].run) && |times| >= 3
    ensures IsJoined(site, js', times') && js'[|times'|].run.me.pc.Done?
    ensures js <= js' && times <= times' && forall i | |times| <= i < |times'| :: times'[i] >= from
    decreases CallerLaws.Rank(js[|times|].run.me)
  {
    hide Good, CallerLaws.Rank, JointStep, Matching, EndOf;
    js', times' := js, times;
    if !js[|times|].run.me.pc.Done? {
      var last := js[|times|];
      var now := if from < last.run.core.notBefore then last.run.core.notBefore else from;
      OnTrack(site, js, times, |times|);
      Advances(site, last, now, EndOf(site, js, times));
      js', times' := Continues(site, js + [JointStep(site, last, now)], times + [now], now);
    }
  }

  /** Whenever an Exec starts, there are times at which it finishes. */
  lemma Finishes(site: Site, core: Core, op: Op, start: int) returns (js: seq<Joint>, times: seq<int>)
    requires Startable(site, Run(core, Begin(op), []))
    ensures IsJoined(site, js, times) && js[0].run == Run(core, Begin(op), [])
    ensures js[|times|].run.me.pc.Done?
    ensures forall i | 0 <= i < |times| :: times[i] >= start
  {
    hide JointStep, Matching;
    var j0 := Joint(Run(core, Begin(op), []), 0);
    var j1 := JointStep(site, j0, start);
    var j2 := JointStep(site, j1, start);
    js, times := [j0, j1, j2, JointStep(site, j2, start)], [start, start, start];
    js, times := Continues(site, js, times, start);
  }

  /** The steps among the first k that are not before the end of the flood window. */
  function OpenSteps(js: seq<Joint>, times: seq<int>, k: nat): nat
    requires |js| == |times| + 1 && k <= |times|
  {
    if k == 0 then 0
    else OpenSteps(js, times, k - 1) + if times[k - 1] >= js[k - 1].run.core.notBefore then 1 else 0
  }

  /** The steps a call has left and those it has taken at an open window come to no more than it starts
      with. */
  lemma {:induction false} StepsLeft(site: Site, js: seq<Joint>, times: seq<int>, k: nat)
    requires IsJoined(site, js, times) && Startable(site, js[0].run) && 3 <= k < |js| && !js[k].run.me.pc.Done?
    ensures CallerLaws.Rank(js[k].run.me) + OpenSteps(js, times, k) <= CallerLaws.Rank(js[0].run.me)
    ensures CallerLaws.Rank(js[k].run.me) > 0
  {
    hide Good, JointStep, EndOf, Matching, CallerLaws.Rank;
    OnTrack(site, js, times, k);
    NotDoneHasRank(site, js[k], EndOf(site, js, times));
    if k == 3 {
      FirstSteps(site, js, times);
    } else {
      OnTrack(site, js, times, k - 1);
      var before, now := js[k - 1], times[k - 1];
      assert js[k] == js[k - 1 + 1] == JointStep(site, before, now);
      DoneStays(site, before, now);
      StepsLeft(site, js, times, k - 1);
      if now >= before.run.core.notBefore {
        Advances(site, before, now, EndOf(site, js, times));
      } else {
        NeverBack(site, before, now, EndOf(site, js, times));
      }
    }
  }

  lemma NotDoneHasRank(site: Site, j: Joint, end: Outcome)
    requires Good(site, j, end) && !j.run.me.pc.Done?
    ensures CallerLaws.Rank(j.run.me) > 0
  {
    hide Expect, AfterFault, Matching, ResponseResult, FlightKept;
  }

  lemma DoneStays(site: Site, j: Joint, now: int)
    ensures j.run.me.pc.Done? ==> JointStep(site, j, now).run.me.pc.Done?
  {
  }

  lemma NeverBack(site: Site, j: Joint, now: int, end: Outcome)
    ensures Good(site, j, end) ==> CallerLaws.Rank(JointStep(site, j, now).run.me) <= CallerLaws.Rank(j.run.me)
  {
    hide Step, Meets, CallerLaws.Rank;
    if Good(site, j, end) {
      CallerLaws.StepForward(site.cfg, j.run.core, j.run.me, now, Meets(site, j));
    }
  }

  lemma FirstSteps(site: Site, js: seq<Joint>, times: seq<int>)
    requires IsJoined(site, js, times) && Startable(site, js[0].run) && |times| >= 3
    ensures CallerLaws.Rank(js[3].run.me) + OpenSteps(js, times, 3) <= CallerLaws.Rank(js[0].run.me)
  {
    hide JointStep, Matching;
    Entered(site, js, times);
    assert js[2 + 1] == JointStep(site, js[2], times[2]);
    var ensure := Begin(js[0].run.me.op).(pc := Ensure);
    assert CallerLaws.Rank(ensure) == CallerLaws.Rank(js[0].run.me) - 3;
    EnsureAdvances(site, js[2], times[2]);
    assert OpenSteps(js, times, 3) <= 3 by {
      assert OpenSteps(js, times, 0) == 0;
      assert OpenSteps(js, times, 1) <= 1;
      assert OpenSteps(js, times, 2) <= 2;
    }
  }

  lemma EnsureAdvances(site: Site, j: Joint, now: int)
    requires j.run.me.pc.Ensure?
    ensures CallerLaws.Rank(JointStep(site, j, now).run.me) < CallerLaws.Rank(j.run.me)
  {
  }

  /** Every schedule finishes an Exec that takes a hundred and four steps at an open flood window. */
  lemma EveryScheduleFinishes(site: Site, js: seq<Joint>, times: seq<int>)
    requires IsJoined(site, js, times) && Startable(site, js[0].run)
    requires OpenSteps(js, times, |times|) >= 104
    ensures js[|times|].run.me.pc.Done?
  {
    hide JointStep, Matching, OpenSteps;
    OpenBound(js, times, |times|);
    assert CallerLaws.Rank(js[0].run.me) == 104;
    if !js[|times|].run.me.pc.Done? {
      StepsLeft(site, js, times, |times|);
    }
  }

  lemma {:induction false} OpenBound(js: seq<Joint>, times: seq<int>, k: nat)
    requires |js| == |times| + 1 && k <= |times|
    ensures OpenSteps(js, times, k) <= k
  {
    if k > 0 {
      OpenBound(js, times, k - 1);
    }
  }

  // ----- the run is one of the client's -----

  /** What the client saw. */
  function StampsOf(site: Site, js: seq<Joint>, times: seq<int>): seq<Stamp>
    requires |js| == |times| + 1
  {
    seq(|times|, i requires 0 <= i < |times| => Stamp(times[i], Meets(site, js[i])))
  }

  /** A joined run is the program of Caller on what the server answers. */
  lemma {:induction false} JoinedIsReplay(site: Site, js: seq<Joint>, times: seq<int>, k: nat)
    requires IsJoined(site, js, times) && k < |js|
    ensures js[k].run ==
      Replay(site.cfg, js[0].run.core, js[0].run.me, StampsOf(site, js, times)[..k])
  {
    hide Step, Meets;
    var stamps := StampsOf(site, js, times);
    if k > 0 {
      JoinedIsReplay(site, js, times, k - 1);
      assert stamps[..k][..k - 1] == stamps[..k - 1];
      assert js[k - 1 + 1] == JointStep(site, js[k - 1], times[k - 1]);
    }
  }

  // ----- credentials that do not match -----

  /** The server turns the handshake down. */
  predicate TurnedDown(site: Site, password: string) {
    && (site.cfg.twoFactor ==> site.pin != "")
    && (!AcceptsPassword(site, password) ||
        (site.setup.otp != "" && SentPin(site) != site.setup.otp))
  }

  function LoginFault(site: Site, password: string): string {
    if !AcceptsPassword(site, password) then "kas_login_incorrect" else "kas_2fa_incorrect"
  }

  lemma LoginIsFinal(site: Site, password: string)
    ensures RetryOf(HandshakeError(ApiError(LoginFault(site, password)))) == RetryNone
  {
    assert FaultOf(HandshakeError(ApiError(LoginFault(site, password)))) == Code(LoginFault(site, password));
  }

  predicate OnTheWayOut(site: Site, j: Joint) {
    && j.run.me.op.Exec? && TurnedDown(site, j.run.core.password) && j.handled == 0
    && var failure := Failed(HandshakeError(ApiError(LoginFault(site, j.run.core.password))));
       match j.run.me.pc
       case AskPin => site.cfg.twoFactor
       case AuthWindow(pin) => pin == SentPin(site)
       case AuthReady(pin) => pin == SentPin(site)
       case AuthFlight => Flying(j.run) && InFlight(j.run) == SentAuth(site, j.run.core)
       case Returned(r) => r == failure
       case Unlock(r) => r == failure
       case Leaving(r) => r == failure
       case Done(r) => r == failure
       case _ => false
  }

  lemma StaysOut(site: Site, j: Joint, now: int)
    requires OnTheWayOut(site, j)
    ensures OnTheWayOut(site, JointStep(site, j, now))
    ensures JointStep(site, j, now).run.core.password == j.run.core.password
  {
    hide OnTheWayOut, JointStep;
    if j.run.me.pc.AuthFlight? {
      AnsweredOut(site, j, now);
    } else {
      GoesOut(site, j, now);
    }
  }

  lemma GoesOut(site: Site, j: Joint, now: int)
    requires OnTheWayOut(site, j) && !j.run.me.pc.AuthFlight?
    ensures OnTheWayOut(site, JointStep(site, j, now))
    ensures JointStep(site, j, now).run.core.password == j.run.core.password
  {
    hide LoginFault, AcceptsPassword, Respond, RetryOf, AuthData;
    LoginIsFinal(site, j.run.core.password);
  }

  lemma AnsweredOut(site: Site, j: Joint, now: int)
    requires OnTheWayOut(site, j) && j.run.me.pc.AuthFlight?
    ensures OnTheWayOut(site, JointStep(site, j, now))
    ensures JointStep(site, j, now).run.core.password == j.run.core.password
  {
    hide ReplyTo, ServeAuth;
    AuthReply(site.setup, site.cfg.authType, AuthData(site.cfg, j.run.core.password), SentPin(site));
  }

  lemma {:induction false} LeadsOut(site: Site, js: seq<Joint>, times: seq<int>, k: nat)
    requires IsJoined(site, js, times) && 3 <= k < |js|
    requires js[0].run.me.op.Exec? && js[0].run.me.op.action != "" && !js[0].run.core.busy
    requires TurnedDown(site, js[0].run.core.password)
    requires js[0].run.core.token == "" || times[2] >= js[0].run.core.tokenExp
    ensures OnTheWayOut(site, js[k]) && js[k].run.core.password == js[0].run.core.password
  {
    if k == 3 {
      Entered(site, js, times);
      assert js[2 + 1] == JointStep(site, js[2], times[2]);
    } else {
      hide JointStep, TurnedDown, OnTheWayOut;
      LeadsOut(site, js, times, k - 1);
      StaysOut(site, js[k - 1], times[k - 1]);
    }
  }

  /** Without a session it still trusts, an Exec with a wrong password or PIN ends in the login fault and
      the handler is never called. */
  lemma WrongCredentials(site: Site, js: seq<Joint>, times: seq<int>, k: nat)
    requires IsJoined(site, js, times) && 3 <= k < |js| && js[k].run.me.pc.Done?
    requires js[0].run.me.op.Exec? && js[0].run.me.op.action != "" && !js[0].run.core.busy
    requires TurnedDown(site, js[0].run.core.password)
    requires js[0].run.core.token == "" || times[2] >= js[0].run.core.tokenExp
    ensures js[k].run.me.pc == Done(Failed(HandshakeError(ApiError(LoginFault(site, js[0].run.core.password)))))
    ensures js[k].handled == 0
  {
    hide JointStep, TurnedDown, LoginFault;
    LeadsOut(site, js, times, k);
  }
}
