/** One caller of the client (client.go, auth.go, flood.go, account.go) as a program that takes one
    step per reading of the clock, answer of the server or end of its context. The steps share the
    session state; the slot is the semaphore that guards it. Times are nanoseconds. */
module Caller {
  import opened Values
  import opened Soap

  const MILLISECOND: int := 1_000_000
  const SECOND: int := 1_000_000_000
  const MINUTE: int := 60 * SECOND
  const MAX_LIFETIME: int := 30000
  const MAX_FLOOD_RETRIES: nat := 3

  type Params = map<string, Value>

  /** How the password is sent: itself or its digest. */
  datatype AuthType = Plain | Sha1

  /** digest is the hexadecimal SHA-1. parseFloat is strconv.ParseFloat, 0 for malformed text. lifetime is
      in seconds. */
  datatype Config = Config(lifetime: int, twoFactor: bool, authType: AuthType, digest: string -> string,
                           parseFloat: string -> real)

  /** What is sent for a password. */
  function AuthData(cfg: Config, password: string): string {
    if cfg.authType.Sha1? then cfg.digest(password) else password
  }

  /** The lifetime New settles on: what was asked for, half an hour if that is nothing, at most what KAS
      grants. */
  function NormalLifetime(requested: int): (lifetime: int)
    ensures 1 <= lifetime <= 30000
    ensures 1 <= requested <= 30000 ==> lifetime == requested
    ensures requested <= 0 ==> lifetime == 1800
    ensures requested > 30000 ==> lifetime == 30000
  {
    if requested <= 0 then 1800 else if requested > MAX_LIFETIME then MAX_LIFETIME else requested
  }

  predicate ValidConfig(cfg: Config) {
    1 <= cfg.lifetime <= MAX_LIFETIME
  }

  /** The distance the client keeps from the end of a session. */
  function Margin(lifetime: int): int {
    if lifetime * SECOND <= 2 * MINUTE then lifetime * SECOND / 2 else MINUTE
  }

  /** sessionTTL. */
  function SessionTTL(lifetime: int): int {
    lifetime * SECOND - Margin(lifetime)
  }

  // ----- errors -----

  /** HandshakeError wraps whatever soapCall returned for KasAuth. */
  datatype Error = ApiError(code: string) | HandshakeError(cause: Error) | ContextError | OtherError

  datatype Result = Ok(value: Value) | Failed(error: Error)

  datatype Code = NoCode | Code(code: string)

  /** errors.As with *APIError. */
  function FaultOf(e: Error): Code {
    match e
    case ApiError(code) => Code(code)
    case HandshakeError(cause) => FaultOf(cause)
    case _ => NoCode
  }

  const FLOOD_PROTECTION := "flood_protection"

  predicate IsSessionError(code: string) {
    code == "kas_auth_data_incorrect" || code == "session_token_invalid" || code == "session_expired"
  }

  datatype Retry = RetryNone | RetrySession | RetryFlood

  /** retryOf: a handshake KAS rejects is final, unless by flood protection. */
  function RetryOf(e: Error): Retry {
    match FaultOf(e)
    case NoCode => RetryNone
    case Code(code) =>
      if code == FLOOD_PROTECTION then RetryFlood
      else if IsSessionError(code) && !e.HandshakeError? then RetrySession
      else RetryNone
  }

  // ----- what is read from a decoded response -----

  function AsFloat(cfg: Config, v: Value): real {
    if v.Str? then cfg.parseFloat(v.chars) else 0.0
  }

  /** The delay applyFloodDelayLocked takes from a response, in seconds: from Response, else from
      the top level, else two seconds. */
  function DelaySeconds(cfg: Config, ret: Value): (d: real)
    ensures d > 0.0
  {
    var inner := AsFloat(cfg, ret.Field("Response").Field("KasFloodDelay"));
    var outer := AsFloat(cfg, ret.Field("KasFloodDelay"));
    if inner > 0.0 then inner else if outer > 0.0 then outer else 2.0
  }

  /** The delay in whole milliseconds. */
  function Delay(cfg: Config, ret: Value): (d: int)
    ensures d >= 0
  {
    (DelaySeconds(cfg, ret) * 1000.0).Floor * MILLISECOND
  }

  /** The token of a KasAuth response, or "". */
  function TokenOf(ret: Value): string {
    var inner := AsString(ret.Field("Response"));
    if inner != "" then inner else AsString(ret)
  }

  /** What execLocked returns for a decoded response. */
  function ResponseResult(ret: Value): Result {
    var response := ret.Field("Response");
    if !response.Map? then Failed(OtherError)
    else if AsString(response.Field("ReturnString")) != "TRUE" then Failed(OtherError)
    else Ok(response.Field("ReturnInfo"))
  }

  // ----- state -----

  /** What the client's callers share: the slot and the session state. */
  datatype Core = Core(busy: bool, token: string, tokenExp: int, notBefore: int, password: string)

  datatype Op = Exec(action: string, params: Params) | Logout | ChangePassword(next: string)

  datatype Request =
    | AuthRequest(authType: AuthType, authData: string, pin: string, lifetime: int)
    | ApiRequest(token: string, action: string, params: Params)

  datatype Pc =
    | Start | Lock                                  // outside: before and at lock
    | LogoutCheck
    | Ensure | AskPin                               // ensureSessionLocked
    | AuthWindow(pin: string) | AuthReady(pin: string) | AuthFlight | AuthStore(token: string)
    | ApiWindow | ApiReady | ApiFlight              // the rest of execLocked
    | ApiFlood(ret: Value) | ApiExtend(info: Value)
    | Returned(result: Result)                      // execLocked has returned
    | Recheck                                       // a retry was granted; the context is looked at
    | Unlock(result: Result)
    | Relock | Store | Unstore                      // setPassword
    | Leaving(result: Result) | Done(result: Result)

  /** What a step does that others can notice or that the laws count. */
  datatype Event =
    | Attempt(at: int)
    | Sent(at: int, request: Request)
    | Answered(at: int, auth: bool, reply: Reply)
    | Opened(at: int, exp: int)
    | Granted(at: int, retry: Retry, nth: nat)

  /** checkedAt is when the session was last found or made valid. */
  datatype Local = Local(op: Op, pc: Pc, reauthed: bool, flood: nat, checkedAt: int)

  function Begin(op: Op): Local {
    Local(op, Start, false, 0, 0)
  }

  datatype Said = Silent | Says(event: Event)

  /** The outcome of a step: the shared state, the caller, and what it did. */
  datatype Out = Out(core: Core, me: Local, said: Said)

  /** What the environment does at a step. Go is a reading of the clock and nothing else. */
  datatype Input = Go | CtxEnded | Pin(pin: string) | PinFailed | SendFailed | Arrived(reply: Reply)

  predicate HoldsSlot(pc: Pc) {
    !(pc.Start? || pc.Lock? || pc.Relock? || pc.Leaving? || pc.Done?)
  }

  /** Rejected before anything else: an empty action or an empty new password. */
  predicate Rejected(op: Op) {
    (op.Exec? && op.action == "") || (op.ChangePassword? && op.next == "")
  }

  function AuthCall(cfg: Config, password: string, pin: string): Request {
    AuthRequest(cfg.authType, AuthData(cfg, password), pin, cfg.lifetime)
  }

  function ApiCall(core: Core, op: Op): Request {
    match op
    case Exec(action, params) => ApiRequest(core.token, action, params)
    case Logout => ApiRequest(core.token, "delete_session", map[])
    case ChangePassword(next) =>
      ApiRequest(core.token, "update_accountsettings", map["account_password" := Str(next)])
  }

  /** Logout: an unknown or rejected session counts as ended. */
  function LogoutResult(r: Result): Result {
    if r.Failed? && !(FaultOf(r.error).Code? &&
                      (IsSessionError(FaultOf(r.error).code) || FaultOf(r.error).code == "unknown_session"))
    then r else Ok(Nil)
  }

  /** update: nothing_to_do is success. */
  predicate UpdateSucceeded(r: Result) {
    r.Ok? || FaultOf(r.error) == Code("nothing_to_do")
  }

  // ----- steps -----

  /** A step of a caller at a time; an input that does not fit leaves everything as it is, and so
      does waiting for the slot or for the flood window. */
  function Step(cfg: Config, core: Core, me: Local, now: int, input: Input): Out {
    match me.pc
    case Start | Lock | LogoutCheck | Recheck => StepEnter(core, me, now, input)
    case Ensure | AskPin | AuthWindow(_) => StepSession(cfg, core, me, now, input)
    case AuthReady(_) | AuthFlight | AuthStore(_) => StepOpen(cfg, core, me, now, input)
    case ApiWindow | ApiReady | ApiFlight => StepCall(core, me, now, input)
    case ApiFlood(_) | ApiExtend(_) => StepAnswer(cfg, core, me, now, input)
    case Returned(result) => if input.Go? then Settle(core, me, now, result) else Stay(core, me)
    case _ => StepLeave(core, me, input)
  }

  function Stay(core: Core, me: Local): Out {
    Out(core, me, Silent)
  }

  function Goto(core: Core, me: Local, pc: Pc): Out {
    Out(core, me.(pc := pc), Silent)
  }

  function GotoSaying(core: Core, me: Local, pc: Pc, event: Event): Out {
    Out(core, me.(pc := pc), Says(event))
  }

  /** lock, the first lines of Logout, and the context check between attempts. */
  function StepEnter(core: Core, me: Local, now: int, input: Input): Out {
    match me.pc
    case Start =>
      if Rejected(me.op) then Goto(core, me, Done(Failed(OtherError)))
      else if input.CtxEnded? then Goto(core, me, Done(Failed(ContextError)))
      else if input.Go? then Goto(core, me, Lock)
      else Stay(core, me)
    case Lock =>
      if input.CtxEnded? then Goto(core, me, Done(Failed(ContextError)))
      else if input.Go? && !core.busy then
        Goto(core.(busy := true), me, if me.op.Logout? then LogoutCheck else Ensure)
      else Stay(core, me)
    case LogoutCheck =>
      if !input.Go? then Stay(core, me)
      else if core.token == "" || now >= core.tokenExp then Goto(core.(token := ""), me, Unlock(Ok(Nil)))
      else Goto(core, me, Ensure)
    case Recheck =>
      if input.CtxEnded? then Goto(core, me, Unlock(Failed(ContextError)))
      else if input.Go? then Goto(core, me, Ensure)
      else Stay(core, me)
    case _ => Stay(core, me)
  }

  /** ensureSessionLocked up to the flood window. */
  function StepSession(cfg: Config, core: Core, me: Local, now: int, input: Input): Out {
    match me.pc
    case Ensure =>
      if !input.Go? then Stay(core, me)
      else if core.token != "" && now < core.tokenExp then
        GotoSaying(core, me.(checkedAt := now), ApiWindow, Attempt(now))
      else GotoSaying(core, me, if cfg.twoFactor then AskPin else AuthWindow(""), Attempt(now))
    case AskPin =>
      if input.Pin? && input.pin != "" then Goto(core, me, AuthWindow(input.pin))
      else if input.Pin? || input.PinFailed? then Goto(core, me, Returned(Failed(OtherError)))
      else Stay(core, me)
    case AuthWindow(pin) =>
      if input.CtxEnded? then Goto(core, me, Returned(Failed(ContextError)))
      else if input.Go? && now >= core.notBefore then Goto(core, me, AuthReady(pin))
      else Stay(core, me)
    case _ => Stay(core, me)
  }

  /** Where the answer to a KasAuth request leads. */
  function AuthNext(reply: Reply): Pc {
    match reply
    case Fault(code) => Returned(Failed(HandshakeError(ApiError(code))))
    case Broken => Returned(Failed(HandshakeError(OtherError)))
    case Decoded(ret) => if TokenOf(ret) == "" then Returned(Failed(OtherError)) else AuthStore(TokenOf(ret))
  }

  /** The rest of ensureSessionLocked. */
  function StepOpen(cfg: Config, core: Core, me: Local, now: int, input: Input): Out {
    match me.pc
    case AuthReady(pin) =>
      if input.SendFailed? then Goto(core, me, Returned(Failed(HandshakeError(OtherError))))
      else if input.Go? then
        GotoSaying(core, me, AuthFlight, Sent(now, AuthCall(cfg, core.password, pin)))
      else Stay(core, me)
    case AuthFlight =>
      if !input.Arrived? then Stay(core, me)
      else GotoSaying(core, me, AuthNext(input.reply), Answered(now, true, input.reply))
    case AuthStore(token) =>
      if !input.Go? then Stay(core, me)
      else
        var exp := now + SessionTTL(cfg.lifetime);
        GotoSaying(core.(token := token, tokenExp := exp), me.(checkedAt := now), ApiWindow, Opened(now, exp))
    case _ => Stay(core, me)
  }

  /** Where the answer to a KasApi request leads. */
  function ApiNext(reply: Reply): Pc {
    match reply
    case Fault(code) => Returned(Failed(ApiError(code)))
    case Broken => Returned(Failed(OtherError))
    case Decoded(ret) => ApiFlood(ret)
  }

  /** The KasApi request of execLocked. */
  function StepCall(core: Core, me: Local, now: int, input: Input): Out {
    match me.pc
    case ApiWindow =>
      if input.CtxEnded? then Goto(core, me, Returned(Failed(ContextError)))
      else if input.Go? && now >= core.notBefore then Goto(core, me, ApiReady)
      else Stay(core, me)
    case ApiReady =>
      if input.SendFailed? then Goto(core, me, Returned(Failed(OtherError)))
      else if input.Go? then GotoSaying(core, me, ApiFlight, Sent(now, ApiCall(core, me.op)))
      else Stay(core, me)
    case ApiFlight =>
      if !input.Arrived? then Stay(core, me)
      else GotoSaying(core, me, ApiNext(input.reply), Answered(now, false, input.reply))
    case _ => Stay(core, me)
  }

  /** The rest of execLocked: applyFloodDelayLocked, the checks of the response, the extension. */
  function StepAnswer(cfg: Config, core: Core, me: Local, now: int, input: Input): Out {
    if !input.Go? then Stay(core, me)
    else
      match me.pc
      case ApiFlood(ret) =>
        var waiting := if ret.Map? then core.(notBefore := now + Delay(cfg, ret)) else core;
        var result := ResponseResult(ret);
        Goto(waiting, me, if result.Ok? then ApiExtend(result.value) else Returned(result))
      case ApiExtend(info) =>
        Goto(core.(tokenExp := now + SessionTTL(cfg.lifetime)), me, Returned(Ok(info)))
      case _ => Stay(core, me)
  }

  /** What follows execLocked: the end of Logout, the end of Exec, or a retry (retries.again). */
  function Settle(core: Core, me: Local, now: int, result: Result): Out {
    if me.op.Logout? then Goto(core.(token := ""), me, Unlock(LogoutResult(result)))
    else if result.Ok? then Goto(core, me, Unlock(result))
    else
      match RetryOf(result.error)
      case RetrySession =>
        if me.reauthed then Goto(core, me, Unlock(result))
        else GotoSaying(core.(token := ""), me.(reauthed := true), Recheck, Granted(now, RetrySession, 1))
      case RetryFlood =>
        if me.flood == MAX_FLOOD_RETRIES then Goto(core, me, Unlock(result))
        else
          var nth := me.flood + 1;
          GotoSaying(core.(notBefore := now + nth * 2 * SECOND), me.(flood := nth), Recheck,
                     Granted(now, RetryFlood, nth))
      case RetryNone => Goto(core, me, Unlock(result))
  }

  /** unlock, then setPassword after a successful UpdateOwnPassword, then the return. */
  function StepLeave(core: Core, me: Local, input: Input): Out {
    if !input.Go? then Stay(core, me)
    else
      match me.pc
      case Unlock(result) =>
        Goto(core.(busy := false), me,
             if me.op.ChangePassword? && UpdateSucceeded(result) then Relock else Leaving(result))
      case Relock => if core.busy then Stay(core, me) else Goto(core.(busy := true), me, Store)
      case Store => Goto(if me.op.ChangePassword? then core.(password := me.op.next) else core, me, Unstore)
      case Unstore => Goto(core.(busy := false), me, Leaving(Ok(Nil)))
      case Leaving(result) => Goto(core, me, Done(result))
      case _ => Stay(core, me)
  }

  /** What happens to one caller, and when: its environment lets it take a step, or the other callers
      have left the shared state like this. */
  datatype Stamp = Stamp(at: int, input: Input) | Others(at: int, core: Core)

  /** What a caller has done, oldest first. */
  type History = seq<Event>

  function Heard(said: Said): History {
    match said case Silent => [] case Says(e) => [e]
  }

  /** A run of one caller: the shared state, where the caller stands and what it has done. */
  datatype Run = Run(core: Core, me: Local, hist: History)

  /** One more step of a run. */
  function Next(cfg: Config, run: Run, stamp: Stamp): Run {
    match stamp
    case Stamp(at, input) =>
      var out := Step(cfg, run.core, run.me, at, input);
      Run(out.core, out.me, run.hist + Heard(out.said))
    case Others(_, core) => run.(core := core)
  }

  function Replay(cfg: Config, core: Core, me: Local, steps: seq<Stamp>): Run {
    if steps == [] then Run(core, me, [])
    else Next(cfg, Replay(cfg, core, me, steps[..|steps| - 1]), steps[|steps| - 1])
  }

  lemma ReplaySnoc(cfg: Config, core: Core, me: Local, steps: seq<Stamp>, stamp: Stamp)
    ensures Replay(cfg, core, me, steps + [stamp]) == Next(cfg, Replay(cfg, core, me, steps), stamp)
  {
    assert (steps + [stamp])[..|steps|] == steps;
  }

  /** The other callers leave the shared state alone while this one has the slot. */
  predicate Respected(cfg: Config, core: Core, me: Local, steps: seq<Stamp>) {
    forall i | 0 <= i < |steps| && steps[i].Others? :: !HoldsSlot(Replay(cfg, core, me, steps[..i]).me.pc)
  }

  lemma RespectedSnoc(cfg: Config, core: Core, me: Local, steps: seq<Stamp>, stamp: Stamp)
    requires Respected(cfg, core, me, steps)
    requires stamp.Others? ==> !HoldsSlot(Replay(cfg, core, me, steps).me.pc)
    ensures Respected(cfg, core, me, steps + [stamp])
  {
    hide Replay;
    var more := steps + [stamp];
    forall i | 0 <= i < |more| && more[i].Others?
      ensures !HoldsSlot(Replay(cfg, core, me, more[..i]).me.pc)
    {
      assert more[..i] == steps[..i];
      assert steps[..|steps|] == steps;
    }
  }

  /** Times do not go back. */
  predicate Ascending(steps: seq<Stamp>) {
    forall i, j | 0 <= i < j < |steps| :: steps[i].at <= steps[j].at
  }

  /** For every lifetime New accepts the client trusts a session for its lifetime less the smaller
      of one minute and half the lifetime, and that is some time. */
  lemma MarginIsMinimum(lifetime: int)
    requires 1 <= lifetime <= MAX_LIFETIME
    ensures
      var whole := lifetime * 1_000_000_000;
      var margin := whole - SessionTTL(lifetime);
      && (margin == 60_000_000_000 || 2 * margin == whole)
      && margin <= 60_000_000_000 && 2 * margin <= whole
      && 0 < SessionTTL(lifetime) < whole
  {
  }
}
