/** The client itself (client.go, auth.go, flood.go, account.go): methods that update the session state
    in place. Every method is proved to do exactly the steps of Caller, so a call ends in the state, with
    the result and with the requests of that program. */
module Client {
  import opened Values
  import opened Soap
  import opened Caller
  import opened CallerLaws
  import opened Flood
  import opened Results
  import opened Sessions
  import Passwords

  /** The requests of a history, in order. */
  function RequestsOf(h: History): seq<Request> {
    if h == [] then []
    else RequestsOf(h[..|h| - 1]) + if h[|h| - 1].Sent? then [h[|h| - 1].request] else []
  }

  lemma RequestsSnoc(h: History, said: Said)
    ensures RequestsOf(h + Heard(said)) ==
      RequestsOf(h) + if said.Says? && said.event.Sent? then [said.event.request] else []
  {
    match said
    case Silent => assert h + [] == h;
    case Says(e) => assert (h + [e])[..|h|] == h;
  }

  lemma {:induction false} RequestsCounted(h: History)
    ensures |RequestsOf(h)| == Requests(h)
  {
    if h != [] {
      RequestsCounted(h[..|h| - 1]);
    }
  }

  /** A run of one caller keeps the laws, whatever the others do in between. */
  lemma {:induction false} ReplayLawful(cfg: Config, core: Core, op: Op, steps: seq<Stamp>, now: int)
    ensures
      var run := Replay(cfg, core, Begin(op), steps);
      Ascending(steps) && (steps != [] ==> steps[|steps| - 1].at <= now) ==>
        Ordered(run.hist) && Lawful(run.me, DigestOf(run.hist), now)
  {
    if steps != [] && Ascending(steps) && steps[|steps| - 1].at <= now {
      var init, last := steps[..|steps| - 1], steps[|steps| - 1];
      ReplayLawful(cfg, core, op, init, last.at);
      var run := Replay(cfg, core, Begin(op), init);
      if last.Stamp? {
        StepLaws(cfg, run.core, run.me, DigestOf(run.hist), last.at, last.input);
        var out := Step(cfg, run.core, run.me, last.at, last.input);
        DigestExtend(run.hist, out.said);
        OrderedSnoc(run.hist, out.said);
      }
    }
  }

  /** The call, its retries included, is as before. */
  predicate SameCall(a: Local, b: Local) {
    a.op == b.op && a.reauthed == b.reauthed && a.flood == b.flood
  }

  /** A run that moves on silently. */
  function Moved(run: Run, core: Core, me: Local): Run {
    Run(core, me, run.hist)
  }

  /** At the flood window: past it when it is open, back with an error when the context ends, waiting
      otherwise. */
  lemma AtWindow(cfg: Config, run: Run, t: int, ended: bool)
    requires run.me.pc.AuthWindow? || run.me.pc.ApiWindow?
    ensures Next(cfg, run, Stamp(t, if ended then CtxEnded else Go)) ==
      if ended then Moved(run, run.core, run.me.(pc := Returned(Failed(ContextError))))
      else if t < run.core.notBefore then run
      else Moved(run, run.core, run.me.(pc := if run.me.pc.AuthWindow? then AuthReady(run.me.pc.pin) else ApiReady))
  {
    assert run.hist + [] == run.hist;
  }

  /** A run that moves on with an event. */
  function Spoke(run: Run, core: Core, me: Local, e: Event): Run {
    Run(core, me, run.hist + [e])
  }

  lemma AtEnter(cfg: Config, run: Run, t: int, ended: bool)
    requires run.me.pc.Start? || run.me.pc.Lock? || run.me.pc.LogoutCheck? || run.me.pc.Recheck?
    ensures Next(cfg, run, Stamp(t, if ended then CtxEnded else Go)) ==
      var out := StepEnter(run.core, run.me, t, if ended then CtxEnded else Go);
      Moved(run, out.core, out.me)
  {
    assert run.hist + [] == run.hist;
  }

  lemma AtEnsure(cfg: Config, run: Run, t: int)
    requires run.me.pc.Ensure?
    ensures Next(cfg, run, Stamp(t, Go)) ==
      if run.core.token != "" && t < run.core.tokenExp
      then Spoke(run, run.core, run.me.(pc := ApiWindow, checkedAt := t), Attempt(t))
      else Spoke(run, run.core, run.me.(pc := if cfg.twoFactor then AskPin else AuthWindow("")), Attempt(t))
  {
  }

  lemma AtPin(cfg: Config, run: Run, t: int, answer: PinAnswer)
    requires run.me.pc.AskPin?
    ensures Next(cfg, run, Stamp(t, if answer.SomePin? then Pin(answer.pin) else PinFailed)) ==
      Moved(run, run.core, run.me.(pc :=
        if answer.SomePin? && answer.pin != "" then AuthWindow(answer.pin) else Returned(Failed(OtherError))))
  {
    assert run.hist + [] == run.hist;
  }

  lemma AtAuthReady(cfg: Config, run: Run, t: int, sent: bool)
    requires run.me.pc.AuthReady?
    ensures Next(cfg, run, Stamp(t, if sent then Go else SendFailed)) ==
      if sent then Spoke(run, run.core, run.me.(pc := AuthFlight),
                         Sent(t, AuthCall(cfg, run.core.password, run.me.pc.pin)))
      else Moved(run, run.core, run.me.(pc := Returned(Failed(HandshakeError(OtherError)))))
  {
    assert run.hist + [] == run.hist;
  }

  lemma AtApiReady(cfg: Config, run: Run, t: int, sent: bool)
    requires run.me.pc.ApiReady?
    ensures Next(cfg, run, Stamp(t, if sent then Go else SendFailed)) ==
      if sent then Spoke(run, run.core, run.me.(pc := ApiFlight), Sent(t, ApiCall(run.core, run.me.op)))
      else Moved(run, run.core, run.me.(pc := Returned(Failed(OtherError))))
  {
    assert run.hist + [] == run.hist;
  }

  lemma AtFlight(cfg: Config, run: Run, t: int, reply: Reply)
    requires run.me.pc.AuthFlight? || run.me.pc.ApiFlight?
    ensures Next(cfg, run, Stamp(t, Arrived(reply))) ==
      Spoke(run, run.core, run.me.(pc := if run.me.pc.AuthFlight? then AuthNext(reply) else ApiNext(reply)),
            Answered(t, run.me.pc.AuthFlight?, reply))
  {
  }

  lemma AtStore(cfg: Config, run: Run, t: int)
    requires run.me.pc.AuthStore?
    ensures var exp := t + SessionTTL(cfg.lifetime);
      Next(cfg, run, Stamp(t, Go)) ==
        Spoke(run, run.core.(token := run.me.pc.token, tokenExp := exp), run.me.(pc := ApiWindow, checkedAt := t),
              Opened(t, exp))
  {
  }

  lemma AtAnswer(cfg: Config, run: Run, t: int)
    requires run.me.pc.ApiFlood? || run.me.pc.ApiExtend?
    ensures var out := StepAnswer(cfg, run.core, run.me, t, Go);
      Next(cfg, run, Stamp(t, Go)) == Moved(run, out.core, out.me)
  {
    assert run.hist + [] == run.hist;
  }

  lemma AtReturned(cfg: Config, run: Run, t: int)
    requires run.me.pc.Returned?
    ensures var out := Settle(run.core, run.me, t, run.me.pc.result);
      Next(cfg, run, Stamp(t, Go)) == Run(out.core, out.me, run.hist + Heard(out.said))
  {
  }

  lemma AtLeave(cfg: Config, run: Run, t: int)
    requires run.me.pc.Unlock? || run.me.pc.Relock? || run.me.pc.Store? || run.me.pc.Unstore? || run.me.pc.Leaving?
    ensures var out := StepLeave(run.core, run.me, Go);
      Next(cfg, run, Stamp(t, Go)) == Moved(run, out.core, out.me)
  {
    assert run.hist + [] == run.hist;
  }

  /** Only the two send points of the program send. */
  lemma SilentUnlessReady(cfg: Config, run: Run, stamp: Stamp)
    requires stamp.Others? || stamp.input != Go || !(run.me.pc.AuthReady? || run.me.pc.ApiReady?)
    ensures RequestsOf(Next(cfg, run, stamp).hist) == RequestsOf(run.hist)
  {
    if stamp.Stamp? {
      var out := Step(cfg, run.core, run.me, stamp.at, stamp.input);
      RequestsSnoc(run.hist, out.said);
      NotSent(cfg, run, stamp);
    }
  }

  lemma NotSent(cfg: Config, run: Run, stamp: Stamp)
    requires stamp.Stamp?
    requires stamp.input != Go || !(run.me.pc.AuthReady? || run.me.pc.ApiReady?)
    ensures var said := Step(cfg, run.core, run.me, stamp.at, stamp.input).said; said.Says? ==> !said.event.Sent?
  {
  }

  lemma SendsNext(cfg: Config, run: Run, t: int)
    requires run.me.pc.AuthReady? || run.me.pc.ApiReady?
    ensures RequestsOf(Next(cfg, run, Stamp(t, Go)).hist) == RequestsOf(run.hist) + [NextRequest(cfg, run)]
  {
    hide Step, Next, RequestsOf;
    if run.me.pc.AuthReady? {
      AtAuthReady(cfg, run, t, true);
    } else {
      AtApiReady(cfg, run, t, true);
    }
    RequestsSnoc(run.hist, Says(Sent(t, NextRequest(cfg, run))));
  }

  datatype PinAnswer = NoPin | SomePin(pin: string)

  /** The request a call is about to send. */
  function NextRequest(cfg: Config, run: Run): Request {
    if run.me.pc.AuthReady? then AuthCall(cfg, run.core.password, run.me.pc.pin)
    else ApiCall(run.core, run.me.op)
  }

  /** The shared state when a call last took the slot. */
  datatype Entry = Never | Entered(core: Core)

  /** The clock, the context, the OTP callback and the network of a call. They do whatever they like; the
      clock only never goes back and a timer never fires early. The world also keeps, for the proof, what
      it did during the call, the run of the program of Caller on that, and the requests it was handed. */
  class World {
    const cfg: Config
    var now: int
    ghost var entry: Entry
    ghost var origin: Core
    ghost var op: Op
    ghost var taken: seq<Stamp>
    ghost var run: Run
    ghost var requests: seq<Request>

    constructor (cfg: Config)
      ensures this.cfg == cfg
    {
      this.cfg := cfg;
    }

    /** The run is the program on what was taken down, and the requests are those of the program. */
    ghost predicate Recorded()
      reads `now, `origin, `op, `taken, `run, `requests
    {
      && run == Replay(cfg, origin, Begin(op), taken) && Respected(cfg, origin, Begin(op), taken)
      && Ascending(taken) && (taken != [] ==> taken[|taken| - 1].at <= now)
      && requests == RequestsOf(run.hist)
    }

    /** A call begins. */
    ghost method Begins(op: Op, core: Core)
      modifies this`origin, this`op, this`taken, this`run, this`requests, this`entry
      ensures Recorded() && this.op == op && origin == core && run == Run(core, Begin(op), []) && requests == []
      ensures entry == Never
    {
      origin, this.op, taken, requests, entry := core, op, [], [], Never;
      run := Run(core, Begin(op), []);
    }

    ghost method Note(stamp: Stamp)
      requires run == Replay(cfg, origin, Begin(op), taken) && Respected(cfg, origin, Begin(op), taken)
      requires requests == RequestsOf(run.hist)
      requires Ascending(taken) && (taken != [] ==> taken[|taken| - 1].at <= stamp.at) && stamp.at == now
      requires if stamp.Others? then !HoldsSlot(run.me.pc)
               else stamp.input != Go || !(run.me.pc.AuthReady? || run.me.pc.ApiReady?)
      modifies this`taken, this`run
      ensures Recorded() && run == Next(cfg, old(run), stamp)
    {
      hide Step, Replay, Next, Respected;
      ReplaySnoc(cfg, origin, Begin(op), taken, stamp);
      RespectedSnoc(cfg, origin, Begin(op), taken, stamp);
      SilentUnlessReady(cfg, run, stamp);
      run := Next(cfg, run, stamp);
      taken := taken + [stamp];
    }

    ghost method NoteSent(request: Request)
      requires run == Replay(cfg, origin, Begin(op), taken) && Respected(cfg, origin, Begin(op), taken)
      requires requests == RequestsOf(run.hist)
      requires Ascending(taken) && (taken != [] ==> taken[|taken| - 1].at <= now)
      requires (run.me.pc.AuthReady? || run.me.pc.ApiReady?) && request == NextRequest(cfg, run)
      modifies this`taken, this`run, this`requests
      ensures Recorded() && run == Next(cfg, old(run), Stamp(now, Go)) && requests == old(requests) + [request]
    {
      hide Step, Replay, Next, Respected;
      ReplaySnoc(cfg, origin, Begin(op), taken, Stamp(now, Go));
      RespectedSnoc(cfg, origin, Begin(op), taken, Stamp(now, Go));
      SendsNext(cfg, run, now);
      run := Next(cfg, run, Stamp(now, Go));
      taken := taken + [Stamp(now, Go)];
      requests := requests + [request];
    }

    method Wait()
      modifies this`now
      ensures now >= old(now)
    {
      var d: int := *;
      if d > 0 {
        now := now + d;
      }
    }

    /** time.Now. */
    method Clock() returns (t: int)
      requires Recorded() && !run.me.pc.AuthReady? && !run.me.pc.ApiReady?
      modifies this`now, this`taken, this`run
      ensures t == now && Recorded() && run == Next(cfg, old(run), Stamp(now, Go))
    {
      Wait();
      t := now;
      Note(Stamp(now, Go));
    }

    /** ctx.Err() != nil. */
    method ContextEnded() returns (ended: bool)
      requires Recorded() && !run.me.pc.AuthReady? && !run.me.pc.ApiReady?
      modifies this`now, this`taken, this`run
      ensures Recorded() && run == Next(cfg, old(run), Stamp(now, if ended then CtxEnded else Go))
    {
      Wait();
      ended := *;
      Note(Stamp(now, if ended then CtxEnded else Go));
    }

    /** A select on the slot and the end of the context, with the case that is ready. */
    method Select(ended: bool)
      requires Recorded() && run.me.pc.Lock?
      modifies this`now, this`taken, this`run
      ensures Recorded() && run == Next(cfg, old(run), Stamp(now, if ended then CtxEnded else Go))
    {
      Wait();
      Note(Stamp(now, if ended then CtxEnded else Go));
    }

    /** The other callers take their turns. */
    ghost method OthersAct(core: Core)
      requires Recorded() && !HoldsSlot(run.me.pc)
      modifies this`taken, this`run
      ensures Recorded() && run == old(run).(core := core)
    {
      Note(Others(now, core));
    }

    /** A timer against the end of the context. */
    method Sleep(until: int) returns (ended: bool)
      requires Recorded() && !run.me.pc.AuthReady? && !run.me.pc.ApiReady?
      modifies this`now, this`taken, this`run
      ensures !ended ==> now >= until
      ensures Recorded() && run == Next(cfg, old(run), Stamp(now, if ended then CtxEnded else Go))
    {
      Wait();
      ended := *;
      if !ended && now < until {
        now := until;
      }
      Note(Stamp(now, if ended then CtxEnded else Go));
    }

    /** The OTP callback. */
    method AskPin() returns (answer: PinAnswer)
      requires Recorded()
      modifies this`now, this`taken, this`run
      ensures Recorded()
      ensures run == Next(cfg, old(run), Stamp(now, if answer.SomePin? then Pin(answer.pin) else PinFailed))
    {
      Wait();
      answer := *;
      Note(Stamp(now, if answer.SomePin? then Pin(answer.pin) else PinFailed));
    }

    /** Handing a request to the network: it may fail before anything leaves. */
    method Send(request: Request) returns (sent: bool)
      requires Recorded() && (run.me.pc.AuthReady? || run.me.pc.ApiReady?)
      requires request == NextRequest(cfg, run)
      modifies this`now, this`taken, this`run, this`requests
      ensures Recorded() && run == Next(cfg, old(run), Stamp(now, if sent then Go else SendFailed))
      ensures requests == old(requests) + if sent then [request] else []
    {
      Wait();
      sent := *;
      if sent {
        NoteSent(request);
      } else {
        Note(Stamp(now, SendFailed));
      }
    }

    /** The answer to the request that was sent. */
    method Receive() returns (reply: Reply)
      requires Recorded()
      modifies this`now, this`taken, this`run
      ensures Recorded() && run == Next(cfg, old(run), Stamp(now, Arrived(reply)))
    {
      Wait();
      reply := *;
      Note(Stamp(now, Arrived(reply)));
    }
  }

  class Client {
    const cfg: Config
    const w: World
    var busy: bool
    var token: string
    var tokenExp: int
    var notBefore: int
    var password: string

    constructor (w: World, password: string)
      ensures this.cfg == w.cfg && this.w == w
      ensures Shared() == Caller.Core(false, "", 0, 0, password)
    {
      this.cfg, this.w, this.password := w.cfg, w, password;
      busy, token, tokenExp, notBefore := false, "", 0, 0;
    }

    ghost function Shared(): Core
      reads this
    {
      Caller.Core(busy, token, tokenExp, notBefore, password)
    }

    /** The call has got to pc: the fields are where the run is. */
    ghost predicate At(pc: Pc)
      reads this, w
    {
      w.cfg == cfg && w.Recorded() && w.run.core == Shared() && w.run.me.pc == pc
    }

    /** What a finished call has done since it began in a state: exactly what the program of Caller
        does on the same readings of the clock, answers and ends of the context, with its result, its
        final state and its requests, of which there are at most ten. */
    ghost predicate Completed(op: Op, core: Core, res: Result)
      reads this, w
    {
      && w.run == Replay(cfg, core, Begin(op), w.taken) && Respected(cfg, core, Begin(op), w.taken)
      && w.run.core == Shared() && w.run.me.pc == Done(res)
      && w.requests == RequestsOf(w.run.hist) && |w.requests| <= 10
      && Ordered(w.run.hist)
    }

    /** The action and the parameters of a call's KasApi request. */
    ghost predicate Calls(op: Op, action: string, params: Params) {
      forall c: Core :: ApiCall(c, op) == ApiRequest(c.token, action, params)
    }

    // ----- flood.go -----

    /** waitForFloodWindowLocked. */
    method WaitForFloodWindow(ghost pc: Pc) returns (err: Maybe)
      requires At(pc) && (pc.AuthWindow? || pc.ApiWindow?)
      modifies w`now, w`taken, w`run
      ensures err.NoError? ==> At(if pc.AuthWindow? then AuthReady(pc.pin) else ApiReady)
      ensures err.Err? ==> At(Returned(Failed(err.error)))
      ensures SameCall(old(w.run.me), w.run.me)
    {
      hide Step, Replay, Next, World.Recorded;
      var t := w.Clock();
      AtWindow(cfg, old(w.run), t, false);
      if notBefore - t <= 0 {
        return NoError;
      }
      ghost var waiting := w.run;
      var ended := w.Sleep(notBefore);
      AtWindow(cfg, waiting, w.now, ended);
      if ended {
        return Err(ContextError);
      }
      return NoError;
    }

    /** applyFloodDelayLocked, at the time its clock reads: the window opens when the announced delay, in
        whole milliseconds, is over. */
    method ApplyFloodDelay(ret: Value, t: int)
      modifies this`notBefore
      ensures notBefore == if ret.Map? then t + (Announced(cfg, ret) * 1000.0).Floor * 1_000_000 else old(notBefore)
    {
      hide Step, Replay, Next, World.Recorded;
      if !ret.Map? {
        return;
      }
      var delay := AsFloat(cfg, ret.Field("Response").Field("KasFloodDelay"));
      if delay <= 0.0 {
        delay := AsFloat(cfg, ret.Field("KasFloodDelay"));
      }
      if delay <= 0.0 {
        delay := 2.0;
      }
      notBefore := t + (delay * 1000.0).Floor * MILLISECOND;
    }

    // ----- auth.go -----

    /** ensureSessionLocked. */
    method EnsureSession() returns (err: Maybe)
      requires At(Ensure)
      modifies w`now, w`taken, w`run, w`requests, this`token, this`tokenExp
      ensures err.NoError? ==> At(ApiWindow)
      ensures err.Err? ==> At(Returned(Failed(err.error)))
      ensures SameCall(old(w.run.me), w.run.me)
    {
      hide Step, Replay, Next, World.Recorded;
      var t := w.Clock();
      AtEnsure(cfg, old(w.run), t);
      if token != "" && t < tokenExp {
        return NoError;
      }
      var pin := "";
      if cfg.twoFactor {
        ghost var asking := w.run;
        var answer := w.AskPin();
        AtPin(cfg, asking, w.now, answer);
        if answer.NoPin? || answer.pin == "" {
          return Err(OtherError);
        }
        pin := answer.pin;
      }
      err := WaitForFloodWindow(AuthWindow(pin));
      if err.Err? {
        return;
      }
      err := Handshake(pin);
    }

    /** The KasAuth request of ensureSessionLocked and what it makes of the answer. */
    method Handshake(pin: string) returns (err: Maybe)
      requires At(AuthReady(pin))
      modifies w`now, w`taken, w`run, w`requests, this`token, this`tokenExp
      ensures
        || (err.Err? && w.requests == old(w.requests))
        || w.requests == old(w.requests) +
             [AuthRequest(cfg.authType, Passwords.SentFor(cfg, password), pin, cfg.lifetime)]
      ensures err.NoError? ==> At(ApiWindow)
      ensures err.Err? ==> At(Returned(Failed(err.error)))
      ensures SameCall(old(w.run.me), w.run.me)
    {
      hide Step, Replay, Next, World.Recorded;
      var authData := password;
      if cfg.authType.Sha1? {
        authData := cfg.digest(password);
      }
      var request := AuthRequest(cfg.authType, authData, pin, cfg.lifetime);
      var sent := w.Send(request);
      AtAuthReady(cfg, old(w.run), w.now, sent);
      if !sent {
        return Err(HandshakeError(OtherError));
      }
      ghost var flying := w.run;
      var reply := w.Receive();
      AtFlight(cfg, flying, w.now, reply);
      if reply.Fault? {
        return Err(HandshakeError(ApiError(reply.code)));
      }
      if reply.Broken? {
        return Err(HandshakeError(OtherError));
      }
      err := UseToken(reply.value);
    }

    /** The token of the answer to a KasAuth request, and the session it opens. */
    method UseToken(ret: Value) returns (err: Maybe)
      requires At(AuthNext(Decoded(ret)))
      modifies w`now, w`taken, w`run, this`token, this`tokenExp
      ensures err.NoError? <==> TokenOf(ret) != ""
      ensures err.NoError? ==> At(ApiWindow) && token == TokenOf(ret) && tokenExp == TrustedUntil(cfg.lifetime, w.now)
      ensures err.Err? ==> At(Returned(Failed(err.error)))
      ensures SameCall(old(w.run.me), w.run.me)
    {
      hide Step, Replay, Next, World.Recorded;
      var fresh' := AsString(ret);
      if ret.Map? && AsString(ret.Field("Response")) != "" {
        fresh' := AsString(ret.Field("Response"));
      }
      if fresh' == "" {
        return Err(OtherError);
      }
      ghost var storing := w.run;
      var t := w.Clock();
      AtStore(cfg, storing, t);
      token := fresh';
      tokenExp := t + SessionTTL(cfg.lifetime);
      return NoError;
    }

    // ----- client.go -----

    /** execLocked. */
    method ExecLocked(action: string, params: Params) returns (res: Result)
      requires At(Ensure) && Calls(w.run.me.op, action, params)
      modifies w`now, w`taken, w`run, w`requests, this`token, this`tokenExp, this`notBefore
      ensures At(Returned(res)) && SameCall(old(w.run.me), w.run.me)
    {
      hide Step, Replay, Next, World.Recorded;
      var err := EnsureSession();
      if err.Err? {
        return Failed(err.error);
      }
      err := WaitForFloodWindow(ApiWindow);
      if err.Err? {
        return Failed(err.error);
      }
      ghost var ready := w.run;
      var request := ApiRequest(token, action, params);
      var sent := w.Send(request);
      AtApiReady(cfg, ready, w.now, sent);
      if !sent {
        return Failed(OtherError);
      }
      ghost var flying := w.run;
      var reply := w.Receive();
      AtFlight(cfg, flying, w.now, reply);
      if reply.Fault? {
        return Failed(ApiError(reply.code));
      }
      if reply.Broken? {
        return Failed(OtherError);
      }
      res := UseAnswer(reply.value);
    }

    /** The rest of execLocked. */
    method UseAnswer(ret: Value) returns (res: Result)
      requires At(ApiFlood(ret))
      modifies w`now, w`taken, w`run, w`requests, this`tokenExp, this`notBefore
      ensures res == if InOrder(ret) then Ok(InfoOf(ret)) else Failed(OtherError)
      ensures At(Returned(res)) && SameCall(old(w.run.me), w.run.me)
    {
      hide Step, Replay, Next, World.Recorded, At, Shared, InOrder;
      res := CheckAnswer(ret);
      if res.Ok? {
        Extend(res.value);
      }
    }

    /** The flood delay and the checks of the response. */
    method CheckAnswer(ret: Value) returns (res: Result)
      requires At(ApiFlood(ret))
      modifies w`now, w`taken, w`run, this`notBefore
      ensures res == if InOrder(ret) then Ok(InfoOf(ret)) else Failed(OtherError)
      ensures At(if res.Ok? then ApiExtend(res.value) else Returned(res)) && SameCall(old(w.run.me), w.run.me)
    {
      hide Step, Replay, Next, World.Recorded;
      var t := w.Clock();
      AtAnswer(cfg, old(w.run), t);
      ApplyFloodDelay(ret, t);
      if ret.Map? {
        DelayIsAnnounced(cfg, ret);
      }
      var response := ret.Field("Response");
      if !response.Map? {
        return Failed(OtherError);
      }
      if AsString(response.Field("ReturnString")) != "TRUE" {
        return Failed(OtherError);
      }
      return Ok(response.Field("ReturnInfo"));
    }

    /** KAS extends the session on use. */
    method Extend(info: Value)
      requires At(ApiExtend(info))
      modifies w`now, w`taken, w`run, this`tokenExp
      ensures At(Returned(Ok(info))) && SameCall(old(w.run.me), w.run.me)
      ensures tokenExp == TrustedUntil(cfg.lifetime, w.now)
    {
      hide Step, Replay, Next, World.Recorded;
      var t := w.Clock();
      AtAnswer(cfg, old(w.run), t);
      tokenExp := t + SessionTTL(cfg.lifetime);
    }

    /** retries.again: prepares the next attempt and reports whether there is one. */
    method Again(reauthed: bool, flood: nat, e: Error) returns (yes: bool, reauthed': bool, flood': nat)
      requires At(Returned(Failed(e))) && !w.run.me.op.Logout?
      requires w.run.me.reauthed == reauthed && w.run.me.flood == flood <= MAX_FLOOD_RETRIES
      modifies w`now, w`taken, w`run, this`token, this`notBefore
      ensures w.run.me.op == old(w.run.me.op) && w.run.me.reauthed == reauthed' && w.run.me.flood == flood' <= MAX_FLOOD_RETRIES
      ensures yes ==> At(Pc.Recheck)
      ensures yes ==> (flood' == flood && !reauthed && reauthed') || (flood' == flood + 1 && reauthed' == reauthed)
      ensures !yes ==> At(Pc.Unlock(Failed(e)))
    {
      hide Step, Replay, Next, World.Recorded;
      yes, reauthed', flood' := false, reauthed, flood;
      var t := w.Clock();
      AtReturned(cfg, old(w.run), t);
      match RetryOf(e)
      case RetrySession =>
        if !reauthed {
          yes, reauthed' := true, true;
          token := "";
        }
      case RetryFlood =>
        if flood != MAX_FLOOD_RETRIES {
          yes, flood' := true, flood + 1;
          notBefore := t + flood' * 2 * SECOND;
        }
      case RetryNone =>
    }

    /** While a caller waits for the slot the others do what they like with the shared state; when the slot
        is there for it, they have freed it. */
    method OthersAct(free: bool)
      requires At(w.run.me.pc) && !HoldsSlot(w.run.me.pc)
      modifies w`now, w`taken, w`run, this`busy, this`token, this`tokenExp, this`notBefore, this`password
      ensures At(w.run.me.pc) && w.run.me == old(w.run.me) && (free ==> !busy)
    {
      hide Step, Replay, Next, World.Recorded;
      busy, token, tokenExp, notBefore, password := *, *, *, *, *;
      if free {
        busy := false;
      }
      w.OthersAct(Shared());
    }

    /** lock: the context first, then the slot against the end of the context. */
    method Lock() returns (ended: bool)
      requires At(Start) && !Rejected(w.run.me.op)
      modifies w`now, w`taken, w`run, w`entry, this`busy, this`token, this`tokenExp, this`notBefore, this`password
      ensures ended ==> At(Done(Failed(ContextError))) && w.entry == old(w.entry)
      ensures !ended ==> At(if w.run.me.op.Logout? then LogoutCheck else Ensure)
      ensures !ended ==> w.entry == Entered(Shared()) && w.entry.core.password == password
      ensures SameCall(old(w.run.me), w.run.me)
    {
      hide Step, Replay, Next, World.Recorded;
      ended := w.ContextEnded();
      AtEnter(cfg, old(w.run), w.now, ended);
      if ended {
        return;
      }
      ended := *;
      OthersAct(!ended);
      ghost var waiting := w.run;
      w.Select(ended);
      AtEnter(cfg, waiting, w.now, ended);
      if !ended {
        busy := true;
        w.entry := Entered(Shared());
      }
    }

    /** unlock. */
    method Unlock(ghost res: Result)
      requires At(Pc.Unlock(res))
      modifies w`now, w`taken, w`run, this`busy
      ensures At(if w.run.me.op.ChangePassword? && UpdateSucceeded(res) then Relock else Leaving(res)) && !busy
      ensures w.run.me.op == old(w.run.me.op) && w.run.hist == old(w.run.hist)
    {
      hide Step, Replay, Next, World.Recorded;
      var t := w.Clock();
      AtLeave(cfg, old(w.run), t);
      busy := false;
    }

    /** The return to the caller. */
    method Return(ghost res: Result)
      requires At(Leaving(res))
      modifies w`now, w`taken, w`run
      ensures At(Done(res)) && w.run.hist == old(w.run.hist)
    {
      hide Step, Replay, Next, World.Recorded;
      var t := w.Clock();
      AtLeave(cfg, old(w.run), t);
    }

    /** A call that has succeeded is over. */
    method Finish(res: Result)
      requires At(Returned(res)) && res.Ok? && !w.run.me.op.Logout?
      modifies w`now, w`taken, w`run
      ensures At(Pc.Unlock(res)) && w.run.me.op == old(w.run.me.op)
    {
      hide Step, Replay, Next, World.Recorded;
      var t := w.Clock();
      AtReturned(cfg, old(w.run), t);
    }

    /** The look at the context before another attempt. */
    method Recheck() returns (ended: bool)
      requires At(Pc.Recheck)
      modifies w`now, w`taken, w`run
      ensures At(if ended then Pc.Unlock(Failed(ContextError)) else Ensure)
      ensures SameCall(old(w.run.me), w.run.me)
    {
      hide Step, Replay, Next, World.Recorded;
      ended := w.ContextEnded();
      AtEnter(cfg, old(w.run), w.now, ended);
    }

    /** The loop of Exec. */
    method Attempts(action: string, params: Params) returns (res: Result)
      requires At(Ensure) && !w.run.me.op.Logout? && !w.run.me.reauthed && w.run.me.flood == 0
      requires Calls(w.run.me.op, action, params)
      modifies w`now, w`taken, w`run, w`requests, this`token, this`tokenExp, this`notBefore
      ensures At(Pc.Unlock(res)) && w.run.me.op == old(w.run.me.op)
    {
      hide Step, Replay, Next, World.Recorded, At, Shared;
      var reauthed, flood := false, 0;
      while true
        invariant At(Ensure) && w.run.me.op == old(w.run.me.op)
        invariant w.run.me.reauthed == reauthed && w.run.me.flood == flood <= MAX_FLOOD_RETRIES
        decreases (if reauthed then 0 else 1) + MAX_FLOOD_RETRIES - flood
      {
        res := ExecLocked(action, params);
        if res.Ok? {
          Finish(res);
          return;
        }
        var yes;
        yes, reauthed, flood := Again(reauthed, flood, res.error);
        if !yes {
          return;
        }
        var ended := Recheck();
        if ended {
          return Failed(ContextError);
        }
      }
    }

    /** Every call begins outside. */
    ghost method Starts(op: Op)
      requires w.cfg == cfg
      modifies w`origin, w`op, w`taken, w`run, w`requests, w`entry
      ensures At(Start) && w.op == op && w.origin == Shared() && w.requests == [] && w.run.me == Begin(op)
      ensures w.entry == Never
    {
      w.Begins(op, Shared());
    }

    /** The end of every call. */
    lemma Ends(op: Op, core: Core, res: Result)
      requires At(Done(res)) && w.op == op && w.origin == core
      ensures Completed(op, core, res) && Returns(op, LastEvent(w.run.hist), res)
    {
      hide Step, Returns, LastEvent;
      FinishedReturns(cfg, w.origin, w.op, w.taken, res);
      ReplayLawful(cfg, w.origin, w.op, w.taken, w.now);
      CallBounds(w.run.me, DigestOf(w.run.hist), w.now);
      RequestsCounted(w.run.hist);
    }

    /** Exec. The fields are what they are when the slot is given back. */
    method Exec(action: string, params: Params) returns (res: Result)
      requires w.cfg == cfg
      modifies this, w
      ensures w.entry.Entered? ==> !busy
      ensures w.entry.Never? ==> res.Failed? && w.requests == []
      ensures Completed(Op.Exec(action, params), old(Shared()), res)
      ensures Returns(Op.Exec(action, params), LastEvent(w.run.hist), res)
    {
      hide Step, Replay, Next, World.Recorded, At, Completed, Shared, Returns, LastEvent;
      Starts(Op.Exec(action, params));
      if action == "" {
        Reject();
        res := Failed(OtherError);
      } else {
        var ended := Lock();
        if ended {
          res := Failed(ContextError);
        } else {
          res := Attempts(action, params);
          Unlock(res);
          Return(res);
        }
      }
      Ends(w.op, w.origin, res);
    }

    /** An error before anything else. */
    method Reject()
      requires At(Start) && Rejected(w.run.me.op)
      modifies w`now, w`taken, w`run
      ensures At(Done(Failed(OtherError)))
    {
      hide Step, Replay, Next, World.Recorded;
      var t := w.Clock();
      AtEnter(cfg, old(w.run), t, false);
    }

    /** Logout with the slot held. */
    method EndSession() returns (res: Result)
      requires At(LogoutCheck) && w.run.me.op.Logout?
      modifies w`now, w`taken, w`run, w`requests, this`token, this`tokenExp, this`notBefore
      ensures At(Pc.Unlock(res)) && w.run.me.op.Logout? && token == ""
    {
      hide Step, Replay, Next, World.Recorded;
      var t := w.Clock();
      AtEnter(cfg, old(w.run), t, false);
      if token == "" || t >= tokenExp {
        token := "";
        return Ok(Nil);
      }
      res := ExecLocked("delete_session", map[]);
      res := DropToken(res);
    }

    /** What a Logout that still has the slot is going to return. */
    lemma Decided(res: Result)
      requires At(Pc.Unlock(res)) && w.op == Op.Logout
      ensures LogoutVerdict(LastEvent(w.run.hist), res)
    {
      hide Step, Replay, LogoutVerdict, LastEvent;
      ReplayExplained(cfg, w.origin, w.op, w.taken);
    }

    /** The end of Logout: the token goes, and a session that is not known counts as ended. */
    method DropToken(sent: Result) returns (res: Result)
      requires At(Returned(sent)) && w.run.me.op.Logout?
      modifies w`now, w`taken, w`run, this`token
      ensures At(Pc.Unlock(res)) && w.run.me.op.Logout? && token == ""
      ensures res ==
        if sent.Failed? && !(FaultOf(sent.error).Code? && EndedCode(FaultOf(sent.error).code)) then sent else Ok(Nil)
    {
      hide Step, Replay, Next, World.Recorded;
      var t := w.Clock();
      AtReturned(cfg, old(w.run), t);
      token := "";
      if sent.Ok? {
        return Ok(Nil);
      }
      var fault := FaultOf(sent.error);
      if fault.Code? && (IsSessionError(fault.code) || fault.code == "unknown_session") {
        return Ok(Nil);
      }
      return sent;
    }

    /** Logout. */
    method Logout() returns (res: Result)
      requires w.cfg == cfg
      modifies this, w
      ensures w.entry.Entered? ==> !busy && token == ""
      ensures w.entry.Never? ==> res == Failed(ContextError) && w.requests == []
      ensures w.entry.Entered? ==> LogoutVerdict(LastEvent(w.run.hist), res)
      ensures Completed(Op.Logout, old(Shared()), res)
    {
      hide Step, Replay, Next, World.Recorded, At, Completed, Shared, Returns, LogoutVerdict, LastEvent;
      Starts(Op.Logout);
      var ended := Lock();
      if ended {
        res := Failed(ContextError);
      } else {
        res := EndSession();
        Decided(res);
        Unlock(res);
        Return(res);
      }
      Ends(w.op, w.origin, res);
    }

    /** setPassword: waits for the slot, whatever becomes of the context. */
    method SetPassword(next: string)
      requires At(Relock) && w.run.me.op == ChangePassword(next)
      modifies w`now, w`taken, w`run, this`busy, this`token, this`tokenExp, this`notBefore, this`password
      ensures At(Leaving(Ok(Nil))) && !busy && password == next
    {
      hide Step, Replay, Next, World.Recorded, At, Shared;
      TakeTurn();
      StorePassword(next);
      GiveBack();
    }

    method TakeTurn()
      requires At(Relock)
      modifies w`now, w`taken, w`run, this`busy, this`token, this`tokenExp, this`notBefore, this`password
      ensures At(Store) && w.run.me.op == old(w.run.me.op)
    {
      hide Step, Replay, Next, World.Recorded;
      OthersAct(true);
      ghost var waiting := w.run;
      var t := w.Clock();
      AtLeave(cfg, waiting, t);
      busy := true;
    }

    method GiveBack()
      requires At(Unstore)
      modifies w`now, w`taken, w`run, this`busy
      ensures At(Leaving(Ok(Nil))) && !busy
    {
      hide Step, Replay, Next, World.Recorded;
      var t := w.Clock();
      AtLeave(cfg, old(w.run), t);
      busy := false;
    }

    method StorePassword(next: string)
      requires At(Store) && w.run.me.op == ChangePassword(next)
      modifies w`now, w`taken, w`run, this`password
      ensures At(Unstore) && password == next && w.run.me.op == old(w.run.me.op)
    {
      hide Step, Replay, Next, World.Recorded;
      var t := w.Clock();
      AtLeave(cfg, old(w.run), t);
      password := next;
    }

    /** UpdateOwnPassword: the update, and on success the local store in a second turn. */
    method UpdateOwnPassword(next: string) returns (res: Result)
      requires w.cfg == cfg
      modifies this, w
      ensures w.entry.Entered? ==> !busy
      ensures w.entry.Never? ==> res.Failed? && w.requests == []
      ensures Completed(ChangePassword(next), old(Shared()), res)
      ensures Returns(ChangePassword(next), LastEvent(w.run.hist), res)
      ensures res.Ok? ==> password == next
      ensures !res.Ok? && w.entry.Entered? ==> password == w.entry.core.password
    {
      hide Step, Replay, Next, World.Recorded, At, Completed, Shared, Returns, LastEvent;
      Starts(ChangePassword(next));
      if next == "" {
        Reject();
        res := Failed(OtherError);
      } else {
        var ended := Lock();
        if ended {
          res := Failed(ContextError);
        } else {
          res := Attempts("update_accountsettings", map["account_password" := Str(next)]);
          Unlock(res);
          if UpdateSucceeded(res) {
            SetPassword(next);
            res := Ok(Nil);
          }
          Return(res);
        }
      }
      Ends(w.op, w.origin, res);
    }
  }

  datatype Maybe = NoError | Err(error: Error)
}
