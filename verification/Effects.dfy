/** At most once: whatever is lost or malformed on the way, a call applies its action at most once,
    if the server applies nothing when it answers with a fault. */
module Effects {
  import opened Caller
  import opened CallerLaws
  import opened Turns

  /** What the server may have applied so far. */
  predicate OnceSoFar(m: Member) {
    && m.effects <= 1
    && (!Finishing(m.me.pc) && !m.me.pc.ApiFlight? ==> m.effects == 0)
    && (m.served.NotServed? ==> m.effects == 0 && (InFlight(m.me.pc) || Finishing(m.me.pc)))
    && (m.served.NotServed? && m.served.request.ApiRequest? ==> !m.me.pc.AuthFlight?)
    && (m.me.pc.ApiFlight? && m.served.Served? && m.served.reply.Fault? ==> m.effects == 0)
  }

  predicate AllOnce(s: State) {
    forall i | 0 <= i < |s.members| :: OnceSoFar(s.members[i])
  }

  /** The server applies nothing when its answer is a fault. */
  predicate FaultAppliesNothing(t: Tick) {
    t.move.Serve? && t.move.applied ==> !t.move.reply.Fault?
  }

  /** How a step moves between the two phases of a call: before its last answer and after. */
  predicate PhaseStep(me: Local, input: Input, out: Out) {
    && (Finishing(me.pc) ==> Finishing(out.me.pc))
    && (out.said.Says? && out.said.event.Sent? ==>
          !InFlight(me.pc) && !Finishing(me.pc)
          && if out.said.event.request.AuthRequest? then out.me.pc.AuthFlight? else out.me.pc.ApiFlight?)
    && (InFlight(me.pc) ==> out.me.pc == me.pc || Finishing(out.me.pc) || (input.Arrived? && !input.reply.Broken?))
    && (InFlight(out.me.pc) ==> out.me.pc == me.pc || (out.said.Says? && out.said.event.Sent?))
    && (me.pc.ApiFlight? && !out.me.pc.ApiFlight? && !Finishing(out.me.pc) ==> input.reply.Fault?)
  }

  lemma PhaseEnter(cfg: Config, core: Core, me: Local, now: int, input: Input)
    requires me.pc.Start? || me.pc.Lock? || me.pc.LogoutCheck? || me.pc.Recheck?
          || me.pc.Ensure? || me.pc.AskPin? || me.pc.AuthWindow?
    ensures PhaseStep(me, input, Step(cfg, core, me, now, input))
  {
  }

  lemma PhaseRequest(cfg: Config, core: Core, me: Local, now: int, input: Input)
    requires me.pc.AuthReady? || me.pc.AuthFlight? || me.pc.AuthStore?
          || me.pc.ApiWindow? || me.pc.ApiReady? || me.pc.ApiFlight?
    ensures PhaseStep(me, input, Step(cfg, core, me, now, input))
  {
  }

  lemma PhaseAnswer(cfg: Config, core: Core, me: Local, now: int, input: Input)
    requires me.pc.ApiFlood? || me.pc.ApiExtend? || me.pc.Returned?
    ensures PhaseStep(me, input, Step(cfg, core, me, now, input))
  {
  }

  lemma PhaseLeave(cfg: Config, core: Core, me: Local, now: int, input: Input)
    requires me.pc.Unlock? || me.pc.Relock? || me.pc.Store? || me.pc.Unstore? || me.pc.Leaving? || me.pc.Done?
    ensures PhaseStep(me, input, Step(cfg, core, me, now, input))
  {
  }

  lemma StepPhase(cfg: Config, core: Core, me: Local, now: int, input: Input)
    ensures PhaseStep(me, input, Step(cfg, core, me, now, input))
  {
    match me.pc
    case AuthReady(_) | AuthFlight | AuthStore(_) | ApiWindow | ApiReady | ApiFlight =>
      PhaseRequest(cfg, core, me, now, input);
    case ApiFlood(_) | ApiExtend(_) | Returned(_) => PhaseAnswer(cfg, core, me, now, input);
    case Unlock(_) | Relock | Store | Unstore | Leaving(_) | Done(_) => PhaseLeave(cfg, core, me, now, input);
    case _ => PhaseEnter(cfg, core, me, now, input);
  }

  lemma AllOnceApply(cfg: Config, s: State, t: Tick)
    requires AllOnce(s) && Enabled(s, t) && FaultAppliesNothing(t)
    ensures AllOnce(Apply(cfg, s, t))
  {
    var s' := Apply(cfg, s, t);
    if t.move.Act? {
      StepPhase(cfg, s.core, s.members[t.move.who].me, t.at, t.move.input);
    }
    forall i | 0 <= i < |s'.members|
      ensures OnceSoFar(s'.members[i])
    {
      assert OnceSoFar(s.members[i]);
    }
  }

  /** In every run in which faults apply nothing, every call applies its action at most once, and not
      at all before the answer to its last request. */
  lemma {:induction false} AtMostOnce(cfg: Config, states: seq<State>, ticks: seq<Tick>, k: nat)
    requires IsRun(cfg, states, ticks) && k < |states|
    requires forall i | 0 <= i < |ticks| :: FaultAppliesNothing(ticks[i])
    ensures AllOnce(states[k])
    ensures forall i | 0 <= i < |states[k].members| :: states[k].members[i].effects <= 1
  {
    assert AllOnce(states[k]) ==> forall i | 0 <= i < |states[k].members| :: OnceSoFar(states[k].members[i]);
    if k == 0 {
      forall i | 0 <= i < |states[0].members|
        ensures OnceSoFar(states[0].members[i])
      {
        assert states[0].members[i].effects == 0;
      }
    } else {
      AtMostOnce(cfg, states, ticks, k - 1);
      assert Enabled(states[k - 1], ticks[k - 1]);
      AllOnceApply(cfg, states[k - 1], ticks[k - 1]);
    }
  }

  // ----- what is applied -----

  /** A KasApi request asks for what the call is for. */
  predicate AsksFor(op: Op, request: Request) {
    request.ApiRequest? ==>
      match op
      case Exec(action, params) => request.action == action && request.params == params
      case Logout => request.action == "delete_session" && request.params == map[]
      case ChangePassword(next) =>
        request.action == "update_accountsettings" && request.params == map["account_password" := Values.Str(next)]
  }

  predicate AllAskFor(m: Member) {
    forall p | 0 <= p < |m.hist| && m.hist[p].Sent? :: AsksFor(m.me.op, m.hist[p].request)
  }

  lemma StepAsksFor(cfg: Config, core: Core, me: Local, now: int, input: Input)
    ensures var out := Step(cfg, core, me, now, input);
      out.me.op == me.op && (out.said.Says? && out.said.event.Sent? ==> AsksFor(me.op, out.said.event.request))
  {
    StepSlot(cfg, core, me, now, input);
    if !me.pc.AuthReady? && !me.pc.ApiReady? {
      StepPhase(cfg, core, me, now, input);
    }
  }

  /** In every run every KasApi request of a call asks for its action with its parameters, and for
      nothing else. */
  lemma {:induction false} RequestsAskForTheCall(cfg: Config, states: seq<State>, ticks: seq<Tick>, k: nat, who: nat)
    requires IsRun(cfg, states, ticks) && k < |states| && who < |states[k].members|
    ensures AllAskFor(states[k].members[who])
  {
    hide Step, AsksFor;
    if k > 0 {
      assert Enabled(states[k - 1], ticks[k - 1]);
      RequestsAskForTheCall(cfg, states, ticks, k - 1, who);
      if ticks[k - 1].move.Act? {
        StepAsksFor(cfg, states[k - 1].core, states[k - 1].members[ticks[k - 1].move.who].me, ticks[k - 1].at,
                    ticks[k - 1].move.input);
      }
    }
  }

  // ----- what a handshake asks for -----

  /** A KasAuth request asks for the lifetime the client counts on, says how the password is sent, and has a
      PIN exactly if there is a callback for one. */
  predicate LogsIn(cfg: Config, request: Request) {
    request.AuthRequest? ==>
      && request.lifetime == cfg.lifetime && request.authType == cfg.authType
      && (request.pin != "" <==> cfg.twoFactor)
  }

  predicate PinFits(cfg: Config, pc: Pc) {
    match pc
    case AskPin => cfg.twoFactor
    case AuthWindow(pin) => pin != "" <==> cfg.twoFactor
    case AuthReady(pin) => pin != "" <==> cfg.twoFactor
    case _ => true
  }

  predicate AllLogIn(cfg: Config, m: Member) {
    PinFits(cfg, m.me.pc) && forall p | 0 <= p < |m.hist| && m.hist[p].Sent? :: LogsIn(cfg, m.hist[p].request)
  }

  lemma StepLogsIn(cfg: Config, core: Core, me: Local, now: int, input: Input)
    requires PinFits(cfg, me.pc)
    ensures var out := Step(cfg, core, me, now, input);
      PinFits(cfg, out.me.pc) && (out.said.Says? && out.said.event.Sent? ==> LogsIn(cfg, out.said.event.request))
  {
    if me.pc.Ensure? || me.pc.AskPin? || me.pc.AuthWindow? {
      hide AuthData;
    } else if me.pc.AuthReady? {
      hide AuthData;
    } else {
      PinGone(cfg, core, me, now, input);
    }
  }

  /** Outside of a handshake there is no PIN and no KasAuth request. */
  lemma PinGone(cfg: Config, core: Core, me: Local, now: int, input: Input)
    requires !me.pc.Ensure? && !me.pc.AskPin? && !me.pc.AuthWindow? && !me.pc.AuthReady?
    ensures var out := Step(cfg, core, me, now, input);
      PinFits(cfg, out.me.pc) && (out.said.Says? && out.said.event.Sent? ==> LogsIn(cfg, out.said.event.request))
  {
    hide AuthData, TokenOf, ResponseResult, Delay, SessionTTL, LogoutResult, UpdateSucceeded, RetryOf, AuthCall;
  }

  /** In every run every handshake asks for the lifetime the client counts on, whoever makes it and however
      often. */
  lemma {:induction false} HandshakesAskForTheLifetime(cfg: Config, states: seq<State>, ticks: seq<Tick>, k: nat, who: nat)
    requires IsRun(cfg, states, ticks) && k < |states| && who < |states[k].members|
    ensures AllLogIn(cfg, states[k].members[who])
  {
    hide Step, LogsIn, PinFits;
    if k == 0 {
      BeginsWithoutPin(cfg, states[0].members[who].me.op);
    } else {
      var s, t := states[k - 1], ticks[k - 1];
      assert Enabled(s, t);
      HandshakesAskForTheLifetime(cfg, states, ticks, k - 1, who);
      if t.move.Act? && t.move.who == who {
        StepLogsIn(cfg, s.core, s.members[who].me, t.at, t.move.input);
      }
    }
  }

  lemma BeginsWithoutPin(cfg: Config, op: Op)
    ensures PinFits(cfg, Begin(op).pc)
  {
  }
}
