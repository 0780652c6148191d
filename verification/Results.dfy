/** What a call returns (client.go, auth.go, params.go, account.go), read off the last thing it did: which
    answers are success, which error every other answer gives, and what Logout and UpdateOwnPassword make
    of it. The conditions are spelled out on the answers themselves. */
module Results {
  import opened Values
  import opened Soap
  import opened Caller
  import opened Turns

  // ----- answers, spelled out -----

  /** A response KAS reports as done: a map whose Response is a map with ReturnString TRUE. */
  predicate InOrder(ret: Value) {
    && ret.Map? && "Response" in ret.fields
    && var response := ret.fields["Response"];
       response.Map? && "ReturnString" in response.fields && response.fields["ReturnString"] == Str("TRUE")
  }

  /** Its ReturnInfo, nil if there is none. */
  function InfoOf(ret: Value): Value
    requires InOrder(ret)
  {
    var response := ret.fields["Response"].fields;
    if "ReturnInfo" in response then response["ReturnInfo"] else Nil
  }

  /** execLocked takes exactly a response in order for success. */
  lemma ResponseIsRead(ret: Value)
    ensures ResponseResult(ret) == if InOrder(ret) then Ok(InfoOf(ret)) else Failed(OtherError)
  {
  }

  /** The token of a KasAuth response: its Response, if that is a text that is not empty, or the whole
      response, if that is a text. */
  lemma TokenIsRead(ret: Value)
    ensures ret.Str? ==> TokenOf(ret) == ret.chars
    ensures ret.Map? && "Response" in ret.fields && ret.fields["Response"].Str? ==>
      TokenOf(ret) == ret.fields["Response"].chars
    ensures TokenOf(ret) != "" ==> ret.Str? || (ret.Map? && "Response" in ret.fields && ret.fields["Response"].Str?)
  {
  }

  /** What is tried again, code by code: a session the API rejected and flood protection, and of a handshake
      only flood protection. */
  lemma RetryCodes(code: string)
    ensures RetryOf(ApiError(code)) ==
      if code == "flood_protection" then RetryFlood
      else if code == "kas_auth_data_incorrect" || code == "session_token_invalid" || code == "session_expired"
      then RetrySession
      else RetryNone
    ensures RetryOf(HandshakeError(ApiError(code))) == if code == "flood_protection" then RetryFlood else RetryNone
    ensures RetryOf(ContextError) == RetryOf(OtherError) == RetryOf(HandshakeError(OtherError)) == RetryNone
  {
    assert FaultOf(HandshakeError(ApiError(code))) == FaultOf(ApiError(code));
    assert FaultOf(HandshakeError(OtherError)) == FaultOf(OtherError);
  }

  /** What execLocked failed with is tried again exactly for these codes: once for a session the API rejected,
      three times for flood protection, and never in a Logout. Only a rejected session costs the token. */
  lemma RetriesGranted(cfg: Config, core: Core, me: Local, now: int, e: Error)
    requires me.pc == Returned(Failed(e)) && !me.op.Logout?
    ensures
      var out := Step(cfg, core, me, now, Go);
      var rejected := e.ApiError? && e.code in ["kas_auth_data_incorrect", "session_token_invalid", "session_expired"];
      var flooded := FaultOf(e) == Code("flood_protection");
      if rejected && !me.reauthed
      then out.me == me.(pc := Recheck, reauthed := true) && out.core == core.(token := "")
      else if flooded && me.flood != 3
      then && out.me == me.(pc := Recheck, flood := me.flood + 1)
           && out.core == core.(notBefore := now + (me.flood + 1) * 2_000_000_000)
      else out.me == me.(pc := Pc.Unlock(Failed(e))) && out.core == core
  {
    if e.HandshakeError? {
      assert FaultOf(e) == FaultOf(e.cause);
    }
  }

  /** A Logout counts these codes as a session that has ended. */
  predicate EndedCode(code: string) {
    || code == "kas_auth_data_incorrect" || code == "session_token_invalid" || code == "session_expired"
    || code == "unknown_session"
  }

  // ----- the result of a call -----

  function LastEvent(h: History): Said {
    if h == [] then Silent else Says(h[|h| - 1])
  }

  lemma LastEventSnoc(h: History, said: Said)
    ensures LastEvent(h + Heard(said)) == EventAfter(LastEvent(h), said)
  {
    match said
    case Silent => assert h + [] == h;
    case Says(_) =>
  }

  function EventAfter(last: Said, said: Said): Said {
    if said.Says? then said else last
  }

  /** An error that is no fault of KAS. */
  predicate OwnError(r: Result) {
    r == Failed(ContextError) || r == Failed(OtherError) || r == Failed(HandshakeError(OtherError))
  }

  /** What the attempts of a call come to, by the last event. */
  predicate Verdict(last: Said, r: Result) {
    match last
    case Silent => false
    case Says(Attempt(_)) => OwnError(r)
    case Says(Opened(_, _)) => OwnError(r)
    case Says(Granted(_, _, _)) => r == Failed(ContextError)
    case Says(Sent(_, _)) => false
    case Says(Answered(_, auth, reply)) =>
      if auth then HandshakeVerdict(reply, r) else CallVerdict(reply, r)
  }

  /** A handshake is never the end of a call that succeeds. */
  predicate HandshakeVerdict(reply: Reply, r: Result) {
    match reply
    case Fault(code) => r == Failed(HandshakeError(ApiError(code)))
    case Broken => r == Failed(HandshakeError(OtherError))
    case Decoded(_) => r == Failed(OtherError)
  }

  predicate CallVerdict(reply: Reply, r: Result) {
    match reply
    case Fault(code) => r == Failed(ApiError(code))
    case Broken => r == Failed(OtherError)
    case Decoded(ret) => if InOrder(ret) then r == Ok(InfoOf(ret)) else r == Failed(OtherError)
  }

  /** The last event confirms the call: a KasApi response in order. */
  predicate Answers(last: Said) {
    last.Says? && last.event.Answered? && !last.event.auth && last.event.reply.Decoded? && InOrder(last.event.reply.value)
  }

  predicate Faults(last: Said, code: string) {
    last.Says? && last.event.Answered? && last.event.reply == Fault(code)
  }

  /** What a Logout that has the slot returns: success without a session, after a response in order and after
      a fault that says the session is gone; otherwise the error of the last event. */
  predicate LogoutVerdict(last: Said, r: Result) {
    if last.Silent? || Answers(last) || EndedAt(last) then r == Ok(Nil)
    else r.Failed? && Verdict(last, r)
  }

  predicate EndedAt(last: Said) {
    last.Says? && last.event.Answered? && last.event.reply.Fault? && EndedCode(last.event.reply.code)
  }

  /** An UpdateOwnPassword also takes nothing_to_do for success. */
  predicate Updates(last: Said) {
    Answers(last) || Faults(last, "nothing_to_do")
  }

  /** What a finished call returns. One that never got the slot returns an error of its own. */
  predicate Returns(op: Op, last: Said, r: Result) {
    match op
    case Exec(_, _) => if last.Silent? then OwnError(r) else Verdict(last, r)
    case Logout => (last.Silent? && OwnError(r)) || LogoutVerdict(last, r)
    case ChangePassword(_) =>
      if Updates(last) then r == Ok(Nil) else if last.Silent? then OwnError(r) else Verdict(last, r)
  }

  // ----- how the last event fits the place of the call -----

  predicate Explained(me: Local, last: Said) {
    match me.pc
    case Start | Lock => last.Silent?
    case LogoutCheck => last.Silent? && me.op.Logout?
    case Recheck => last.Says? && last.event.Granted? && !me.op.Logout?
    case Ensure => last.Silent? || last.event.Granted?
    case AskPin | AuthWindow(_) | AuthReady(_) => last.Says? && last.event.Attempt?
    case AuthFlight | ApiFlight => last.Says? && last.event.Sent?
    case AuthStore(_) => last.Says? && last.event.Answered? && last.event.auth && last.event.reply.Decoded?
    case ApiWindow | ApiReady => last.Says? && (last.event.Attempt? || last.event.Opened?)
    case ApiFlood(ret) => last.Says? && last.event.Answered? && !last.event.auth && last.event.reply == Decoded(ret)
    case ApiExtend(info) => Answers(last) && info == InfoOf(last.event.reply.value)
    case Returned(r) => Verdict(last, r)
    case Unlock(r) => if me.op.Logout? then LogoutVerdict(last, r) else Verdict(last, r)
    case Relock | Store | Unstore => me.op.ChangePassword? && Updates(last)
    case Leaving(r) => Returns(me.op, last, r)
    case Done(r) => Returns(me.op, last, r)
  }

  predicate ExplainedAfter(out: Out, last: Said) {
    Explained(out.me, EventAfter(last, out.said))
  }

  lemma ExplainedEnter(core: Core, me: Local, now: int, input: Input, last: Said)
    requires Explained(me, last)
    requires me.pc.Start? || me.pc.Lock? || me.pc.LogoutCheck? || me.pc.Recheck?
    ensures ExplainedAfter(StepEnter(core, me, now, input), last)
  {
    hide InOrder;
  }

  lemma ExplainedSession(cfg: Config, core: Core, me: Local, now: int, input: Input, last: Said)
    requires Explained(me, last) && (me.pc.Ensure? || me.pc.AskPin? || me.pc.AuthWindow?)
    ensures ExplainedAfter(StepSession(cfg, core, me, now, input), last)
  {
    hide InOrder;
  }

  lemma ExplainedOpen(cfg: Config, core: Core, me: Local, now: int, input: Input, last: Said)
    requires Explained(me, last) && (me.pc.AuthReady? || me.pc.AuthFlight? || me.pc.AuthStore?)
    ensures ExplainedAfter(StepOpen(cfg, core, me, now, input), last)
  {
    hide InOrder, TokenOf, AuthCall;
  }

  lemma ExplainedCall(core: Core, me: Local, now: int, input: Input, last: Said)
    requires Explained(me, last) && (me.pc.ApiWindow? || me.pc.ApiReady? || me.pc.ApiFlight?)
    ensures ExplainedAfter(StepCall(core, me, now, input), last)
  {
    hide InOrder, ApiCall;
  }

  lemma ExplainedAnswer(cfg: Config, core: Core, me: Local, now: int, input: Input, last: Said)
    requires Explained(me, last) && (me.pc.ApiFlood? || me.pc.ApiExtend?)
    ensures ExplainedAfter(StepAnswer(cfg, core, me, now, input), last)
  {
    hide InOrder, ResponseResult, Delay, SessionTTL;
    if me.pc.ApiFlood? {
      ResponseIsRead(me.pc.ret);
    }
  }

  lemma ExplainedSettle(core: Core, me: Local, now: int, r: Result, last: Said)
    requires Explained(me, last) && me.pc == Returned(r)
    ensures ExplainedAfter(Settle(core, me, now, r), last)
  {
    hide InOrder, RetryOf;
    if me.op.Logout? {
      LogoutIsExplained(last, r);
    }
  }

  lemma LogoutIsExplained(last: Said, r: Result)
    requires Verdict(last, r)
    ensures LogoutVerdict(last, LogoutResult(r))
  {
    hide InOrder;
    if r.Failed? && r.error.HandshakeError? {
      assert FaultOf(r.error) == FaultOf(r.error.cause);
    }
  }

  lemma ExplainedLeave(core: Core, me: Local, input: Input, last: Said)
    requires Explained(me, last)
    requires me.pc.Unlock? || me.pc.Relock? || me.pc.Store? || me.pc.Unstore? || me.pc.Leaving? || me.pc.Done?
    ensures ExplainedAfter(StepLeave(core, me, input), last)
  {
    hide InOrder, UpdateSucceeded;
    if me.pc.Unlock? && me.op.ChangePassword? {
      UpdateIsExplained(last, me.pc.result);
    }
  }

  lemma UpdateIsExplained(last: Said, r: Result)
    requires Verdict(last, r)
    ensures UpdateSucceeded(r) <==> Updates(last)
  {
    hide InOrder;
    if r.Failed? && r.error.HandshakeError? {
      assert FaultOf(r.error) == FaultOf(r.error.cause);
    }
  }

  lemma StepExplained(cfg: Config, core: Core, me: Local, now: int, input: Input, last: Said)
    requires Explained(me, last)
    ensures ExplainedAfter(Step(cfg, core, me, now, input), last)
  {
    hide Explained, ExplainedAfter;
    match me.pc
    case Start | Lock | LogoutCheck | Recheck => ExplainedEnter(core, me, now, input, last);
    case Ensure | AskPin | AuthWindow(_) => ExplainedSession(cfg, core, me, now, input, last);
    case AuthReady(_) | AuthFlight | AuthStore(_) => ExplainedOpen(cfg, core, me, now, input, last);
    case ApiWindow | ApiReady | ApiFlight => ExplainedCall(core, me, now, input, last);
    case ApiFlood(_) | ApiExtend(_) => ExplainedAnswer(cfg, core, me, now, input, last);
    case Returned(r) =>
      if input.Go? {
        ExplainedSettle(core, me, now, r, last);
      } else {
        StaysExplained(core, me, last);
      }
    case _ => ExplainedLeave(core, me, input, last);
  }

  lemma StaysExplained(core: Core, me: Local, last: Said)
    requires Explained(me, last)
    ensures ExplainedAfter(Out(core, me, Silent), last)
  {
  }

  // ----- errors without an answer -----

  /** A call the client does not accept ends at once with an error of its own. */
  lemma RejectedAtOnce(cfg: Config, core: Core, op: Op, now: int, input: Input)
    ensures
      Step(cfg, core, Begin(op), now, input) == Out(core, Begin(op).(pc := Done(Failed(OtherError))), Silent) <==>
        (op.Exec? && op.action == "") || (op.ChangePassword? && op.next == "")
  {
  }

  /** Where a call looks at its context or waits it ends silently with the error of the context, and changes
      nothing; a request that does not get off is a login error in a handshake and a plain one otherwise, as is
      a PIN that is missing. */
  lemma EndsUnanswered(cfg: Config, core: Core, me: Local, now: int)
    ensures me.pc.Lock? ==>
      Step(cfg, core, me, now, CtxEnded) == Out(core, me.(pc := Done(Failed(ContextError))), Silent)
    ensures me.pc.Recheck? ==>
      Step(cfg, core, me, now, CtxEnded) == Out(core, me.(pc := Pc.Unlock(Failed(ContextError))), Silent)
    ensures me.pc.AuthWindow? || me.pc.ApiWindow? ==>
      Step(cfg, core, me, now, CtxEnded) == Out(core, me.(pc := Returned(Failed(ContextError))), Silent)
    ensures me.pc.AskPin? ==>
      && Step(cfg, core, me, now, PinFailed) == Out(core, me.(pc := Returned(Failed(OtherError))), Silent)
      && Step(cfg, core, me, now, Pin("")) == Out(core, me.(pc := Returned(Failed(OtherError))), Silent)
    ensures me.pc.AuthReady? ==>
      Step(cfg, core, me, now, SendFailed) == Out(core, me.(pc := Returned(Failed(HandshakeError(OtherError)))), Silent)
    ensures me.pc.ApiReady? ==>
      Step(cfg, core, me, now, SendFailed) == Out(core, me.(pc := Returned(Failed(OtherError))), Silent)
  {
  }

  // ----- over runs -----

  lemma BeginExplained(op: Op)
    ensures Explained(Begin(op), LastEvent([]))
  {
  }

  /** A run of one caller, whatever the others do in between. */
  lemma {:induction false} ReplayExplained(cfg: Config, core: Core, op: Op, steps: seq<Stamp>)
    ensures
      var run := Replay(cfg, core, Begin(op), steps);
      run.me.op == op && Explained(run.me, LastEvent(run.hist))
  {
    hide Step, Explained, LastEvent;
    if steps == [] {
      BeginExplained(op);
    } else {
      var init, last := steps[..|steps| - 1], steps[|steps| - 1];
      ReplayExplained(cfg, core, op, init);
      var run := Replay(cfg, core, Begin(op), init);
      if last.Stamp? {
        StepSlot(cfg, run.core, run.me, last.at, last.input);
        StepExplained(cfg, run.core, run.me, last.at, last.input, LastEvent(run.hist));
        LastEventSnoc(run.hist, Step(cfg, run.core, run.me, last.at, last.input).said);
      }
    }
  }

  /** A finished call returns what its last event says. */
  lemma FinishedReturns(cfg: Config, core: Core, op: Op, steps: seq<Stamp>, r: Result)
    ensures
      var run := Replay(cfg, core, Begin(op), steps);
      run.me.pc == Done(r) ==> Returns(op, LastEvent(run.hist), r)
  {
    hide Returns;
    ReplayExplained(cfg, core, op, steps);
  }

  lemma {:induction false} RunExplained(cfg: Config, states: seq<State>, ticks: seq<Tick>, k: nat, who: nat)
    requires IsRun(cfg, states, ticks) && k < |states| && who < |states[k].members|
    ensures Explained(states[k].members[who].me, LastEvent(states[k].members[who].hist))
  {
    hide Step, Explained, LastEvent;
    if k == 0 {
      BeginExplained(states[0].members[who].me.op);
    } else {
      var s, t := states[k - 1], ticks[k - 1];
      assert Enabled(s, t);
      RunExplained(cfg, states, ticks, k - 1, who);
      if t.move.Act? && t.move.who == who {
        var m := s.members[who];
        StepExplained(cfg, s.core, m.me, t.at, t.move.input, LastEvent(m.hist));
        LastEventSnoc(m.hist, Step(cfg, s.core, m.me, t.at, t.move.input).said);
      }
    }
  }

  /** A call is over with a result. */
  predicate Finished(states: seq<State>, k: nat, who: nat, r: Result) {
    k < |states| && who < |states[k].members| && states[k].members[who].me.pc == Done(r)
  }

  function LastOf(states: seq<State>, k: nat, who: nat): Said
    requires k < |states| && who < |states[k].members|
  {
    LastEvent(states[k].members[who].hist)
  }

  /** In every run an Exec that is over has succeeded exactly when the last it heard is a KasApi response in
      order, and then has returned its ReturnInfo. Any other response gives an error without a code, a fault
      the error of that code, and everything else an error without one. */
  lemma ExecReturns(cfg: Config, states: seq<State>, ticks: seq<Tick>, k: nat, who: nat, r: Result)
    requires IsRun(cfg, states, ticks) && Finished(states, k, who, r)
    requires states[k].members[who].me.op.Exec?
    ensures r.Ok? <==> Answers(LastOf(states, k, who))
    ensures r.Ok? ==> r == Ok(InfoOf(LastOf(states, k, who).event.reply.value))
    ensures r.Failed? ==>
      match FaultOf(r.error)
      case Code(code) => Faults(LastOf(states, k, who), code)
      case NoCode => forall code :: !Faults(LastOf(states, k, who), code)
  {
    hide InOrder;
    RunExplained(cfg, states, ticks, k, who);
    ErrorsOf(LastOf(states, k, who), r);
  }

  /** The code of an error is the code of the fault the call heard last, if that is one. */
  lemma ErrorsOf(last: Said, r: Result)
    requires Verdict(last, r) || OwnError(r)
    ensures OwnError(r) ==> FaultOf(r.error) == NoCode
    ensures r.Failed? && Verdict(last, r) ==>
      match FaultOf(r.error)
      case Code(code) => Faults(last, code)
      case NoCode => forall code :: !Faults(last, code)
  {
    hide InOrder;
    if r.Failed? && r.error.HandshakeError? {
      assert FaultOf(r.error) == FaultOf(r.error.cause);
    }
  }

  /** In every run an UpdateOwnPassword that is over has succeeded exactly when the last it heard is a KasApi
      response in order or the fault nothing_to_do, and otherwise failed as Exec does. */
  lemma UpdateReturns(cfg: Config, states: seq<State>, ticks: seq<Tick>, k: nat, who: nat, r: Result)
    requires IsRun(cfg, states, ticks) && Finished(states, k, who, r)
    requires states[k].members[who].me.op.ChangePassword?
    ensures r.Ok? <==> Answers(LastOf(states, k, who)) || Faults(LastOf(states, k, who), "nothing_to_do")
    ensures r.Failed? ==>
      match FaultOf(r.error)
      case Code(code) => Faults(LastOf(states, k, who), code)
      case NoCode => forall code :: !Faults(LastOf(states, k, who), code)
  {
    hide InOrder;
    RunExplained(cfg, states, ticks, k, who);
    if r.Failed? {
      ErrorsOf(LastOf(states, k, who), r);
    }
  }

  // ----- Logout -----

  /** A caller has had the slot. */
  predicate HasEntered(states: seq<State>, who: nat, k: nat)
    requires k < |states|
  {
    exists i | 0 <= i <= k :: who < |states[i].members| && HoldsSlot(states[i].members[who].me.pc)
  }

  /** A step of a Logout that finds no session it trusts. */
  predicate FindsNoSession(core: Core, me: Local, now: int, input: Input) {
    me.pc.LogoutCheck? && input.Go? && (core.token == "" || now >= core.tokenExp)
  }

  predicate FoundNoSession(states: seq<State>, ticks: seq<Tick>, who: nat, k: nat)
    requires k <= |ticks| <= |states|
  {
    exists i | 0 <= i < k :: FindsNoneAt(states[i], ticks[i], who)
  }

  predicate FindsNoneAt(s: State, t: Tick, who: nat) {
    && t.move.Act? && t.move.who == who < |s.members|
    && FindsNoSession(s.core, s.members[who].me, t.at, t.move.input)
  }

  /** How far a Logout has got and what it has found. */
  predicate Tracked(me: Local, last: Said, entered: bool, none: bool) {
    match me.pc
    case Start | Lock => !entered && !none
    case Unlock(_) => entered && (none <==> last.Silent?)
    case Leaving(r) => entered && (none <==> last.Silent?) && LogoutVerdict(last, r)
    case Done(r) =>
      if entered then (none <==> last.Silent?) && LogoutVerdict(last, r)
      else !none && last.Silent? && r == Failed(ContextError)
    case Relock | Store | Unstore => false
    case _ => entered && !none
  }

  lemma StepTracked(cfg: Config, core: Core, me: Local, now: int, input: Input, last: Said, entered: bool, none: bool)
    requires me.op.Logout? && Explained(me, last) && Tracked(me, last, entered, none)
    ensures
      var out := Step(cfg, core, me, now, input);
      Tracked(out.me, EventAfter(last, out.said), entered || HoldsSlot(out.me.pc),
              none || FindsNoSession(core, me, now, input))
  {
    hide InOrder, Answers, EndedAt, ResponseResult, TokenOf, Delay, SessionTTL, LogoutResult, AuthCall, ApiCall;
  }

  lemma {:induction false} RunTracked(cfg: Config, states: seq<State>, ticks: seq<Tick>, k: nat, who: nat)
    requires IsRun(cfg, states, ticks) && k < |states| && who < |states[k].members|
    requires states[k].members[who].me.op.Logout?
    ensures Tracked(states[k].members[who].me, LastOf(states, k, who), HasEntered(states, who, k),
                    FoundNoSession(states, ticks, who, k))
  {
    hide Step, Explained, LastEvent, Tracked, FindsNoSession;
    if k == 0 {
      assert Tracked(Begin(Logout), LastEvent([]), false, false) by { NotTracked(); }
    } else {
      var s, t := states[k - 1], ticks[k - 1];
      assert Enabled(s, t);
      var m := s.members[who];
      if t.move.Act? {
        StepSlot(cfg, s.core, s.members[t.move.who].me, t.at, t.move.input);
      }
      RunTracked(cfg, states, ticks, k - 1, who);
      assert HasEntered(states, who, k) <==> HasEntered(states, who, k - 1) || HoldsSlot(states[k].members[who].me.pc);
      assert FoundNoSession(states, ticks, who, k) <==>
        FoundNoSession(states, ticks, who, k - 1) || FindsNoneAt(s, t, who);
      if t.move.Act? && t.move.who == who {
        RunExplained(cfg, states, ticks, k - 1, who);
        StepTracked(cfg, s.core, m.me, t.at, t.move.input, LastEvent(m.hist), HasEntered(states, who, k - 1),
                    FoundNoSession(states, ticks, who, k - 1));
        LastEventSnoc(m.hist, Step(cfg, s.core, m.me, t.at, t.move.input).said);
      } else {
        StaysEntered(states, who, k);
      }
    }
  }

  lemma NotTracked()
    ensures Tracked(Begin(Logout), LastEvent([]), false, false)
  {
  }

  lemma StaysEntered(states: seq<State>, who: nat, k: nat)
    requires 0 < k < |states| && who < |states[k].members| && who < |states[k - 1].members|
    requires states[k].members[who].me == states[k - 1].members[who].me
    ensures HasEntered(states, who, k) <==> HasEntered(states, who, k - 1)
  {
  }

  /** In every run a Logout that had the slot has returned success in exactly three cases: it found no session
      it trusted, or the last it heard is a KasApi response in order, or a fault that says the session is
      gone. Otherwise its error has the code of the fault it heard last, or none if that is no fault. One that
      never had the slot returns the error of its context. */
  lemma LogoutReturns(cfg: Config, states: seq<State>, ticks: seq<Tick>, k: nat, who: nat, r: Result)
    requires IsRun(cfg, states, ticks) && Finished(states, k, who, r)
    requires states[k].members[who].me.op.Logout?
    ensures !HasEntered(states, who, k) ==> r == Failed(ContextError)
    ensures r.Ok? <==>
      && HasEntered(states, who, k)
      && (|| FoundNoSession(states, ticks, who, k)
          || Answers(LastOf(states, k, who))
          || EndedAt(LastOf(states, k, who)))
    ensures r.Ok? ==> r.value == Nil
    ensures r.Failed? ==>
      match FaultOf(r.error)
      case Code(code) => Faults(LastOf(states, k, who), code)
      case NoCode => forall code :: !Faults(LastOf(states, k, who), code)
  {
    hide InOrder, IsRun, HasEntered, FoundNoSession;
    var last := LastOf(states, k, who);
    RunTracked(cfg, states, ticks, k, who);
    if r.Failed? && HasEntered(states, who, k) {
      ErrorsOf(last, r);
    }
  }
}
