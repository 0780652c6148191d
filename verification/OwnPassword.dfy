/** When UpdateOwnPassword stores its password (account.go, params.go): exactly when the last answer of the
    call confirms the update (Results.Updates). nothing_to_do confirms it even as the answer to a handshake, and then nobody
    has asked for the new password. */
module OwnPassword {
  import opened Values
  import opened Soap
  import opened Caller
  import opened CallerLaws
  import opened Turns
  import opened Results
  import Effects
  import Flood

  const NOTHING_TO_DO := "nothing_to_do"

  // ----- when it is stored -----

  /** At tick i a call stores its password. */
  predicate Stores(states: seq<State>, ticks: seq<Tick>, who: nat, i: nat)
    requires i < |states| && i < |ticks|
  {
    && ticks[i].move.Act? && ticks[i].move.who == who && ticks[i].move.input.Go?
    && who < |states[i].members| && states[i].members[who].me.pc.Store?
  }

  predicate HasStored(states: seq<State>, ticks: seq<Tick>, who: nat, k: nat)
    requires k <= |ticks| <= |states|
  {
    exists i | 0 <= i < k :: Stores(states, ticks, who, i)
  }

  /** Where a call has stored its password and where it has not. */
  predicate StoredAt(pc: Pc, stored: bool) {
    match pc
    case Unstore => stored
    case Leaving(r) => r.Ok? <==> stored
    case Done(r) => r.Ok? <==> stored
    case _ => !stored
  }

  lemma StepStored(cfg: Config, core: Core, me: Local, now: int, input: Input, stored: bool)
    requires me.op.ChangePassword? && !me.pc.LogoutCheck? && StoredAt(me.pc, stored)
    ensures StoredAt(Step(cfg, core, me, now, input).me.pc, stored || (me.pc.Store? && input.Go?))
  {
    hide TokenOf, ResponseResult, Delay, SessionTTL, RetryOf, FaultOf;
  }

  lemma {:induction false} RunStored(cfg: Config, states: seq<State>, ticks: seq<Tick>, k: nat, who: nat)
    requires IsRun(cfg, states, ticks) && k < |states| && who < |states[k].members|
    requires states[k].members[who].me.op.ChangePassword?
    ensures StoredAt(states[k].members[who].me.pc, HasStored(states, ticks, who, k))
  {
    hide Step, Explained, StoredAt, LastEvent;
    if k == 0 {
      NothingStored(states[0].members[who].me.op);
    } else {
      var s, t := states[k - 1], ticks[k - 1];
      assert Enabled(s, t);
      var m := s.members[who];
      if t.move.Act? {
        StepSlot(cfg, s.core, s.members[t.move.who].me, t.at, t.move.input);
      }
      RunStored(cfg, states, ticks, k - 1, who);
      assert HasStored(states, ticks, who, k) <==>
        HasStored(states, ticks, who, k - 1) || Stores(states, ticks, who, k - 1);
      if t.move.Act? && t.move.who == who {
        RunExplained(cfg, states, ticks, k - 1, who);
        OnlyLogoutChecks(m.me, LastEvent(m.hist));
        StepStored(cfg, s.core, m.me, t.at, t.move.input, HasStored(states, ticks, who, k - 1));
      }
    }
  }

  lemma NothingStored(op: Op)
    ensures StoredAt(Begin(op).pc, false)
  {
  }

  lemma OnlyLogoutChecks(me: Local, last: Said)
    requires Explained(me, last) && me.op.ChangePassword?
    ensures !me.pc.LogoutCheck?
  {
  }

  /** In every run an UpdateOwnPassword that is over has stored its password, and returned success, exactly
      when the last it heard is a KasApi response in order or nothing_to_do. */
  lemma StoresExactlyWhenConfirmed(cfg: Config, states: seq<State>, ticks: seq<Tick>, k: nat, who: nat)
    requires IsRun(cfg, states, ticks) && k < |states| && who < |states[k].members|
    requires states[k].members[who].me.op.ChangePassword? && states[k].members[who].me.pc.Done?
    ensures HasStored(states, ticks, who, k) <==> Updates(LastOf(states, k, who))
    ensures states[k].members[who].me.pc.result.Ok? <==> Updates(LastOf(states, k, who))
  {
    hide IsRun, HasStored;
    UpdateReturns(cfg, states, ticks, k, who, states[k].members[who].me.pc.result);
    RunStored(cfg, states, ticks, k, who);
  }

  // ----- who asked -----

  /** KAS turned a handshake down with nothing_to_do. */
  predicate HandshakeHadNothingToDo(h: History) {
    exists p | 0 <= p < |h| :: IsEmptyHandshake(h[p])
  }

  predicate IsEmptyHandshake(e: Event) {
    e.Answered? && e.auth && e.reply == Fault(NOTHING_TO_DO)
  }

  /** KAS confirmed a request for what the call is for. */
  predicate AskedAndConfirmed(h: History, op: Op) {
    exists q | 0 < q < |h| :: AskedAt(h, op, q)
  }

  predicate AskedAt(h: History, op: Op, q: nat)
    requires 0 < q < |h|
  {
    && h[q - 1].Sent? && h[q - 1].request.ApiRequest? && Effects.AsksFor(op, h[q - 1].request)
    && Updates(Says(h[q])) && !h[q].auth
  }

  /** Every answer follows its request. */
  lemma AnswerFollows(h: History, q: nat)
    requires Ordered(h) && q < |h| && h[q].Answered?
    ensures q > 0 && h[q - 1].Sent? && h[q].auth == IsAuth(h[q - 1].request)
  {
    assert MayFollow(DigestOf(h[..q]), h[q]);
  }

  lemma EmptyHandshakeIsLast(h: History, p: nat)
    requires Ordered(h) && p < |h| && IsEmptyHandshake(h[p])
    ensures p == |h| - 1
  {
    if p + 1 < |h| {
      FinalEnds(h, p);
    }
  }

  lemma ConfirmedIsLast(h: History, q: nat)
    requires Ordered(h) && q < |h| && Updates(Says(h[q])) && !h[q].auth
    ensures q == |h| - 1
  {
    if q + 1 < |h| {
      FinalEnds(h, q);
    }
  }

  /** Of an UpdateOwnPassword that returned success KAS confirmed a request for the new password, unless it
      turned a handshake of that call down with nothing_to_do; then every KasApi request of the call, if
      any, was refused with a session or flood fault. */
  lemma AskedUnlessHandshake(cfg: Config, states: seq<State>, ticks: seq<Tick>, k: nat, who: nat)
    requires IsRun(cfg, states, ticks) && k < |states| && who < |states[k].members|
    requires states[k].members[who].me.op.ChangePassword?
    requires states[k].members[who].me.pc.Done? && states[k].members[who].me.pc.result.Ok?
    ensures
      var h := states[k].members[who].hist;
      AskedAndConfirmed(h, states[k].members[who].me.op) <==> !HandshakeHadNothingToDo(h)
    ensures
      var h := states[k].members[who].hist;
      HandshakeHadNothingToDo(h) ==>
        forall p | 0 <= p < |h| && h[p].Sent? && h[p].request.ApiRequest? ::
          p + 1 < |h| && h[p + 1].Answered? && h[p + 1].reply.Fault? && RetryableCode(h[p + 1].reply.code)
  {
    hide Step, Apply, Ordered, Lawful;
    var m := states[k].members[who];
    Flood.RunSafe(cfg, states, ticks, k);
    assert MemberLawful(m, states[k].now);
    StoresExactlyWhenConfirmed(cfg, states, ticks, k, who);
    Effects.RequestsAskForTheCall(cfg, states, ticks, k, who);
    Asked(m.hist, m.me.op);
    Refused(m.hist);
  }

  lemma Asked(h: History, op: Op)
    requires Ordered(h) && h != [] && Updates(LastEvent(h))
    requires forall p | 0 <= p < |h| && h[p].Sent? :: Effects.AsksFor(op, h[p].request)
    ensures AskedAndConfirmed(h, op) <==> !HandshakeHadNothingToDo(h)
  {
    hide Ordered, Effects.AsksFor;
    var last := |h| - 1;
    AnswerFollows(h, last);
    if h[last].auth {
      assert IsEmptyHandshake(h[last]);
      EmptyHandshakeIsLast(h, last);
      forall q | 0 < q < |h|
        ensures !AskedAt(h, op, q)
      {
        if AskedAt(h, op, q) {
          ConfirmedIsLast(h, q);
        }
      }
    } else {
      ConfirmedIsLast(h, last);
      assert AskedAt(h, op, last);
      forall p | 0 <= p < |h|
        ensures !IsEmptyHandshake(h[p])
      {
        if IsEmptyHandshake(h[p]) {
          EmptyHandshakeIsLast(h, p);
        }
      }
    }
  }

  lemma Refused(h: History)
    requires Ordered(h)
    ensures HandshakeHadNothingToDo(h) ==>
      forall p | 0 <= p < |h| && h[p].Sent? && h[p].request.ApiRequest? ::
        p + 1 < |h| && h[p + 1].Answered? && h[p + 1].reply.Fault? && RetryableCode(h[p + 1].reply.code)
  {
    hide Ordered;
    if HandshakeHadNothingToDo(h) {
      var e :| 0 <= e < |h| && IsEmptyHandshake(h[e]);
      EmptyHandshakeIsLast(h, e);
      AnswerFollows(h, e);
      forall p | 0 <= p < |h| && h[p].Sent? && h[p].request.ApiRequest?
        ensures p + 1 < |h| && h[p + 1].Answered? && h[p + 1].reply.Fault? && RetryableCode(h[p + 1].reply.code)
      {
        RequestsBeforeLast(h, p, e - 1);
      }
    }
  }

  /** The history of a call whose only request is a handshake that has nothing to do. */
  function EmptyHandshake(cfg: Config, core: Core, t: int): History {
    [Attempt(t), Sent(t, AuthCall(cfg, core.password, "")), Answered(t, true, Fault(NOTHING_TO_DO))]
  }

  predicate NoSession(cfg: Config, core: Core, next: string, t: int) {
    !cfg.twoFactor && next != "" && !core.busy && core.token == "" && core.notBefore <= t
  }

  lemma WindowReached(cfg: Config, core: Core, next: string, t: int) returns (steps: seq<Stamp>)
    requires NoSession(cfg, core, next, t)
    ensures Replay(cfg, core, Begin(ChangePassword(next)), steps) ==
      Run(core.(busy := true), Begin(ChangePassword(next)).(pc := AuthWindow("")), [Attempt(t)])
  {
    hide Replay;
    var me, go, inside := Begin(ChangePassword(next)), Stamp(t, Go), core.(busy := true);
    NoSteps(cfg, core, me);
    steps := Extended(cfg, core, me, [], go, Run(core, me, []), Run(core, me.(pc := Lock), []));
    steps := Extended(cfg, core, me, steps, go, Run(core, me.(pc := Lock), []), Run(inside, me.(pc := Ensure), []));
    steps := Extended(cfg, core, me, steps, go, Run(inside, me.(pc := Ensure), []),
                      Run(inside, me.(pc := AuthWindow("")), [Attempt(t)]));
  }

  lemma HandshakeSent(cfg: Config, core: Core, next: string, t: int) returns (steps: seq<Stamp>)
    requires NoSession(cfg, core, next, t)
    ensures Replay(cfg, core, Begin(ChangePassword(next)), steps) ==
      Run(core.(busy := true), Begin(ChangePassword(next)).(pc := AuthFlight),
          [Attempt(t), Sent(t, AuthCall(cfg, core.password, ""))])
  {
    hide Replay, AuthCall;
    var me, go, inside := Begin(ChangePassword(next)), Stamp(t, Go), core.(busy := true);
    var h, h' := [Attempt(t)], [Attempt(t), Sent(t, AuthCall(cfg, core.password, ""))];
    steps := WindowReached(cfg, core, next, t);
    steps := Extended(cfg, core, me, steps, go, Run(inside, me.(pc := AuthWindow("")), h),
                      Run(inside, me.(pc := AuthReady("")), h));
    steps := Extended(cfg, core, me, steps, go, Run(inside, me.(pc := AuthReady("")), h), Run(inside, me.(pc := AuthFlight), h'));
  }

  lemma NoSteps(cfg: Config, core: Core, me: Local)
    ensures Replay(cfg, core, me, []) == Run(core, me, [])
  {
  }

  /** What execLocked returns then. */
  const EMPTY_HANDSHAKE: Result := Failed(HandshakeError(ApiError(NOTHING_TO_DO)))

  lemma HandshakeAnswered(cfg: Config, core: Core, next: string, t: int) returns (steps: seq<Stamp>)
    requires NoSession(cfg, core, next, t)
    ensures Replay(cfg, core, Begin(ChangePassword(next)), steps) ==
      Run(core.(busy := true), Begin(ChangePassword(next)).(pc := Returned(EMPTY_HANDSHAKE)), EmptyHandshake(cfg, core, t))
  {
    hide Replay, AuthCall;
    var me, inside := Begin(ChangePassword(next)), core.(busy := true);
    var h := [Attempt(t), Sent(t, AuthCall(cfg, core.password, ""))];
    steps := HandshakeSent(cfg, core, next, t);
    steps := Extended(cfg, core, me, steps, Stamp(t, Arrived(Fault(NOTHING_TO_DO))), Run(inside, me.(pc := AuthFlight), h),
                      Run(inside, me.(pc := Returned(EMPTY_HANDSHAKE)), EmptyHandshake(cfg, core, t)));
  }

  lemma EmptyHandshakeSucceeds()
    ensures RetryOf(EMPTY_HANDSHAKE.error) == RetryNone && UpdateSucceeded(EMPTY_HANDSHAKE)
  {
    assert FaultOf(EMPTY_HANDSHAKE.error) == FaultOf(ApiError(NOTHING_TO_DO));
  }

  lemma HandshakeRefused(cfg: Config, core: Core, next: string, t: int) returns (steps: seq<Stamp>)
    requires NoSession(cfg, core, next, t)
    ensures Replay(cfg, core, Begin(ChangePassword(next)), steps) ==
      Run(core, Begin(ChangePassword(next)).(pc := Relock), EmptyHandshake(cfg, core, t))
  {
    hide Replay, EmptyHandshake, RetryOf, UpdateSucceeded;
    var me, go, inside := Begin(ChangePassword(next)), Stamp(t, Go), core.(busy := true);
    var h, failed := EmptyHandshake(cfg, core, t), EMPTY_HANDSHAKE;
    EmptyHandshakeSucceeds();
    steps := HandshakeAnswered(cfg, core, next, t);
    steps := Extended(cfg, core, me, steps, go, Run(inside, me.(pc := Returned(failed)), h),
                      Run(inside, me.(pc := Pc.Unlock(failed)), h));
    steps := Extended(cfg, core, me, steps, go, Run(inside, me.(pc := Pc.Unlock(failed)), h), Run(core, me.(pc := Relock), h));
  }

  /** It happens: an UpdateOwnPassword on a client that has no session and whose handshake is answered with
      nothing_to_do stores the new password and reports success, having sent nothing but that handshake. */
  lemma NothingToDoStores(cfg: Config, core: Core, next: string, t: int) returns (steps: seq<Stamp>)
    requires NoSession(cfg, core, next, t)
    ensures Replay(cfg, core, Begin(ChangePassword(next)), steps) ==
      Run(core.(password := next), Begin(ChangePassword(next)).(pc := Done(Ok(Nil))), EmptyHandshake(cfg, core, t))
  {
    hide Replay, AuthCall, EmptyHandshake;
    var me, go, inside := Begin(ChangePassword(next)), Stamp(t, Go), core.(busy := true);
    var h, stored, after := EmptyHandshake(cfg, core, t), inside.(password := next), core.(password := next);
    steps := HandshakeRefused(cfg, core, next, t);
    steps := Extended(cfg, core, me, steps, go, Run(core, me.(pc := Relock), h), Run(inside, me.(pc := Store), h));
    steps := Extended(cfg, core, me, steps, go, Run(inside, me.(pc := Store), h), Run(stored, me.(pc := Unstore), h));
    steps := Extended(cfg, core, me, steps, go, Run(stored, me.(pc := Unstore), h), Run(after, me.(pc := Leaving(Ok(Nil))), h));
    steps := Extended(cfg, core, me, steps, go, Run(after, me.(pc := Leaving(Ok(Nil))), h),
                      Run(after, me.(pc := Done(Ok(Nil))), h));
  }

  /** One more step of a replay. */
  lemma Extended(cfg: Config, core: Core, me: Local, steps: seq<Stamp>, stamp: Stamp, before: Run, after: Run)
    returns (more: seq<Stamp>)
    requires Replay(cfg, core, me, steps) == before && stamp.Stamp?
    requires var out := Step(cfg, before.core, before.me, stamp.at, stamp.input);
      out.core == after.core && out.me == after.me && before.hist + Heard(out.said) == after.hist
    ensures Replay(cfg, core, me, more) == after
  {
    ReplaySnoc(cfg, core, me, steps, stamp);
    more := steps + [stamp];
  }
}
