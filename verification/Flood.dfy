/** Flood protection over whole runs (flood.go, client.go): nothing is sent before the flood window
    that any earlier answer or retry opened has passed, whoever sends it. */
module Flood {
  import opened Values
  import opened Caller
  import opened CallerLaws
  import opened Turns

  /** The delay in some fields, in seconds; 0 if there is none that is a text. */
  function DelayIn(cfg: Config, fields: map<string, Value>): real {
    if "KasFloodDelay" in fields && fields["KasFloodDelay"].Str? then cfg.parseFloat(fields["KasFloodDelay"].chars) else 0.0
  }

  /** The delay a response that is a map announces, in seconds: that of its Response if it is positive, else
      its own, else two. */
  function Announced(cfg: Config, ret: Value): real
    requires ret.Map?
  {
    if "Response" in ret.fields && ret.fields["Response"].Map? && DelayIn(cfg, ret.fields["Response"].fields) > 0.0
    then DelayIn(cfg, ret.fields["Response"].fields)
    else if DelayIn(cfg, ret.fields) > 0.0 then DelayIn(cfg, ret.fields)
    else 2.0
  }

  /** The client waits for it in nanoseconds, cut to whole milliseconds. */
  lemma DelayIsAnnounced(cfg: Config, ret: Value)
    requires ret.Map?
    ensures DelaySeconds(cfg, ret) == Announced(cfg, ret)
    ensures Delay(cfg, ret) == (Announced(cfg, ret) * 1000.0).Floor * 1_000_000
    ensures Delay(cfg, ret) as real <= Announced(cfg, ret) * 1_000_000_000.0 < Delay(cfg, ret) as real + 1_000_000.0
  {
    assert DelaySeconds(cfg, ret) == Announced(cfg, ret);
  }

  /** The flood window has been waited out and not been moved since. */
  predicate Passed(pc: Pc) {
    || pc.AuthReady? || pc.AuthFlight? || pc.ApiReady? || pc.ApiFlight? || pc.ApiFlood?
    || (pc.Returned? && pc.result.Failed? && RetryOf(pc.result.error) == RetryFlood)
  }

  /** What a step does to the flood window. */
  predicate WindowStep(cfg: Config, core: Core, me: Local, now: int, out: Out) {
    && out.core.notBefore >= core.notBefore
    && (Passed(out.me.pc) ==> out.core.notBefore <= now)
    && (out.said.Says? && out.said.event.Sent? ==> core.notBefore <= now && out.said.event.at == now)
    && (me.pc.ApiFlood? && me.pc.ret.Map? && out.me.pc != me.pc ==>
          out.core.notBefore >= now + (Announced(cfg, me.pc.ret) * 1000.0).Floor * 1_000_000)
    && (out.said.Says? && IsMapAnswer(out.said.event) ==>
          out.me.pc == ApiFlood(out.said.event.reply.value) && out.said.event.at == now)
    && (out.said.Says? && IsFloodGrant(out.said.event) ==>
          out.core.notBefore >= out.said.event.at + out.said.event.nth * 2_000_000_000)
  }

  /** A decoded KasApi response that is a map. */
  predicate IsMapAnswer(e: Event) {
    e.Answered? && !e.auth && e.reply.Decoded? && e.reply.value.Map?
  }

  lemma WindowEnter(cfg: Config, core: Core, me: Local, now: int, input: Input)
    requires me.pc.Start? || me.pc.Lock? || me.pc.LogoutCheck? || me.pc.Recheck?
          || me.pc.Ensure? || me.pc.AskPin? || me.pc.AuthWindow?
    ensures WindowStep(cfg, core, me, now, Step(cfg, core, me, now, input))
  {
  }

  lemma WindowAuth(cfg: Config, core: Core, me: Local, now: int, input: Input)
    requires me.pc.AuthReady? || me.pc.AuthFlight? || me.pc.AuthStore?
    requires Passed(me.pc) ==> core.notBefore <= now
    ensures WindowStep(cfg, core, me, now, Step(cfg, core, me, now, input))
  {
  }

  lemma WindowApi(cfg: Config, core: Core, me: Local, now: int, input: Input)
    requires me.pc.ApiWindow? || me.pc.ApiReady? || me.pc.ApiFlight?
    requires Passed(me.pc) ==> core.notBefore <= now
    ensures WindowStep(cfg, core, me, now, Step(cfg, core, me, now, input))
  {
  }

  lemma WindowAnswer(cfg: Config, core: Core, me: Local, now: int, input: Input)
    requires me.pc.ApiFlood? || me.pc.ApiExtend? || me.pc.Returned?
    requires Passed(me.pc) ==> core.notBefore <= now
    ensures WindowStep(cfg, core, me, now, Step(cfg, core, me, now, input))
  {
    hide Announced, DelaySeconds;
    if me.pc.ApiFlood? && me.pc.ret.Map? {
      DelayIsAnnounced(cfg, me.pc.ret);
    }
  }

  lemma WindowLeave(cfg: Config, core: Core, me: Local, now: int, input: Input)
    requires me.pc.Unlock? || me.pc.Relock? || me.pc.Store? || me.pc.Unstore? || me.pc.Leaving? || me.pc.Done?
    ensures WindowStep(cfg, core, me, now, Step(cfg, core, me, now, input))
  {
  }

  lemma StepWindow(cfg: Config, core: Core, me: Local, now: int, input: Input)
    requires Passed(me.pc) ==> core.notBefore <= now
    ensures WindowStep(cfg, core, me, now, Step(cfg, core, me, now, input))
  {
    match me.pc
    case AuthReady(_) | AuthFlight | AuthStore(_) => WindowAuth(cfg, core, me, now, input);
    case ApiWindow | ApiReady | ApiFlight => WindowApi(cfg, core, me, now, input);
    case ApiFlood(_) | ApiExtend(_) | Returned(_) => WindowAnswer(cfg, core, me, now, input);
    case Unlock(_) | Relock | Store | Unstore | Leaving(_) | Done(_) => WindowLeave(cfg, core, me, now, input);
    case _ => WindowEnter(cfg, core, me, now, input);
  }

  /** Nothing but a response and a flood retry moves the window, and a caller at it goes on exactly when it has
      passed. */
  lemma WindowMoves(cfg: Config, core: Core, me: Local, now: int, input: Input)
    ensures
      var out := Step(cfg, core, me, now, input);
      out.core.notBefore ==
        if me.pc.ApiFlood? && input.Go? && me.pc.ret.Map? then now + (Announced(cfg, me.pc.ret) * 1000.0).Floor * 1_000_000
        else if out.said.Says? && IsFloodGrant(out.said.event) then now + (me.flood + 1) * 2_000_000_000
        else core.notBefore
    ensures (me.pc.AuthWindow? || me.pc.ApiWindow?) && input.Go? ==>
      var pc := Step(cfg, core, me, now, input).me.pc;
      ((pc.AuthReady? || pc.ApiReady?) <==> core.notBefore <= now)
  {
    hide Announced, TokenOf, ResponseResult, DelaySeconds, SessionTTL, LogoutResult, UpdateSucceeded, AuthCall, ApiCall;
    if me.pc.ApiFlood? && me.pc.ret.Map? {
      DelayIsAnnounced(cfg, me.pc.ret);
    }
  }

  // ----- over runs -----

  /** The events that forbid sending for a while, and until when: a response for the delay it announces, cut
      to milliseconds, and the k-th flood retry for 2k seconds. Times are nanoseconds. */
  predicate Binding(e: Event) {
    IsMapAnswer(e) || IsFloodGrant(e)
  }

  function ClearFrom(cfg: Config, e: Event): int
    requires Binding(e)
  {
    if e.Answered? then e.at + (Announced(cfg, e.reply.value) * 1000.0).Floor * 1_000_000
    else e.at + e.nth * 2_000_000_000
  }

  /** The holder has heard this answer and not yet moved the window. */
  predicate Pending(s: State, e: Event) {
    && 0 <= s.holder < |s.members|
    && e.Answered? && e.reply.Decoded? && e.at <= s.now
    && s.members[s.holder].me.pc == ApiFlood(e.reply.value)
  }

  predicate WindowKept(cfg: Config, s: State) {
    && (0 <= s.holder < |s.members| && Passed(s.members[s.holder].me.pc) ==> s.core.notBefore <= s.now)
    && forall i | 0 <= i < |s.log| && Binding(s.log[i].event) ::
         ClearFrom(cfg, s.log[i].event) <= s.core.notBefore || Pending(s, s.log[i].event)
  }

  /** Every request starts at or after the end of every window opened before it, by any caller. */
  predicate LogSafe(cfg: Config, log: seq<Entry>) {
    forall i, j | 0 <= i < j < |log| && Binding(log[i].event) && log[j].event.Sent? ::
      ClearFrom(cfg, log[i].event) <= log[j].event.at
  }

  lemma WindowKeptApply(cfg: Config, s: State, t: Tick)
    requires OneHolder(s) && WindowKept(cfg, s) && Enabled(s, t)
    ensures WindowKept(cfg, Apply(cfg, s, t))
    ensures Apply(cfg, s, t).core.notBefore >= s.core.notBefore
    ensures var log' := Apply(cfg, s, t).log; |log'| > |s.log| && log'[|s.log|].event.Sent? ==>
      (forall i | 0 <= i < |s.log| && Binding(s.log[i].event) ::
        ClearFrom(cfg, s.log[i].event) <= log'[|s.log|].event.at)
  {
    if t.move.Act? {
      var who, input := t.move.who, t.move.input;
      var me := s.members[who].me;
      StepSlot(cfg, s.core, me, t.at, input);
      if HoldsSlot(me.pc) {
        StepWindow(cfg, s.core, me, t.at, input);
        HolderActs(cfg, s, t);
      }
    }
  }

  /** The step of the holder. */
  lemma HolderActs(cfg: Config, s: State, t: Tick)
    requires OneHolder(s) && WindowKept(cfg, s) && Enabled(s, t)
    requires t.move.Act? && t.move.who == s.holder
    requires WindowStep(cfg, s.core, s.members[s.holder].me, t.at, Step(cfg, s.core, s.members[s.holder].me, t.at, t.move.input))
    requires TakesTurns(s.core, s.members[s.holder].me, Step(cfg, s.core, s.members[s.holder].me, t.at, t.move.input))
    ensures WindowKept(cfg, Apply(cfg, s, t))
    ensures var log' := Apply(cfg, s, t).log; |log'| > |s.log| && log'[|s.log|].event.Sent? ==>
      (forall i | 0 <= i < |s.log| && Binding(s.log[i].event) ::
        ClearFrom(cfg, s.log[i].event) <= log'[|s.log|].event.at)
  {
    var s' := Apply(cfg, s, t);
    var me := s.members[s.holder].me;
    var out := Step(cfg, s.core, me, t.at, t.move.input);
    forall i | 0 <= i < |s'.log| && Binding(s'.log[i].event)
      ensures ClearFrom(cfg, s'.log[i].event) <= s'.core.notBefore || Pending(s', s'.log[i].event)
    {
      if i < |s.log| {
        assert s'.log[i] == s.log[i];
        assert ClearFrom(cfg, s.log[i].event) <= s.core.notBefore || Pending(s, s.log[i].event);
      }
    }
  }

  lemma LogSafeApply(cfg: Config, s: State, t: Tick)
    requires OneHolder(s) && WindowKept(cfg, s) && LogSafe(cfg, s.log) && Enabled(s, t)
    ensures LogSafe(cfg, Apply(cfg, s, t).log)
  {
    WindowKeptApply(cfg, s, t);
    var log' := Apply(cfg, s, t).log;
    assert forall i | 0 <= i < |s.log| :: log'[i] == s.log[i];
    assert |log'| <= |s.log| + 1;
  }

  /** What every state of every run satisfies. */
  predicate Safe(cfg: Config, s: State) {
    AllLawful(s) && OneHolder(s) && WindowKept(cfg, s) && LogSafe(cfg, s.log)
  }

  lemma {:induction false} RunSafe(cfg: Config, states: seq<State>, ticks: seq<Tick>, k: nat)
    requires IsRun(cfg, states, ticks) && k < |states|
    ensures Safe(cfg, states[k])
  {
    if k == 0 {
      InitialSafe(cfg, states[0]);
    } else {
      RunSafe(cfg, states, ticks, k - 1);
      assert Enabled(states[k - 1], ticks[k - 1]);
      AllLawfulApply(cfg, states[k - 1], ticks[k - 1]);
      OneHolderApply(cfg, states[k - 1], ticks[k - 1]);
      WindowKeptApply(cfg, states[k - 1], ticks[k - 1]);
      LogSafeApply(cfg, states[k - 1], ticks[k - 1]);
    }
  }

  lemma InitialSafe(cfg: Config, s: State)
    requires Initial(s)
    ensures Safe(cfg, s)
  {
    forall i | 0 <= i < |s.members|
      ensures MemberLawful(s.members[i], s.now)
    {
      assert s.members[i].hist == [];
    }
  }
}
