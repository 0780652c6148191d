/** UpdateOwnPassword over runs (account.go, auth.go): the update and the local store are two turns at
    the slot, yet later handshakes carry the new password. */
module Passwords {
  import opened Caller
  import opened Turns
  import opened Sessions

  /** A call of UpdateOwnPassword that has begun and not returned. */
  predicate Changing(me: Local) {
    me.op.ChangePassword? && !me.pc.Start? && !me.pc.Done?
  }

  predicate NoOverlap(s: State) {
    forall i, j | 0 <= i < j < |s.members| :: !(Changing(s.members[i].me) && Changing(s.members[j].me))
  }

  /** A call that has stored its password and is about to return success. */
  predicate Stored(core: Core, me: Local) {
    me.op.ChangePassword? && (me.pc.Unstore? || (me.pc.Leaving? && me.pc.result.Ok?)) ==>
      core.password == me.op.next
  }

  /** What is sent for a password: its digest with sha1, itself with plain. */
  function SentFor(cfg: Config, password: string): string {
    match cfg.authType
    case Plain => password
    case Sha1 => cfg.digest(password)
  }

  /** What a step does to the password. */
  predicate PasswordStep(cfg: Config, core: Core, me: Local, out: Out) {
    && (out.core.password != core.password ==> me.pc.Store? && me.op.ChangePassword?)
    && (Stored(core, me) ==> Stored(out.core, out.me))
    && (out.said.Says? && out.said.event.Sent? && out.said.event.request.AuthRequest? ==>
          out.said.event.request.authData == SentFor(cfg, core.password))
  }

  lemma PasswordEnter(cfg: Config, core: Core, me: Local, now: int, input: Input)
    requires me.pc.Start? || me.pc.Lock? || me.pc.LogoutCheck? || me.pc.Recheck?
          || me.pc.Ensure? || me.pc.AskPin? || me.pc.AuthWindow?
    ensures PasswordStep(cfg, core, me, Step(cfg, core, me, now, input))
  {
  }

  lemma PasswordRequest(cfg: Config, core: Core, me: Local, now: int, input: Input)
    requires me.pc.AuthReady? || me.pc.AuthFlight? || me.pc.AuthStore?
          || me.pc.ApiWindow? || me.pc.ApiReady? || me.pc.ApiFlight?
    ensures PasswordStep(cfg, core, me, Step(cfg, core, me, now, input))
  {
  }

  lemma PasswordAnswer(cfg: Config, core: Core, me: Local, now: int, input: Input)
    requires me.pc.ApiFlood? || me.pc.ApiExtend? || me.pc.Returned?
    ensures PasswordStep(cfg, core, me, Step(cfg, core, me, now, input))
  {
  }

  lemma PasswordLeave(cfg: Config, core: Core, me: Local, now: int, input: Input)
    requires me.pc.Unlock? || me.pc.Relock? || me.pc.Store? || me.pc.Unstore? || me.pc.Leaving? || me.pc.Done?
    ensures PasswordStep(cfg, core, me, Step(cfg, core, me, now, input))
  {
  }

  lemma StepPassword(cfg: Config, core: Core, me: Local, now: int, input: Input)
    ensures PasswordStep(cfg, core, me, Step(cfg, core, me, now, input))
  {
    match me.pc
    case AuthReady(_) | AuthFlight | AuthStore(_) | ApiWindow | ApiReady | ApiFlight =>
      PasswordRequest(cfg, core, me, now, input);
    case ApiFlood(_) | ApiExtend(_) | Returned(_) => PasswordAnswer(cfg, core, me, now, input);
    case Unlock(_) | Relock | Store | Unstore | Leaving(_) | Done(_) => PasswordLeave(cfg, core, me, now, input);
    case _ => PasswordEnter(cfg, core, me, now, input);
  }

  predicate AllStored(s: State) {
    forall i | 0 <= i < |s.members| :: Stored(s.core, s.members[i].me)
  }

  lemma AllStoredApply(cfg: Config, s: State, t: Tick)
    requires AllStored(s) && NoOverlap(s) && Enabled(s, t)
    ensures AllStored(Apply(cfg, s, t))
  {
    var s' := Apply(cfg, s, t);
    var who := t.move.who;
    if t.move.Act? {
      StepPassword(cfg, s.core, s.members[who].me, t.at, t.move.input);
    }
    forall i | 0 <= i < |s'.members|
      ensures Stored(s'.core, s'.members[i].me)
    {
      assert Stored(s.core, s.members[i].me);
      if i < who {
        assert !(Changing(s.members[i].me) && Changing(s.members[who].me));
      } else if who < i {
        assert !(Changing(s.members[who].me) && Changing(s.members[i].me));
      }
    }
  }

  lemma {:induction false} RunAllStored(cfg: Config, states: seq<State>, ticks: seq<Tick>, k: nat)
    requires IsRun(cfg, states, ticks) && k < |states|
    requires forall i | 0 <= i < |states| :: NoOverlap(states[i])
    ensures AllStored(states[k])
  {
    if k == 0 {
      forall i | 0 <= i < |states[0].members|
        ensures Stored(states[0].core, states[0].members[i].me)
      {
        assert states[0].members[i].me.pc.Start?;
      }
    } else {
      RunAllStored(cfg, states, ticks, k - 1);
      assert Enabled(states[k - 1], ticks[k - 1]);
      AllStoredApply(cfg, states[k - 1], ticks[k - 1]);
    }
  }

  /** At tick t a call that changes the password to next returns success. */
  predicate ReturnsChanged(s: State, t: Tick, next: string) {
    && t.move.Act? && t.move.input.Go? && t.move.who < |s.members|
    && s.members[t.move.who].me.op == ChangePassword(next)
    && s.members[t.move.who].me.pc.Leaving? && s.members[t.move.who].me.pc.result.Ok?
  }

  /** At tick t a call stores a password. */
  predicate StoresAt(s: State, t: Tick) {
    t.move.Act? && t.move.who < |s.members| && s.members[t.move.who].me.pc.Store?
  }

  lemma {:induction false} PasswordStays(cfg: Config, states: seq<State>, ticks: seq<Tick>, k: nat, j: nat)
    requires IsRun(cfg, states, ticks) && k <= j < |states|
    requires forall m | k <= m < j :: !StoresAt(states[m], ticks[m])
    ensures states[j].core.password == states[k].core.password
  {
    hide Step;
    if j > k {
      PasswordStays(cfg, states, ticks, k, j - 1);
      assert Enabled(states[j - 1], ticks[j - 1]) && !StoresAt(states[j - 1], ticks[j - 1]);
      if ticks[j - 1].move.Act? {
        var me := states[j - 1].members[ticks[j - 1].move.who].me;
        StepPassword(cfg, states[j - 1].core, me, ticks[j - 1].at, ticks[j - 1].move.input);
      }
    }
  }

  /** If UpdateOwnPassword calls do not overlap, every handshake from the return of a successful one until
      the next call stores its own carries the new password. */
  lemma HandshakesCarryNewest(cfg: Config, states: seq<State>, ticks: seq<Tick>, next: string, k: nat, j: nat)
    requires IsRun(cfg, states, ticks) && k < j < |ticks|
    requires forall i | 0 <= i < |states| :: NoOverlap(states[i])
    requires ReturnsChanged(states[k], ticks[k], next)
    requires forall m | k < m < j :: !StoresAt(states[m], ticks[m])
    ensures
      var said := SaidAt(cfg, states[j], ticks[j]);
      said.Says? && said.event.Sent? && said.event.request.AuthRequest? ==>
        said.event.request.authData == SentFor(cfg, next)
  {
    RunAllStored(cfg, states, ticks, k);
    assert Stored(states[k].core, states[k].members[ticks[k].move.who].me);
    PasswordStays(cfg, states, ticks, k, j);
    assert Enabled(states[j], ticks[j]);
    if ticks[j].move.Act? {
      StepPassword(cfg, states[j].core, states[j].members[ticks[j].move.who].me, ticks[j].at, ticks[j].move.input);
    }
  }
}
