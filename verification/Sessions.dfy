/** The session token over runs (auth.go): no KasApi request without one, none left after Logout, and
    how many handshakes one call can need. */
module Sessions {
  import opened Caller
  import opened CallerLaws
  import opened Turns

  // ----- the token -----

  /** Where the holder relies on the token, or has just thrown it away. */
  predicate TokenFits(core: Core, me: Local) {
    && (me.pc.ApiWindow? || me.pc.ApiReady? || me.pc.ApiFlight? || me.pc.ApiFlood? || me.pc.ApiExtend? ==>
          core.token != "")
    && (me.pc.AuthStore? ==> me.pc.token != "")
    && (me.op.Logout? && me.pc.Unlock? ==> core.token == "")
    && (me.op.Logout? ==> !me.pc.Recheck?)
    && (me.pc.Relock? || me.pc.Store? || me.pc.Unstore? ==> me.op.ChangePassword?)
  }

  /** What a step does to the token. */
  predicate TokenStep(core: Core, me: Local, out: Out) {
    && TokenFits(out.core, out.me)
    && (out.core.token != core.token && out.core.token != "" ==> out.said.Says? && out.said.event.Opened?)
    && (out.said.Says? && out.said.event.Sent? && out.said.event.request.ApiRequest? ==>
          core.token != "" && out.said.event.request.token == core.token)
  }

  lemma TokenEnter(cfg: Config, core: Core, me: Local, now: int, input: Input)
    requires TokenFits(core, me)
    requires me.pc.Start? || me.pc.Lock? || me.pc.LogoutCheck? || me.pc.Recheck?
          || me.pc.Ensure? || me.pc.AskPin? || me.pc.AuthWindow?
    ensures TokenStep(core, me, Step(cfg, core, me, now, input))
  {
  }

  lemma TokenRequest(cfg: Config, core: Core, me: Local, now: int, input: Input)
    requires TokenFits(core, me)
    requires me.pc.AuthReady? || me.pc.AuthFlight? || me.pc.AuthStore?
          || me.pc.ApiWindow? || me.pc.ApiReady? || me.pc.ApiFlight?
    ensures TokenStep(core, me, Step(cfg, core, me, now, input))
  {
  }

  lemma TokenAnswer(cfg: Config, core: Core, me: Local, now: int, input: Input)
    requires TokenFits(core, me)
    requires me.pc.ApiFlood? || me.pc.ApiExtend? || me.pc.Returned?
    ensures TokenStep(core, me, Step(cfg, core, me, now, input))
  {
  }

  lemma TokenLeave(cfg: Config, core: Core, me: Local, now: int, input: Input)
    requires TokenFits(core, me)
    requires me.pc.Unlock? || me.pc.Relock? || me.pc.Store? || me.pc.Unstore? || me.pc.Leaving? || me.pc.Done?
    ensures TokenStep(core, me, Step(cfg, core, me, now, input))
  {
  }

  lemma StepToken(cfg: Config, core: Core, me: Local, now: int, input: Input)
    requires TokenFits(core, me)
    ensures TokenStep(core, me, Step(cfg, core, me, now, input))
  {
    match me.pc
    case AuthReady(_) | AuthFlight | AuthStore(_) | ApiWindow | ApiReady | ApiFlight =>
      TokenRequest(cfg, core, me, now, input);
    case ApiFlood(_) | ApiExtend(_) | Returned(_) => TokenAnswer(cfg, core, me, now, input);
    case Unlock(_) | Relock | Store | Unstore | Leaving(_) | Done(_) => TokenLeave(cfg, core, me, now, input);
    case _ => TokenEnter(cfg, core, me, now, input);
  }

  predicate TokenKept(s: State) {
    OneHolder(s) && forall i | 0 <= i < |s.members| :: TokenFits(s.core, s.members[i].me)
  }

  lemma TokenKeptApply(cfg: Config, s: State, t: Tick)
    requires TokenKept(s) && Enabled(s, t)
    ensures TokenKept(Apply(cfg, s, t))
  {
    var s' := Apply(cfg, s, t);
    OneHolderApply(cfg, s, t);
    if t.move.Act? {
      StepToken(cfg, s.core, s.members[t.move.who].me, t.at, t.move.input);
      StepSlot(cfg, s.core, s.members[t.move.who].me, t.at, t.move.input);
    }
    forall i | 0 <= i < |s'.members|
      ensures TokenFits(s'.core, s'.members[i].me)
    {
      assert TokenFits(s.core, s.members[i].me);
    }
  }

  lemma {:induction false} RunTokenKept(cfg: Config, states: seq<State>, ticks: seq<Tick>, k: nat)
    requires IsRun(cfg, states, ticks) && k < |states|
    ensures TokenKept(states[k])
  {
    if k > 0 {
      RunTokenKept(cfg, states, ticks, k - 1);
      assert Enabled(states[k - 1], ticks[k - 1]);
      TokenKeptApply(cfg, states[k - 1], ticks[k - 1]);
    }
  }

  /** What the tick from one state to the next did. */
  function SaidAt(cfg: Config, s: State, t: Tick): Said {
    if t.move.Act? && t.move.who < |s.members|
    then Step(cfg, s.core, s.members[t.move.who].me, t.at, t.move.input).said
    else Silent
  }

  predicate OpensAt(cfg: Config, s: State, t: Tick) {
    SaidAt(cfg, s, t).Says? && SaidAt(cfg, s, t).event.Opened?
  }

  /** A Logout that had the slot gives it back. */
  predicate LeavesLogout(s: State, s': State, t: Tick) {
    && t.move.Act? && t.move.who < |s.members| && t.move.who < |s'.members|
    && s.members[t.move.who].me.op.Logout?
    && s.members[t.move.who].me.pc.Unlock? && s'.members[t.move.who].me.pc.Leaving?
  }

  predicate IsApiRequest(said: Said) {
    said.Says? && said.event.Sent? && said.event.request.ApiRequest?
  }

  /** One tick gets a token only by a handshake, and sends a KasApi request only with one. */
  lemma TokenTick(cfg: Config, s: State, t: Tick)
    requires TokenKept(s) && Enabled(s, t)
    ensures s.core.token == "" && !OpensAt(cfg, s, t) ==> Apply(cfg, s, t).core.token == ""
    ensures IsApiRequest(SaidAt(cfg, s, t)) ==> s.core.token != ""
  {
    if t.move.Act? {
      StepToken(cfg, s.core, s.members[t.move.who].me, t.at, t.move.input);
    }
  }

  /** Without a token and without a new handshake there is still no token and no KasApi request. */
  lemma {:induction false} NoTokenNoRequest(cfg: Config, states: seq<State>, ticks: seq<Tick>, k: nat, j: nat)
    requires IsRun(cfg, states, ticks) && k <= j < |ticks|
    requires states[k].core.token == ""
    requires forall m | k <= m < j :: !OpensAt(cfg, states[m], ticks[m])
    ensures states[j].core.token == ""
    ensures !IsApiRequest(SaidAt(cfg, states[j], ticks[j]))
  {
    if j > k {
      NoTokenNoRequest(cfg, states, ticks, k, j - 1);
      RunTokenKept(cfg, states, ticks, j - 1);
      assert Enabled(states[j - 1], ticks[j - 1]);
      TokenTick(cfg, states[j - 1], ticks[j - 1]);
    }
    RunTokenKept(cfg, states, ticks, j);
    assert Enabled(states[j], ticks[j]);
    TokenTick(cfg, states[j], ticks[j]);
  }

  /** A Logout that had the slot leaves no token, whatever the server answered; after it no caller
      sends a KasApi request before a new handshake has succeeded. */
  lemma LogoutEndsSession(cfg: Config, states: seq<State>, ticks: seq<Tick>, k: nat, j: nat)
    requires IsRun(cfg, states, ticks) && k < j < |ticks|
    requires LeavesLogout(states[k], states[k + 1], ticks[k])
    ensures states[k + 1].core.token == ""
    ensures IsApiRequest(SaidAt(cfg, states[j], ticks[j])) ==>
      exists m | k < m < j :: OpensAt(cfg, states[m], ticks[m])
  {
    RunTokenKept(cfg, states, ticks, k);
    assert Enabled(states[k], ticks[k]);
    assert TokenFits(states[k].core, states[k].members[ticks[k].move.who].me);
    if forall m | k < m < j :: !OpensAt(cfg, states[m], ticks[m]) {
      NoTokenNoRequest(cfg, states, ticks, k + 1, j);
    }
  }

  // ----- handshakes -----

  /** No token obtained in this call was past its trusted expiry when an attempt began. */
  predicate NoExpiry(h: History) {
    forall p, q | 0 <= p < q < |h| && h[p].Opened? && h[q].Attempt? :: h[q].at < h[p].exp
  }

  /** The expiry of the latest token of this call. */
  function LatestExp(h: History): int {
    if h == [] then 0
    else if h[|h| - 1].Opened? then h[|h| - 1].exp
    else LatestExp(h[..|h| - 1])
  }

  lemma {:induction false} LatestIsOpened(h: History) returns (p: nat)
    requires Handshakes(h) > 0
    ensures p < |h| && h[p].Opened? && h[p].exp == LatestExp(h)
  {
    if h[|h| - 1].Opened? {
      p := |h| - 1;
    } else {
      p := LatestIsOpened(h[..|h| - 1]);
    }
  }

  function Renewals(me: Local): nat {
    if me.reauthed then 1 else 0
  }

  predicate Authenticating(pc: Pc) {
    pc.AskPin? || pc.AuthWindow? || pc.AuthReady? || pc.AuthFlight? || pc.AuthStore?
  }

  /** One handshake more than sessions renewed, and then its token is the one in use. n and
      latest are the number and the latest expiry of the handshakes of this call. */
  predicate FewHandshakes(core: Core, me: Local, n: nat, latest: int) {
    && n <= Renewals(me) + 1
    && (Authenticating(me.pc) ==> n <= Renewals(me))
    && (me.pc.Start? || me.pc.Lock? ==> n == 0)
    && (HoldsSlot(me.pc) && !Finishing(me.pc) && n == Renewals(me) + 1 ==>
          core.token != "" && core.tokenExp == latest)
  }

  function OpenedAfter(n: nat, said: Said): nat {
    n + if said.Says? && said.event.Opened? then 1 else 0
  }

  function LatestAfter(latest: int, said: Said): int {
    if said.Says? && said.event.Opened? then said.event.exp else latest
  }

  /** An attempt that begins with a token of this call begins before its expiry. */
  predicate FreshAttempt(n: nat, latest: int, said: Said) {
    n > 0 && said.Says? && said.event.Attempt? ==> said.event.at < latest
  }

  lemma HandshakeEnter(cfg: Config, core: Core, me: Local, now: int, input: Input, n: nat, latest: int)
    requires FewHandshakes(core, me, n, latest)
    requires me.pc.Start? || me.pc.Lock? || me.pc.LogoutCheck? || me.pc.Recheck?
    ensures var out := Step(cfg, core, me, now, input);
      FewHandshakes(out.core, out.me, OpenedAfter(n, out.said), LatestAfter(latest, out.said))
  {
  }

  lemma HandshakeAuth(cfg: Config, core: Core, me: Local, now: int, input: Input, n: nat, latest: int)
    requires FewHandshakes(core, me, n, latest)
    requires me.pc.Ensure? || Authenticating(me.pc)
    requires TokenFits(core, me)
    requires FreshAttempt(n, latest, Step(cfg, core, me, now, input).said)
    ensures var out := Step(cfg, core, me, now, input);
      FewHandshakes(out.core, out.me, OpenedAfter(n, out.said), LatestAfter(latest, out.said))
  {
  }

  lemma HandshakeApi(cfg: Config, core: Core, me: Local, now: int, input: Input, n: nat, latest: int)
    requires FewHandshakes(core, me, n, latest)
    requires me.pc.ApiWindow? || me.pc.ApiReady? || me.pc.ApiFlight?
          || me.pc.ApiFlood? || me.pc.ApiExtend? || me.pc.Returned?
    ensures var out := Step(cfg, core, me, now, input);
      FewHandshakes(out.core, out.me, OpenedAfter(n, out.said), LatestAfter(latest, out.said))
  {
  }

  lemma HandshakeLeave(cfg: Config, core: Core, me: Local, now: int, input: Input, n: nat, latest: int)
    requires FewHandshakes(core, me, n, latest)
    requires me.pc.Unlock? || me.pc.Relock? || me.pc.Store? || me.pc.Unstore? || me.pc.Leaving? || me.pc.Done?
    ensures var out := Step(cfg, core, me, now, input);
      FewHandshakes(out.core, out.me, OpenedAfter(n, out.said), LatestAfter(latest, out.said))
  {
  }

  lemma StepHandshakes(cfg: Config, core: Core, me: Local, now: int, input: Input, n: nat, latest: int)
    requires FewHandshakes(core, me, n, latest) && TokenFits(core, me)
    requires FreshAttempt(n, latest, Step(cfg, core, me, now, input).said)
    ensures var out := Step(cfg, core, me, now, input);
      FewHandshakes(out.core, out.me, OpenedAfter(n, out.said), LatestAfter(latest, out.said))
  {
    match me.pc
    case Start | Lock | LogoutCheck | Recheck => HandshakeEnter(cfg, core, me, now, input, n, latest);
    case Ensure | AskPin | AuthWindow(_) | AuthReady(_) | AuthFlight | AuthStore(_) =>
      HandshakeAuth(cfg, core, me, now, input, n, latest);
    case Unlock(_) | Relock | Store | Unstore | Leaving(_) | Done(_) =>
      HandshakeLeave(cfg, core, me, now, input, n, latest);
    case _ => HandshakeApi(cfg, core, me, now, input, n, latest);
  }

  predicate MemberHandshakes(core: Core, m: Member) {
    NoExpiry(m.hist) ==> FewHandshakes(core, m.me, Handshakes(m.hist), LatestExp(m.hist))
  }

  lemma MemberHandshakesStep(cfg: Config, core: Core, m: Member, now: int, input: Input)
    requires MemberHandshakes(core, m) && TokenFits(core, m.me)
    ensures var out := Step(cfg, core, m.me, now, input); MemberHandshakes(out.core, Acted(m, out))
  {
    var out := Step(cfg, core, m.me, now, input);
    var h' := m.hist + Heard(out.said);
    if NoExpiry(h') {
      assert NoExpiry(m.hist) by {
        assert forall p | 0 <= p < |m.hist| :: h'[p] == m.hist[p];
      }
      if out.said.Says? {
        var e := out.said.event;
        assert h' == m.hist + [e] && h'[..|m.hist|] == m.hist && h'[|m.hist|] == e;
        CountersSnoc(m.hist, e);
        if Handshakes(m.hist) > 0 {
          var p := LatestIsOpened(m.hist);
          assert h'[p] == m.hist[p];
        }
      } else {
        assert h' == m.hist;
      }
      StepHandshakes(cfg, core, m.me, now, input, Handshakes(m.hist), LatestExp(m.hist));
    }
  }

  predicate AllHandshakes(s: State) {
    forall i | 0 <= i < |s.members| :: MemberHandshakes(s.core, s.members[i])
  }

  lemma AllHandshakesApply(cfg: Config, s: State, t: Tick)
    requires AllHandshakes(s) && TokenKept(s) && Enabled(s, t)
    ensures AllHandshakes(Apply(cfg, s, t))
  {
    var s' := Apply(cfg, s, t);
    if t.move.Act? {
      MemberHandshakesStep(cfg, s.core, s.members[t.move.who], t.at, t.move.input);
      StepSlot(cfg, s.core, s.members[t.move.who].me, t.at, t.move.input);
    }
    forall i | 0 <= i < |s'.members|
      ensures MemberHandshakes(s'.core, s'.members[i])
    {
      assert MemberHandshakes(s.core, s.members[i]);
    }
  }

  /** In every run, a call none of whose tokens passes its trusted expiry makes at most two successful
      handshakes: one, and one more if the API rejected a session. */
  lemma {:induction false} AtMostTwoHandshakes(cfg: Config, states: seq<State>, ticks: seq<Tick>, k: nat)
    requires IsRun(cfg, states, ticks) && k < |states|
    ensures AllHandshakes(states[k])
    ensures forall i | 0 <= i < |states[k].members| && NoExpiry(states[k].members[i].hist) ::
      Handshakes(states[k].members[i].hist) <= 1 + Renewals(states[k].members[i].me) <= 2
  {
    if k == 0 {
      forall i | 0 <= i < |states[0].members|
        ensures MemberHandshakes(states[0].core, states[0].members[i])
      {
        assert states[0].members[i].hist == [];
      }
    } else {
      AtMostTwoHandshakes(cfg, states, ticks, k - 1);
      RunTokenKept(cfg, states, ticks, k - 1);
      assert Enabled(states[k - 1], ticks[k - 1]);
      AllHandshakesApply(cfg, states[k - 1], ticks[k - 1]);
    }
    assert forall i | 0 <= i < |states[k].members| :: MemberHandshakes(states[k].core, states[k].members[i]);
  }

  // ----- how long a session is used -----

  /** The end of the client's trust in a session stored or used at a time, in nanoseconds: the lifetime less
      one minute, or half of a lifetime of at most two minutes. */
  function TrustedUntil(lifetime: int, now: int): int {
    now + if lifetime <= 120 then lifetime * 500_000_000 else (lifetime - 60) * 1_000_000_000
  }

  /** A caller stores a new session, or extends the one its request has used. */
  predicate Renews(me: Local, input: Input) {
    input.Go? && (me.pc.AuthStore? || me.pc.ApiExtend?)
  }

  predicate TrustStep(cfg: Config, core: Core, me: Local, now: int, input: Input, out: Out) {
    && out.core.tokenExp == (if Renews(me, input) then TrustedUntil(cfg.lifetime, now) else core.tokenExp)
    && (me.pc.Ensure? && input.Go? ==>
          && out.said == Says(Attempt(now))
          && out.me.pc == if core.token != "" && now < core.tokenExp then ApiWindow
                          else if cfg.twoFactor then AskPin else AuthWindow(""))
  }

  /** Only storing and extending a session move the end of the trust in it, and an attempt goes on with the
      session exactly while it is trusted. */
  lemma StepTrust(cfg: Config, core: Core, me: Local, now: int, input: Input)
    ensures TrustStep(cfg, core, me, now, input, Step(cfg, core, me, now, input))
  {
    hide TokenOf, ResponseResult, Delay, LogoutResult, UpdateSucceeded, RetryOf, AuthCall, ApiCall;
  }

  predicate RenewsAt(s: State, t: Tick) {
    t.move.Act? && t.move.who < |s.members| && Renews(s.members[t.move.who].me, t.move.input)
  }

  lemma {:induction false} TrustStays(cfg: Config, states: seq<State>, ticks: seq<Tick>, i: nat, j: nat)
    requires IsRun(cfg, states, ticks) && i < j < |states| && RenewsAt(states[i], ticks[i])
    requires forall m | i < m < j :: !RenewsAt(states[m], ticks[m])
    ensures states[j].core.tokenExp == TrustedUntil(cfg.lifetime, ticks[i].at)
  {
    hide Step, TrustedUntil;
    if i + 1 < j {
      TrustStays(cfg, states, ticks, i, j - 1);
    }
    var s, t := states[j - 1], ticks[j - 1];
    assert Enabled(s, t);
    if t.move.Act? {
      StepTrust(cfg, s.core, s.members[t.move.who].me, t.at, t.move.input);
    }
  }

  /** In every run an attempt needs a handshake exactly when there is no token or the trust in the session has
      ended that began when it was last stored or used, by whichever caller. */
  lemma SessionReused(cfg: Config, states: seq<State>, ticks: seq<Tick>, i: nat, j: nat)
    requires IsRun(cfg, states, ticks) && i < j < |ticks| && RenewsAt(states[i], ticks[i])
    requires forall m | i < m < j :: !RenewsAt(states[m], ticks[m])
    requires ticks[j].move.Act? && ticks[j].move.input.Go? && ticks[j].move.who < |states[j].members|
    requires states[j].members[ticks[j].move.who].me.pc.Ensure?
    ensures ticks[j].move.who < |states[j + 1].members|
    ensures states[j + 1].members[ticks[j].move.who].me.pc.ApiWindow? <==>
      states[j].core.token != "" && ticks[j].at < TrustedUntil(cfg.lifetime, ticks[i].at)
  {
    hide Step, TrustedUntil;
    TrustStays(cfg, states, ticks, i, j);
    assert Enabled(states[j], ticks[j]);
    StepTrust(cfg, states[j].core, states[j].members[ticks[j].move.who].me, ticks[j].at, ticks[j].move.input);
  }
}
