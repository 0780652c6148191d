/** The margin of sessionTTL (auth.go): against a server that ends a session one lifetime after its
    issue or last use, every KasApi request reaches the server before its session ends, if the time
    answers take to arrive and the time from the check of the session to the arrival of the request,
    flood wait included, together stay within the margin. That holds of requests whose caller has given
    up as well; only a Logout can end a session under a request that is still on its way. */
module SessionMargin {
  import opened Soap
  import opened Caller
  import opened CallerLaws
  import Effects
  import opened Turns
  import opened Sessions
  import opened Results

  function Lifetime(cfg: Config): int {
    cfg.lifetime * SECOND
  }

  /** A session the server keeps until at least a time. */
  predicate Lives(sessions: map<string, int>, token: string, until: int) {
    token in sessions && sessions[token] >= until
  }

  /** A KasAuth answer that carries a token. */
  predicate Issues(reply: Reply) {
    reply.Decoded? && TokenOf(reply.value) != ""
  }

  /** A KasApi answer the client takes as success. */
  predicate Uses(reply: Reply) {
    reply.Decoded? && InOrder(reply.value)
  }

  /** The server takes up the delete_session of a Logout. */
  predicate TakesUpLogout(s: State, t: Tick)
    requires Enabled(s, t)
  {
    t.move.Serve? && s.members[t.move.who].me.op.Logout? && s.members[t.move.who].served.request.ApiRequest?
  }

  /** The server side: issuing a token makes the session last the lifetime the handshake asked for, and
      answering a request with success one lifetime from then; no session is shortened, except that a Logout
      may end its own. */
  predicate HonestServer(cfg: Config, s: State, t: Tick)
    requires Enabled(s, t)
  {
    t.move.Serve? ==>
      var m, reply, after := s.members[t.move.who], t.move.reply, t.move.sessions;
      && (m.served.request.AuthRequest? && Issues(reply) ==> Lives(after, TokenOf(reply.value), t.at + m.served.request.lifetime * SECOND))
      && (m.served.request.ApiRequest? && Uses(reply) && !m.me.op.Logout? ==>
            Lives(after, m.served.request.token, t.at + Lifetime(cfg)))
      && forall k | k in s.sessions && !(TakesUpLogout(s, t) && k == m.served.request.token) ::
            Lives(after, k, s.sessions[k])
  }

  /** A Logout ends a session. */
  predicate EndsSession(s: State, t: Tick)
    requires Enabled(s, t)
  {
    && TakesUpLogout(s, t)
    && var token := s.members[t.move.who].served.request.token;
       token in s.sessions && !Lives(t.move.sessions, token, s.sessions[token])
  }

  /** The client holds a token: the one in use or one just issued to it. */
  predicate Holds(s: State, token: string) {
    || s.core.token == token
    || (0 <= s.holder < |s.members| &&
        var m := s.members[s.holder];
        || (m.me.pc.AuthFlight? && m.served.Served? && Issues(m.served.reply) && TokenOf(m.served.reply.value) == token)
        || (m.me.pc.AuthStore? && m.me.pc.token == token))
  }

  /** A Logout that was given up and still reaches the server ends no session the client holds again. */
  predicate LogoutInTime(s: State, t: Tick)
    requires Enabled(s, t)
  {
    EndsSession(s, t) && !InFlight(s.members[t.move.who].me.pc) ==> !Holds(s, s.members[t.move.who].served.request.token)
  }

  /** The network: at most back from the moment the server answers until the client has noted the answer,
      and at most out from the check of the session until the request arrives. */
  predicate Timely(s: State, t: Tick, back: int, out: int)
    requires Enabled(s, t)
  {
    var m := s.members[t.move.who];
    && (t.move.Act? && t.move.input.Go? && (m.me.pc.AuthStore? || m.me.pc.ApiExtend?) && m.served.Served? ==>
          t.at - m.served.at <= back)
    && (t.move.Serve? && m.served.request.ApiRequest? ==> t.at - m.me.checkedAt <= out)
  }

  /** What is assumed of a tick. */
  predicate Fair(cfg: Config, s: State, t: Tick, back: int, out: int)
    requires Enabled(s, t)
  {
    HonestServer(cfg, s, t) && Timely(s, t, back, out) && LogoutInTime(s, t)
  }

  /** A Logout whose request the server has taken up: its session may be gone, its token is about to be. */
  predicate Ending(m: Member) {
    && m.me.op.Logout?
    && ((m.me.pc.ApiFlight? && !m.served.NotServed?) || m.me.pc.ApiFlood? || m.me.pc.ApiExtend? || m.me.pc.Returned?)
  }

  /** The client trusts its token only as long as the server keeps the session, up to back. */
  predicate Trusted(cfg: Config, core: Core, sessions: map<string, int>, back: int) {
    core.token != "" ==> Lives(sessions, core.token, core.tokenExp + Margin(cfg.lifetime) - back)
  }

  /** What the holder has in hand. */
  predicate InHand(cfg: Config, core: Core, m: Member, sessions: map<string, int>) {
    var pc := m.me.pc;
    && (InFlight(pc) ==> !m.served.Idle?)
    && (pc.AuthFlight? && m.served.NotServed? ==>
          m.served.request.AuthRequest? && m.served.request.lifetime == cfg.lifetime)
    && (pc.ApiFlight? && m.served.NotServed? ==> m.served.request.ApiRequest? && m.served.request.token == core.token)
    && (pc.AuthFlight? && m.served.Served? && Issues(m.served.reply) ==>
          Lives(sessions, TokenOf(m.served.reply.value), m.served.at + Lifetime(cfg)))
    && (pc.AuthStore? ==> m.served.Served? && Lives(sessions, pc.token, m.served.at + Lifetime(cfg)))
    && (!m.me.op.Logout? ==>
          && (pc.ApiFlight? && m.served.Served? && Uses(m.served.reply) ==>
                Lives(sessions, core.token, m.served.at + Lifetime(cfg)))
          && (pc.ApiFlood? && InOrder(pc.ret) ==>
                m.served.Served? && Lives(sessions, core.token, m.served.at + Lifetime(cfg)))
          && (pc.ApiExtend? ==> m.served.Served? && Lives(sessions, core.token, m.served.at + Lifetime(cfg))))
    && (pc.ApiWindow? || pc.ApiReady? || (pc.ApiFlight? && m.served.NotServed?) ==> m.me.checkedAt < core.tokenExp)
  }

  predicate MarginKept(cfg: Config, s: State, back: int) {
    && TokenKept(s)
    && (0 <= s.holder < |s.members| ==> InHand(cfg, s.core, s.members[s.holder], s.sessions))
    && ((0 <= s.holder < |s.members| && Ending(s.members[s.holder])) || Trusted(cfg, s.core, s.sessions, back))
  }

  /** One step of the holder keeps what it has in hand and the trust in the token. */
  predicate HandStep(cfg: Config, s: State, m: Member, out: Out, back: int) {
    && (HoldsSlot(out.me.pc) ==> InHand(cfg, out.core, Acted(m, out), s.sessions))
    && (Ending(Acted(m, out)) || Trusted(cfg, out.core, s.sessions, back))
  }

  predicate HandReady(cfg: Config, s: State, t: Tick, m: Member, back: int, out: int) {
    && Enabled(s, t) && t.move.Act? && m == s.members[t.move.who]
    && ValidConfig(cfg) && Timely(s, t, back, out)
    && TokenFits(s.core, m.me) && InHand(cfg, s.core, m, s.sessions)
    && (Ending(m) || Trusted(cfg, s.core, s.sessions, back))
  }

  lemma HandCheck(cfg: Config, s: State, t: Tick, m: Member, back: int, out: int)
    requires HandReady(cfg, s, t, m, back, out)
    requires m.me.pc.LogoutCheck? || m.me.pc.Recheck?
    ensures HandStep(cfg, s, m, Step(cfg, s.core, m.me, t.at, t.move.input), back)
  {
    hide TokenOf, InOrder, Margin, SessionTTL, LogoutResult, Timely;
  }

  lemma HandEnsure(cfg: Config, s: State, t: Tick, m: Member, back: int, out: int)
    requires HandReady(cfg, s, t, m, back, out)
    requires m.me.pc.Ensure?
    ensures HandStep(cfg, s, m, Step(cfg, s.core, m.me, t.at, t.move.input), back)
  {
    hide TokenOf, InOrder, Margin, SessionTTL, LogoutResult, Timely;
  }

  lemma HandWindow(cfg: Config, s: State, t: Tick, m: Member, back: int, out: int)
    requires HandReady(cfg, s, t, m, back, out)
    requires m.me.pc.AskPin? || m.me.pc.AuthWindow?
    ensures HandStep(cfg, s, m, Step(cfg, s.core, m.me, t.at, t.move.input), back)
  {
    hide TokenOf, InOrder, Margin, SessionTTL, LogoutResult, Timely;
  }

  lemma HandAuth(cfg: Config, s: State, t: Tick, m: Member, back: int, out: int)
    requires HandReady(cfg, s, t, m, back, out)
    requires m.me.pc.AuthReady? || m.me.pc.AuthFlight? || m.me.pc.AuthStore?
    ensures HandStep(cfg, s, m, Step(cfg, s.core, m.me, t.at, t.move.input), back)
  {
    hide InOrder, TokenOf, Margin;
    MarginIsMinimum(cfg.lifetime);
  }

  lemma HandApi(cfg: Config, s: State, t: Tick, m: Member, back: int, out: int)
    requires HandReady(cfg, s, t, m, back, out)
    requires m.me.pc.ApiWindow? || m.me.pc.ApiReady? || m.me.pc.ApiFlight?
    ensures HandStep(cfg, s, m, Step(cfg, s.core, m.me, t.at, t.move.input), back)
  {
    hide TokenOf, InOrder, Margin, SessionTTL;
  }

  lemma HandAnswer(cfg: Config, s: State, t: Tick, m: Member, back: int, out: int)
    requires HandReady(cfg, s, t, m, back, out)
    requires m.me.pc.ApiFlood? || m.me.pc.ApiExtend? || m.me.pc.Returned?
    ensures HandStep(cfg, s, m, Step(cfg, s.core, m.me, t.at, t.move.input), back)
  {
    hide TokenOf, Margin, Delay, RetryOf, LogoutResult;
    MarginIsMinimum(cfg.lifetime);
  }

  lemma HandLeave(cfg: Config, s: State, t: Tick, m: Member, back: int, out: int)
    requires HandReady(cfg, s, t, m, back, out)
    requires m.me.pc.Unlock? || m.me.pc.Store? || m.me.pc.Unstore?
    ensures HandStep(cfg, s, m, Step(cfg, s.core, m.me, t.at, t.move.input), back)
  {
    hide TokenOf, InOrder, Margin, SessionTTL, UpdateSucceeded;
  }

  lemma HolderHand(cfg: Config, s: State, t: Tick, m: Member, back: int, out: int)
    requires HandReady(cfg, s, t, m, back, out) && HoldsSlot(m.me.pc)
    ensures HandStep(cfg, s, m, Step(cfg, s.core, m.me, t.at, t.move.input), back)
  {
    match m.me.pc
    case LogoutCheck | Recheck => HandCheck(cfg, s, t, m, back, out);
    case Ensure => HandEnsure(cfg, s, t, m, back, out);
    case AskPin | AuthWindow(_) => HandWindow(cfg, s, t, m, back, out);
    case AuthReady(_) | AuthFlight | AuthStore(_) => HandAuth(cfg, s, t, m, back, out);
    case ApiWindow | ApiReady | ApiFlight => HandApi(cfg, s, t, m, back, out);
    case ApiFlood(_) | ApiExtend(_) | Returned(_) => HandAnswer(cfg, s, t, m, back, out);
    case Unlock(_) | Store | Unstore => HandLeave(cfg, s, t, m, back, out);
  }

  /** A caller that takes the slot has nothing in hand. */
  lemma EnterHand(cfg: Config, s: State, t: Tick, m: Member)
    requires Enabled(s, t) && t.move.Act? && m == s.members[t.move.who] && !HoldsSlot(m.me.pc)
    ensures var out := Step(cfg, s.core, m.me, t.at, t.move.input);
      && out.core == s.core.(busy := out.core.busy)
      && (HoldsSlot(out.me.pc) ==> out.me.pc.LogoutCheck? || out.me.pc.Ensure? || out.me.pc.Store?)
  {
    StepSlot(cfg, s.core, m.me, t.at, t.move.input);
    if m.me.pc.Start? || m.me.pc.Lock? {
    } else {
      assert m.me.pc.Relock? || m.me.pc.Leaving? || m.me.pc.Done?;
    }
  }

  lemma ActKeepsMargin(cfg: Config, s: State, t: Tick, back: int, out: int)
    requires ValidConfig(cfg) && MarginKept(cfg, s, back) && Enabled(s, t) && Timely(s, t, back, out) && t.move.Act?
    ensures MarginKept(cfg, Apply(cfg, s, t), back)
  {
    var m := s.members[t.move.who];
    TokenKeptApply(cfg, s, t);
    StepSlot(cfg, s.core, m.me, t.at, t.move.input);
    if HoldsSlot(m.me.pc) {
      assert TokenFits(s.core, m.me);
      HolderHand(cfg, s, t, m, back, out);
    } else {
      EnterHand(cfg, s, t, m);
    }
  }

  /** The server takes up a request of the caller inside. */
  lemma ServeHolder(cfg: Config, s: State, t: Tick, back: int)
    requires MarginKept(cfg, s, back) && Enabled(s, t) && HonestServer(cfg, s, t)
    requires t.move.Serve? && t.move.who == s.holder && Placed(s.members[t.move.who])
    ensures var s' := Apply(cfg, s, t);
      && InHand(cfg, s'.core, s'.members[s'.holder], s'.sessions)
      && (Ending(s'.members[s'.holder]) || Trusted(cfg, s'.core, s'.sessions, back))
  {
    hide TokenOf, InOrder, Margin;
    assert TokenFits(s.core, s.members[t.move.who].me);
  }

  /** The server takes up a request somebody has given up on. */
  lemma ServeAbandoned(cfg: Config, s: State, t: Tick, back: int)
    requires MarginKept(cfg, s, back) && Enabled(s, t) && HonestServer(cfg, s, t) && LogoutInTime(s, t)
    requires t.move.Serve? && t.move.who != s.holder
    ensures MarginKept(cfg, Apply(cfg, s, t), back)
  {
    hide TokenOf, InOrder, Margin;
    TokenKeptApply(cfg, s, t);
    assert !HoldsSlot(s.members[t.move.who].me.pc);
  }

  lemma ServeKeepsMargin(cfg: Config, s: State, t: Tick, back: int)
    requires MarginKept(cfg, s, back) && Enabled(s, t) && t.move.Serve? && Placed(s.members[t.move.who])
    requires HonestServer(cfg, s, t) && LogoutInTime(s, t)
    ensures MarginKept(cfg, Apply(cfg, s, t), back)
  {
    hide InHand, Ending, Trusted, HonestServer, LogoutInTime;
    if t.move.who == s.holder {
      TokenKeptApply(cfg, s, t);
      ServeHolder(cfg, s, t, back);
    } else {
      ServeAbandoned(cfg, s, t, back);
    }
  }

  // ----- requests on their way -----

  /** A request that is not taken up belongs to a call that waits for it or has given up for good, and
      its session lasts as long as the check of the session promised. */
  predicate OnItsWay(cfg: Config, m: Member, sessions: map<string, int>, back: int) {
    m.served.NotServed? && m.served.request.ApiRequest? ==>
      Lives(sessions, m.served.request.token, m.me.checkedAt + 1 + Margin(cfg.lifetime) - back)
  }

  predicate Placed(m: Member) {
    m.served.NotServed? ==> InFlight(m.me.pc) || Finishing(m.me.pc)
  }

  /** spoiled are the callers whose request was on its way when a Logout ended its session. */
  predicate AllOnTheirWay(cfg: Config, s: State, spoiled: set<nat>, back: int) {
    forall i | 0 <= i < |s.members| ::
      Placed(s.members[i]) && (i !in spoiled ==> OnItsWay(cfg, s.members[i], s.sessions, back))
  }

  predicate IsOnItsWay(m: Member, token: string) {
    m.served.NotServed? && m.served.request.ApiRequest? && m.served.request.token == token
  }

  ghost function SpoiledAfter(cfg: Config, s: State, t: Tick, spoiled: set<nat>): set<nat>
    requires Enabled(s, t)
  {
    if EndsSession(s, t) then
      spoiled + set i | 0 <= i < |s.members| && IsOnItsWay(s.members[i], s.members[t.move.who].served.request.token)
    else if SaidAt(cfg, s, t).Says? && SaidAt(cfg, s, t).event.Sent? then spoiled - {t.move.who}
    else spoiled
  }

  /** The check of the session is not made again while a request is on its way. */
  lemma CheckStays(cfg: Config, core: Core, me: Local, now: int, input: Input)
    requires InFlight(me.pc) || Finishing(me.pc)
    ensures Step(cfg, core, me, now, input).me.checkedAt == me.checkedAt
  {
    hide TokenOf, InOrder, Delay, SessionTTL, LogoutResult, UpdateSucceeded;
  }

  lemma ActKeepsPlace(cfg: Config, s: State, t: Tick)
    requires Enabled(s, t) && t.move.Act? && Placed(s.members[t.move.who])
    ensures Placed(Apply(cfg, s, t).members[t.move.who])
    ensures
      var m, m' := s.members[t.move.who], Apply(cfg, s, t).members[t.move.who];
      m'.served.NotServed? && !(SaidAt(cfg, s, t).Says? && SaidAt(cfg, s, t).event.Sent?) ==>
        m'.served == m.served && m'.me.checkedAt == m.me.checkedAt
  {
    hide Step;
    var m := s.members[t.move.who];
    Effects.StepPhase(cfg, s.core, m.me, t.at, t.move.input);
    if InFlight(m.me.pc) || Finishing(m.me.pc) {
      CheckStays(cfg, s.core, m.me, t.at, t.move.input);
    }
  }

  /** A request leaves with a session that lasts. */
  lemma SentLives(cfg: Config, s: State, t: Tick, back: int)
    requires MarginKept(cfg, s, back) && Enabled(s, t) && t.move.Act?
    requires SaidAt(cfg, s, t).Says? && SaidAt(cfg, s, t).event.Sent?
    ensures OnItsWay(cfg, Apply(cfg, s, t).members[t.move.who], s.sessions, back)
  {
    hide TokenOf, InOrder, Margin, SessionTTL;
    var m := s.members[t.move.who];
    StepSlot(cfg, s.core, m.me, t.at, t.move.input);
    OnlyReadySends(cfg, s.core, m.me, t.at, t.move.input);
  }

  lemma OnlyReadySends(cfg: Config, core: Core, me: Local, now: int, input: Input)
    ensures var out := Step(cfg, core, me, now, input);
      out.said.Says? && out.said.event.Sent? ==>
        && (me.pc.AuthReady? || me.pc.ApiReady?) && out.me.checkedAt == me.checkedAt
        && (out.said.event.request.ApiRequest? ==> me.pc.ApiReady? && out.said.event.request.token == core.token)
  {
    Effects.StepPhase(cfg, core, me, now, input);
  }

  lemma ActKeepsOnTheirWay(cfg: Config, s: State, t: Tick, spoiled: set<nat>, back: int)
    requires MarginKept(cfg, s, back) && AllOnTheirWay(cfg, s, spoiled, back) && Enabled(s, t) && t.move.Act?
    ensures AllOnTheirWay(cfg, Apply(cfg, s, t), SpoiledAfter(cfg, s, t, spoiled), back)
  {
    hide Step, MarginKept;
    ActKeepsPlace(cfg, s, t);
    if SaidAt(cfg, s, t).Says? && SaidAt(cfg, s, t).event.Sent? {
      SentLives(cfg, s, t, back);
    }
    var s' := Apply(cfg, s, t);
    forall i | 0 <= i < |s'.members|
      ensures Placed(s'.members[i])
      ensures i !in SpoiledAfter(cfg, s, t, spoiled) ==> OnItsWay(cfg, s'.members[i], s'.sessions, back)
    {
      assert Placed(s.members[i]);
    }
  }

  lemma ServeKeepsOnTheirWay(cfg: Config, s: State, t: Tick, spoiled: set<nat>, back: int)
    requires AllOnTheirWay(cfg, s, spoiled, back) && Enabled(s, t) && t.move.Serve? && HonestServer(cfg, s, t)
    ensures AllOnTheirWay(cfg, Apply(cfg, s, t), SpoiledAfter(cfg, s, t, spoiled), back)
  {
    hide Margin;
    var s' := Apply(cfg, s, t);
    forall i | 0 <= i < |s'.members|
      ensures Placed(s'.members[i])
      ensures i !in SpoiledAfter(cfg, s, t, spoiled) ==> OnItsWay(cfg, s'.members[i], s'.sessions, back)
    {
      assert Placed(s.members[i]);
    }
  }

  // ----- over runs -----

  /** The server finds the session of the request alive. */
  predicate InTime(s: State, t: Tick)
    requires Enabled(s, t)
  {
    t.move.Serve? && s.members[t.move.who].served.request.ApiRequest? ==>
      var token := s.members[t.move.who].served.request.token;
      token in s.sessions && t.at < s.sessions[token]
  }

  lemma ServedInTime(cfg: Config, s: State, t: Tick, spoiled: set<nat>, back: int, out: int)
    requires AllOnTheirWay(cfg, s, spoiled, back) && Enabled(s, t) && Timely(s, t, back, out)
    requires back + out <= Margin(cfg.lifetime) && t.move.who !in spoiled
    ensures InTime(s, t)
  {
    hide Margin;
    assert Placed(s.members[t.move.who]);
  }

  /** A run whose every tick is fair; spoiled are, in each state, the callers whose latest request was on its
      way when a Logout ended its session. */
  ghost predicate FairRun(cfg: Config, states: seq<State>, ticks: seq<Tick>, spoiled: seq<set<nat>>, back: int, out: int) {
    && IsRun(cfg, states, ticks) && |spoiled| == |states| && spoiled[0] == {}
    && forall i | 0 <= i < |ticks| && Enabled(states[i], ticks[i]) ::
         Fair(cfg, states[i], ticks[i], back, out) && spoiled[i + 1] == SpoiledAfter(cfg, states[i], ticks[i], spoiled[i])
  }

  lemma {:induction false} RunKeepsMargin(cfg: Config, states: seq<State>, ticks: seq<Tick>, spoiled: seq<set<nat>>,
                                          back: int, out: int, k: nat)
    requires ValidConfig(cfg) && FairRun(cfg, states, ticks, spoiled, back, out) && k < |states|
    ensures MarginKept(cfg, states[k], back)
    ensures AllOnTheirWay(cfg, states[k], spoiled[k], back)
  {
    hide MarginKept, SpoiledAfter, HonestServer, Timely, LogoutInTime;
    if k == 0 {
      RunTokenKept(cfg, states, ticks, 0);
      StartKeepsMargin(cfg, states[0], back);
    } else {
      var s, t := states[k - 1], ticks[k - 1];
      RunKeepsMargin(cfg, states, ticks, spoiled, back, out, k - 1);
      assert Enabled(s, t) && Fair(cfg, s, t, back, out);
      if t.move.Act? {
        ActKeepsMargin(cfg, s, t, back, out);
        ActKeepsOnTheirWay(cfg, s, t, spoiled[k - 1], back);
      } else {
        assert Placed(s.members[t.move.who]);
        ServeKeepsMargin(cfg, s, t, back);
        ServeKeepsOnTheirWay(cfg, s, t, spoiled[k - 1], back);
      }
    }
  }

  lemma StartKeepsMargin(cfg: Config, s: State, back: int)
    requires Initial(s) && TokenKept(s)
    ensures MarginKept(cfg, s, back) && AllOnTheirWay(cfg, s, {}, back)
  {
  }

  /** In every run against such a server and network every KasApi request is in time, even if its caller
      has given up on it, unless a Logout ended its session while it was on its way. */
  lemma RequestsInTime(cfg: Config, states: seq<State>, ticks: seq<Tick>, spoiled: seq<set<nat>>, back: int, out: int, k: nat)
    requires ValidConfig(cfg) && FairRun(cfg, states, ticks, spoiled, back, out) && k < |ticks|
    requires back + out <= Margin(cfg.lifetime)
    ensures Enabled(states[k], ticks[k])
    ensures ticks[k].move.who !in spoiled[k] ==> InTime(states[k], ticks[k])
  {
    hide MarginKept, SpoiledAfter, AllOnTheirWay, Margin;
    RunKeepsMargin(cfg, states, ticks, spoiled, back, out, k);
    assert Enabled(states[k], ticks[k]) && Fair(cfg, states[k], ticks[k], back, out);
    if ticks[k].move.who !in spoiled[k] {
      ServedInTime(cfg, states[k], ticks[k], spoiled[k], back, out);
    }
  }

  /** If no session is ended early, nothing is ever spoiled. */
  lemma NothingSpoiled(cfg: Config, states: seq<State>, ticks: seq<Tick>, back: int, out: int, k: nat)
    requires ValidConfig(cfg) && IsRun(cfg, states, ticks) && k < |states|
    requires NoSessionEnds(cfg, states, ticks, back, out)
    ensures MarginKept(cfg, states[k], back) && AllOnTheirWay(cfg, states[k], {}, back)
  {
    var spoiled := seq(|states|, i requires 0 <= i < |states| => {});
    forall i | 0 <= i < |ticks| && Enabled(states[i], ticks[i])
      ensures Fair(cfg, states[i], ticks[i], back, out) && SpoiledAfter(cfg, states[i], ticks[i], {}) == {}
    {
      NoEndIsInTime(cfg, states[i], ticks[i]);
    }
    RunKeepsMargin(cfg, states, ticks, spoiled, back, out, k);
  }

  /** The server ends no session before its time, and the network is timely. */
  ghost predicate NoSessionEnds(cfg: Config, states: seq<State>, ticks: seq<Tick>, back: int, out: int) {
    forall i | 0 <= i < |ticks| && i < |states| && Enabled(states[i], ticks[i]) ::
      HonestServer(cfg, states[i], ticks[i]) && Timely(states[i], ticks[i], back, out) && !EndsSession(states[i], ticks[i])
  }

  /** If no session is ended early, every KasApi request of every run is in time. */
  lemma AllInTime(cfg: Config, states: seq<State>, ticks: seq<Tick>, back: int, out: int, k: nat)
    requires ValidConfig(cfg) && IsRun(cfg, states, ticks) && k < |ticks|
    requires back + out <= Margin(cfg.lifetime)
    requires NoSessionEnds(cfg, states, ticks, back, out)
    ensures Enabled(states[k], ticks[k]) && InTime(states[k], ticks[k])
  {
    hide HonestServer, InTime, Apply, Margin, EndsSession, MarginKept, AllOnTheirWay;
    assert Enabled(states[k], ticks[k]);
    NothingSpoiled(cfg, states, ticks, back, out, k);
    ServedInTime(cfg, states[k], ticks[k], {}, back, out);
  }

  lemma NoEndIsInTime(cfg: Config, s: State, t: Tick)
    requires Enabled(s, t)
    ensures !EndsSession(s, t) ==> LogoutInTime(s, t) && SpoiledAfter(cfg, s, t, {}) == {}
  {
    hide Step;
  }
}
